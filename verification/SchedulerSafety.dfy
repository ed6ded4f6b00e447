/** What no interleaving of the scheduler's goroutines can lose. */
module SchedulerSafety {
  import opened Bytes
  import opened Scheduler

  // ---------------------------------------------------------------------------
  // Wake-ups
  // ---------------------------------------------------------------------------

  /** The timer is in the wheel, about to be added, or about to clear its mark. */
  predicate Armed(s: State, t: Timer) {
    t in s.wheel || Adding(t.group, t.at) in s.threads || Firing(t.group, t.at) in s.threads
  }

  /** The timer is armed, or its callback is about to activate the group. */
  predicate Out(s: State, t: Timer) {
    Armed(s, t) || Waking(t.group, t.at) in s.threads
  }

  /** A nonzero wake mark has a timer of exactly that time behind it. */
  predicate MarkArmed(s: State, g: GroupId) {
    MarkOf(s, g) != 0 ==> Armed(s, Timer(g, MarkOf(s, g)))
  }

  /** Some timer for the group, due no later than asked, is still to activate it. */
  ghost predicate Answerable(s: State, w: Timer) {
    exists t: Timer :: Out(s, t) && t.group == w.group && t.at <= w.at
  }

  lemma Stays(threads: seq<Pc>, k: nat, pc: Pc, x: Pc)
    requires k < |threads|
    ensures pc in threads[k := pc]
    ensures x in threads && x != threads[k] ==> x in threads[k := pc]
  {
    var moved := threads[k := pc];
    assert moved[k] == pc;
    if x in threads && x != threads[k] {
      var i :| 0 <= i < |threads| && threads[i] == x;
      assert moved[i] == x;
    }
  }

  /** Only Fire takes a timer from the wheel, and only AddTimer puts one in. */
  lemma WheelAfter(s: State, k: nat, a: Action)
    requires Can(s, k, a)
    ensures Do(s, k, a).wheel
         == if a.Fire? then s.wheel - multiset{a.timer}
            else if a.AddTimer? then s.wheel + multiset{Timer(s.threads[k].g, s.threads[k].at)}
            else s.wheel
  {
    hide MarkOf, Drained, Answered, After;
  }

  /** An armed timer stays armed until it clears its mark. */
  lemma ArmedKept(s: State, k: nat, a: Action, t: Timer)
    requires Can(s, k, a) && Armed(s, t)
    requires !(a.ClearWake? && s.threads[k] == Firing(t.group, t.at))
    ensures Armed(Do(s, k, a), t)
  {
    hide Do;
    OneMoves(s, k, a);
    WheelAfter(s, k, a);
    Stays(s.threads, k, Then(s, k, a), Adding(t.group, t.at));
    Stays(s.threads, k, Then(s, k, a), Firing(t.group, t.at));
  }

  /** A timer stays out until its callback tries to activate the group. */
  lemma OutKept(s: State, k: nat, a: Action, t: Timer)
    requires Can(s, k, a) && Out(s, t)
    requires !(a.TrySchedule? && s.threads[k] == Waking(t.group, t.at))
    ensures Out(Do(s, k, a), t)
  {
    hide Do, Armed;
    OneMoves(s, k, a);
    Stays(s.threads, k, Then(s, k, a), Waking(t.group, t.at));
    if Armed(s, t) && !(a.ClearWake? && s.threads[k] == Firing(t.group, t.at)) {
      ArmedKept(s, k, a, t);
    }
  }

  lemma MarkAfter(s: State, k: nat, a: Action, g: GroupId)
    requires Can(s, k, a)
    ensures MarkOf(Do(s, k, a), g)
         == var pc := s.threads[k];
            if a.TrySetWake? && pc.g == g && MarkOf(s, g) == pc.seen then pc.at
            else if a.ClearWake? && pc.g == g && MarkOf(s, g) == pc.at then 0
            else MarkOf(s, g)
  {
    hide Drained, Answered, After;
  }

  lemma MarkAction(s: State, k: nat, a: Action, g: GroupId)
    requires Can(s, k, a) && MarkArmed(s, g)
    ensures MarkArmed(Do(s, k, a), g)
  {
    hide Do, Armed, MarkOf;
    var pc := s.threads[k];
    MarkAfter(s, k, a, g);
    if a.TrySetWake? && pc.g == g && MarkOf(s, g) == pc.seen {
      OneMoves(s, k, a);
      Stays(s.threads, k, Then(s, k, a), Idle);
      ArmedByAdding(Do(s, k, a), g, pc.at);
    } else if MarkOf(s, g) != 0 && !(a.ClearWake? && pc == Firing(g, MarkOf(s, g))) {
      ArmedKept(s, k, a, Timer(g, MarkOf(s, g)));
    }
  }

  lemma ArmedByAdding(s: State, g: GroupId, at: int)
    requires Adding(g, at) in s.threads
    ensures Armed(s, Timer(g, at))
  {
  }

  /** The wake-ups asked for after a step: scheduleWake returned with this one, or a
      callback answered some. */
  lemma WantedAfter(s: State, k: nat, a: Action, w: Timer)
    requires Can(s, k, a) && w in Do(s, k, a).seen.wanted
    ensures var pc := s.threads[k];
            || (w in s.seen.wanted
                && !(a.TrySchedule? && pc.Waking? && pc.g == w.group && pc.at <= w.at))
            || (a.LoadWake? && w == Timer(pc.g, pc.at) && MarkOf(s, pc.g) != 0 && MarkOf(s, pc.g) <= pc.at)
            || (a.AddTimer? && w == Timer(pc.g, pc.at))
  {
    hide MarkOf, After;
  }

  lemma WantedAction(s: State, k: nat, a: Action, w: Timer)
    requires Can(s, k, a) && w in Do(s, k, a).seen.wanted
    requires w in s.seen.wanted ==> Answerable(s, w)
    requires MarkArmed(s, w.group)
    ensures Answerable(Do(s, k, a), w)
  {
    hide Do, Armed, Out, MarkOf;
    var pc, s' := s.threads[k], Do(s, k, a);
    WantedAfter(s, k, a, w);
    if a.AddTimer? && w == Timer(pc.g, pc.at) {
      WheelAfter(s, k, a);
      OutIfArmed(s', w);
    } else if a.LoadWake? && w == Timer(pc.g, pc.at) && MarkOf(s, pc.g) != 0 && MarkOf(s, pc.g) <= pc.at {
      var t := Timer(pc.g, MarkOf(s, pc.g));
      ArmedKept(s, k, a, t);
      OutIfArmed(s', t);
    } else {
      var t: Timer :| Out(s, t) && t.group == w.group && t.at <= w.at;
      OutKept(s, k, a, t);
    }
  }

  lemma OutIfArmed(s: State, t: Timer)
    requires Armed(s, t) || t in s.wheel
    ensures Out(s, t)
  {
  }

  // ---------------------------------------------------------------------------
  // Activations
  // ---------------------------------------------------------------------------

  /** An activation is on its way to a drain that has not started. */
  predicate Coming(s: State, g: GroupId) {
    g in s.channel || Sending(g) in s.threads || Received(g) in s.threads || Draining(g) in s.threads
  }

  predicate Followed(s: State, g: GroupId) {
    g in s.seen.requested && g !in s.seen.dropped ==> Coming(s, g) || Dropping(g) in s.threads
  }

  /** A set flag means an activation is coming or being dropped. */
  lemma FlaggedIsComing(s: State, g: GroupId)
    requires FlagCounts(s, g) && g in s.flag
    ensures Coming(s, g) || Dropping(g) in s.threads
  {
    hide Holders;
    HolderExists(s.threads, g);
  }

  lemma ComingKept(s: State, k: nat, a: Action, g: GroupId)
    requires Can(s, k, a) && (Coming(s, g) || Dropping(g) in s.threads)
    requires !(a.Drain? && s.threads[k] == Draining(g))
    requires !(a.Drop? && s.threads[k] == Dropping(g))
    ensures Coming(Do(s, k, a), g) || Dropping(g) in Do(s, k, a).threads
  {
    hide Do;
    var pc := Then(s, k, a);
    OneMoves(s, k, a);
    ChannelAfter(s, k, a, g);
    Stays(s.threads, k, pc, Sending(g));
    Stays(s.threads, k, pc, Received(g));
    Stays(s.threads, k, pc, Draining(g));
    Stays(s.threads, k, pc, Dropping(g));
  }

  /** A group leaves the channel only into a worker's hands, and a send that finds
      room puts it in. */
  lemma ChannelAfter(s: State, k: nat, a: Action, g: GroupId)
    requires Can(s, k, a)
    ensures g in s.channel ==> g in Do(s, k, a).channel || Then(s, k, a) == Received(g)
    ensures a.Send? && s.threads[k] == Sending(g) && |s.channel| < s.capacity ==> g in Do(s, k, a).channel
  {
    hide MarkOf, Drained, Answered, After;
    if a.Receive? {
      assert s.channel == [s.channel[0]] + s.channel[1..];
    }
  }

  lemma RequestsAfter(s: State, k: nat, a: Action, g: GroupId)
    requires Can(s, k, a) && g in Do(s, k, a).seen.requested && g !in Do(s, k, a).seen.dropped
    ensures !(a.Drain? && s.threads[k] == Draining(g)) && !(a.Drop? && s.threads[k] == Dropping(g))
    ensures (g in s.seen.requested && g !in s.seen.dropped) || (a.TrySchedule? && s.threads[k].g == g)
  {
    hide MarkOf, Answered, After;
  }

  lemma FollowedAction(s: State, k: nat, a: Action, g: GroupId)
    requires Can(s, k, a) && FlagCounts(s, g) && Followed(s, g)
    ensures Followed(Do(s, k, a), g)
  {
    hide Do, Coming, FlagCounts;
    var s' := Do(s, k, a);
    if g in s'.seen.requested && g !in s'.seen.dropped {
      RequestsAfter(s, k, a, g);
      if a.TrySchedule? && s.threads[k].g == g {
        TriedIsComing(s, k, g);
      } else {
        ComingKept(s, k, a, g);
      }
    }
  }

  lemma TriedIsComing(s: State, k: nat, g: GroupId)
    requires Can(s, k, TrySchedule) && FlagCounts(s, g) && s.threads[k].g == g
    ensures var s' := Do(s, k, TrySchedule); Coming(s', g) || Dropping(g) in s'.threads
  {
    hide Do, FlagCounts;
    OneMoves(s, k, TrySchedule);
    if g in s.flag {
      FlaggedIsComing(s, g);
      ComingKept(s, k, TrySchedule, g);
    } else {
      Stays(s.threads, k, Sending(g), Idle);
    }
  }

  // ---------------------------------------------------------------------------
  // Pending work
  // ---------------------------------------------------------------------------

  predicate On(pc: Pc, g: GroupId) {
    !pc.Idle? && pc.g == g
  }

  /** Somebody is at work on the group, or it is in the channel, or has a timer. */
  ghost predicate Covered(s: State, g: GroupId) {
    g in s.channel
    || (exists pc: Pc :: pc in s.threads && On(pc, g))
    || (exists t: Timer :: t in s.wheel && t.group == g)
  }

  ghost predicate LookedAfter(s: State, g: GroupId) {
    g in s.seen.pending ==> Covered(s, g) || g in s.seen.excused
  }

  lemma CoveredBy(s: State, g: GroupId, pc: Pc)
    requires pc in s.threads && On(pc, g)
    ensures Covered(s, g)
  {
  }

  lemma CoveredIfComing(s: State, g: GroupId)
    requires Coming(s, g) || Dropping(g) in s.threads
    ensures Covered(s, g)
  {
    hide Covered;
    if Sending(g) in s.threads {
      CoveredBy(s, g, Sending(g));
    } else if Received(g) in s.threads {
      CoveredBy(s, g, Received(g));
    } else if Draining(g) in s.threads {
      CoveredBy(s, g, Draining(g));
    } else if Dropping(g) in s.threads {
      CoveredBy(s, g, Dropping(g));
    } else {
      assert Covered(s, g) by { CoveredInChannel(s, g); }
    }
  }

  lemma CoveredInChannel(s: State, g: GroupId)
    requires g in s.channel
    ensures Covered(s, g)
  {
  }

  lemma CoveredIfArmed(s: State, t: Timer)
    requires Armed(s, t)
    ensures Covered(s, t.group)
  {
    if t !in s.wheel {
      hide Covered;
      if Adding(t.group, t.at) in s.threads {
        CoveredBy(s, t.group, Adding(t.group, t.at));
      } else {
        CoveredBy(s, t.group, Firing(t.group, t.at));
      }
    }
  }

  /** A goroutine that goes idle leaves the group in other hands, unless it drained
      the group or dropped its activation. */
  lemma HandsOver(s: State, k: nat, a: Action, g: GroupId)
    requires Can(s, k, a) && On(s.threads[k], g) && !On(Then(s, k, a), g)
    requires FlagCounts(s, g) && MarkArmed(s, g) && !a.Drain? && !a.Drop?
    ensures Covered(Do(s, k, a), g)
  {
    hide Do, Covered, FlagCounts, Coming, Armed, MarkOf;
    var s' := Do(s, k, a);
    if a.TrySchedule? {
      TriedIsComing(s, k, g);
      CoveredIfComing(s', g);
    } else if a.Send? {
      ChannelAfter(s, k, a, g);
      CoveredInChannel(s', g);
    } else if a.LoadWake? {
      var t := Timer(g, MarkOf(s, g));
      ArmedKept(s, k, a, t);
      CoveredIfArmed(s', t);
    } else {
      var t := Timer(g, s.threads[k].at);
      WheelAfter(s, k, a);
      ArmedInWheel(s', t);
      CoveredIfArmed(s', t);
    }
  }

  lemma ArmedInWheel(s: State, t: Timer)
    requires t in s.wheel
    ensures Armed(s, t)
  {
  }

  lemma CoveredKept(s: State, k: nat, a: Action, g: GroupId)
    requires Can(s, k, a) && Covered(s, g) && FlagCounts(s, g) && MarkArmed(s, g)
    requires !((a.Drain? || a.Drop?) && s.threads[k].g == g)
    ensures Covered(Do(s, k, a), g)
  {
    hide Do, Can, Then, FlagCounts, MarkArmed;
    var s', pc' := Do(s, k, a), Then(s, k, a);
    OneMoves(s, k, a);
    ChannelAfter(s, k, a, g);
    if On(pc', g) {
      Stays(s.threads, k, pc', Idle);
      CoveredBy(s', g, pc');
    } else if On(s.threads[k], g) {
      HandsOver(s, k, a, g);
    } else if pc: Pc :| pc in s.threads && On(pc, g) {
      Stays(s.threads, k, pc', pc);
      CoveredBy(s', g, pc);
    } else if t: Timer :| t in s.wheel && t.group == g {
      CoveredTimerKept(s, k, a, t);
    }
  }

  lemma CoveredTimerKept(s: State, k: nat, a: Action, t: Timer)
    requires Can(s, k, a) && t in s.wheel && !On(Then(s, k, a), t.group)
    ensures Covered(Do(s, k, a), t.group)
  {
    hide Do;
    WheelAfter(s, k, a);
    assert t in Do(s, k, a).wheel;
  }

  /** Who may be pending after a step without an excuse. */
  lemma PendingAfter(s: State, k: nat, a: Action, g: GroupId)
    requires Can(s, k, a) && g in Do(s, k, a).seen.pending && g !in Do(s, k, a).seen.excused
    ensures On(Then(s, k, a), g)
         || (g in s.seen.pending && g !in s.seen.excused
             && !((a.Drain? || a.Drop?) && s.threads[k].g == g))
  {
    hide MarkOf, Answered;
  }

  lemma LookedAfterAction(s: State, k: nat, a: Action, g: GroupId)
    requires Can(s, k, a) && LookedAfter(s, g) && FlagCounts(s, g) && MarkArmed(s, g)
    ensures LookedAfter(Do(s, k, a), g)
  {
    hide Do, Then, Can, Covered, FlagCounts, MarkArmed;
    var s' := Do(s, k, a);
    if g in s'.seen.pending && g !in s'.seen.excused {
      PendingAfter(s, k, a, g);
      if On(Then(s, k, a), g) {
        OneMoves(s, k, a);
        Stays(s.threads, k, Then(s, k, a), Idle);
        CoveredBy(s', g, Then(s, k, a));
      } else {
        CoveredKept(s, k, a, g);
      }
    }
  }

  // ---------------------------------------------------------------------------
  // Every run
  // ---------------------------------------------------------------------------

  ghost predicate Safe(s: State, g: GroupId) {
    FlagCounts(s, g) && MarkArmed(s, g) && Followed(s, g) && LookedAfter(s, g)
    && forall w <- s.seen.wanted | w.group == g :: Answerable(s, w)
  }

  lemma StepSafe(s: State, e: Step, g: GroupId)
    requires Enabled(s, e) && Safe(s, g)
    ensures Safe(Next(s, e), g)
  {
    hide FlagCounts, MarkArmed, Followed, LookedAfter, Answerable, Do, Can;
    match e
    case By(k, a) =>
      FlagAction(s, k, a, g);
      MarkAction(s, k, a, g);
      FollowedAction(s, k, a, g);
      LookedAfterAction(s, k, a, g);
      var s' := Do(s, k, a);
      forall w <- s'.seen.wanted | w.group == g ensures Answerable(s', w) {
        WantedAction(s, k, a, w);
      }
    case _ => OutsideSafe(s, e, g);
  }

  lemma OutsideSafe(s: State, e: Step, g: GroupId)
    requires !e.By? && Safe(s, g)
    ensures Safe(Next(s, e), g)
  {
    var s' := Next(s, e);
    forall w <- s'.seen.wanted | w.group == g ensures Answerable(s', w) {
      assert Answerable(s, w);
      var t: Timer :| Out(s, t) && t.group == w.group && t.at <= w.at;
      assert Out(s', t);
    }
  }

  function Start(threads: nat, capacity: nat): State {
    State(seq(threads, _ => Idle), {}, [], capacity, map[], multiset{}, History({}, {}, {}, {}, {}))
  }

  /** The state after the steps, if each could be taken. */
  function Run(s: State, steps: seq<Step>): Option<State>
    decreases |steps|
  {
    if steps == [] then Some(s)
    else if Enabled(s, steps[0]) then Run(Next(s, steps[0]), steps[1..])
    else None
  }

  lemma {:induction false} NoHolders(threads: seq<Pc>, g: GroupId)
    requires forall i | 0 <= i < |threads| :: threads[i] == Idle
    ensures Holders(threads, g) == 0
  {
    if threads != [] {
      NoHolders(threads[1..], g);
    }
  }

  lemma StartSafe(threads: nat, capacity: nat, g: GroupId)
    ensures Safe(Start(threads, capacity), g)
  {
    NoHolders(Start(threads, capacity).threads, g);
  }

  lemma {:induction false} RunSafe(s: State, steps: seq<Step>, g: GroupId)
    requires Safe(s, g) && Run(s, steps).Some?
    ensures Safe(Run(s, steps).value, g)
    decreases |steps|
  {
    hide Safe, Enabled, Next;
    if steps != [] {
      StepSafe(s, steps[0], g);
      RunSafe(Next(s, steps[0]), steps[1..], g);
    }
  }

  lemma StartRunSafe(threads: nat, capacity: nat, steps: seq<Step>, g: GroupId)
    requires Run(Start(threads, capacity), steps).Some?
    ensures Safe(Run(Start(threads, capacity), steps).value, g)
  {
    hide Safe, Run, Start;
    StartSafe(threads, capacity, g);
    RunSafe(Start(threads, capacity), steps, g);
  }

  /** No lost activation: in every interleaving a group's flag is the number of its
      outstanding activations, so it is never twice in the channel; and a group
      activated since its last drain, with no activation dropped or being dropped, is
      on its way to a worker or about to be drained. */
  lemma NoLostActivation(threads: nat, capacity: nat, steps: seq<Step>, g: GroupId)
    requires Run(Start(threads, capacity), steps).Some?
    ensures var s := Run(Start(threads, capacity), steps).value;
            && Outstanding(s, g) == (if g in s.flag then 1 else 0)
            && multiset(s.channel)[g] <= 1
            && (g in s.seen.requested && g !in s.seen.dropped && Dropping(g) !in s.threads ==>
                  Coming(s, g))
  {
    hide Run, Start, MarkArmed, LookedAfter, Answerable;
    StartRunSafe(threads, capacity, steps, g);
  }

  // Wake-ups, from the drain that reported them

  /** The wake-up a step asks for: a drain ended with this time. */
  function AskedBy(s: State, e: Step): set<Timer> {
    if e.By? && e.k < |s.threads| && e.action.Drain? && e.action.outcome.Wake? && s.threads[e.k].Draining?
    then {Timer(s.threads[e.k].g, e.action.outcome.at)} else {}
  }

  /** A timer's callback, due no later than w, activates the group. */
  predicate Answers(s: State, e: Step, w: Timer) {
    e.By? && e.k < |s.threads| && e.action.TrySchedule? && s.threads[e.k].Waking? &&
    s.threads[e.k].g == w.group && s.threads[e.k].at <= w.at
  }

  /** The wake-ups of ts and those drains asked for along the steps. */
  function AskedIn(s: State, ts: set<Timer>, steps: seq<Step>): set<Timer>
    decreases |steps|
  {
    if steps == [] || !Enabled(s, steps[0]) then ts
    else AskedIn(Next(s, steps[0]), ts + AskedBy(s, steps[0]), steps[1..])
  }

  /** The same without those that a timer has answered since. */
  function Unanswered(s: State, ts: set<Timer>, steps: seq<Step>): set<Timer>
    decreases |steps|
  {
    if steps == [] || !Enabled(s, steps[0]) then ts
    else
      var open := set w <- ts | !Answers(s, steps[0], w);
      Unanswered(Next(s, steps[0]), open + AskedBy(s, steps[0]), steps[1..])
  }

  /** A goroutine is on its way to arm the timer. */
  ghost predicate Heading(s: State, t: Timer) {
    Arming(t.group, t.at) in s.threads || exists x :: Swapping(t.group, t.at, x) in s.threads
  }

  /** Some timer for the group, due no later than w, is still to activate it, or a
      goroutine is about to arm one. */
  ghost predicate Pursued(s: State, w: Timer) {
    exists t: Timer :: (Out(s, t) || Heading(s, t)) && t.group == w.group && t.at <= w.at
  }

  lemma OutIsPursued(s: State, t: Timer, w: Timer)
    requires Out(s, t) && t.group == w.group && t.at <= w.at
    ensures Pursued(s, w)
  {
  }

  lemma HeadingIsPursued(s: State, t: Timer, w: Timer)
    requires Heading(s, t) && t.group == w.group && t.at <= w.at
    ensures Pursued(s, w)
  {
  }

  lemma HeadingBy(s: State, t: Timer, pc: Pc)
    requires pc in s.threads && (pc == Arming(t.group, t.at) || (pc.Swapping? && pc.g == t.group && pc.at == t.at))
    ensures Heading(s, t)
  {
    if pc.Swapping? {
      assert Swapping(t.group, t.at, pc.seen) in s.threads;
    }
  }

  /** The goroutine that is about to arm the timer moves on. */
  lemma HeadingMoves(s: State, k: nat, a: Action, t: Timer, w: Timer)
    requires Can(s, k, a) && MarkArmed(s, t.group) && t.group == w.group && t.at <= w.at
    requires s.threads[k] == Arming(t.group, t.at) || (s.threads[k].Swapping? && s.threads[k].g == t.group && s.threads[k].at == t.at)
    ensures Pursued(Do(s, k, a), w)
  {
    hide Do, Armed, Out, MarkOf, Heading, Pursued;
    var s', pc' := Do(s, k, a), Then(s, k, a);
    OneMoves(s, k, a);
    Stays(s.threads, k, pc', Idle);
    if pc' == Idle {
      var m := Timer(t.group, MarkOf(s, t.group));
      ArmedKept(s, k, a, m);
      OutIfArmed(s', m);
      OutIsPursued(s', m, w);
    } else if pc'.Adding? {
      ArmedByAdding(s', t.group, t.at);
      OutIfArmed(s', t);
      OutIsPursued(s', t, w);
    } else {
      HeadingBy(s', t, pc');
      HeadingIsPursued(s', t, w);
    }
  }

  lemma PursuedAction(s: State, k: nat, a: Action, w: Timer)
    requires Can(s, k, a) && Pursued(s, w) && MarkArmed(s, w.group) && !Answers(s, By(k, a), w)
    ensures Pursued(Do(s, k, a), w)
  {
    hide Do, Armed, Out, MarkOf;
    var s' := Do(s, k, a);
    var t: Timer :| (Out(s, t) || Heading(s, t)) && t.group == w.group && t.at <= w.at;
    if Out(s, t) {
      OutKept(s, k, a, t);
    } else {
      var pc :| pc in s.threads && (pc == Arming(t.group, t.at) || (pc.Swapping? && pc.g == t.group && pc.at == t.at));
      if pc == s.threads[k] {
        HeadingMoves(s, k, a, t, w);
      } else {
        OneMoves(s, k, a);
        Stays(s.threads, k, Then(s, k, a), pc);
        HeadingBy(s', t, pc);
      }
    }
  }

  /** A drain that ends with a wake-up time sets out to arm a timer for that time. */
  lemma AskedIsPursued(s: State, e: Step, w: Timer)
    requires Enabled(s, e) && w in AskedBy(s, e)
    ensures Pursued(Next(s, e), w)
  {
    hide Do;
    OneMoves(s, e.k, e.action);
    Stays(s.threads, e.k, Then(s, e.k, e.action), Idle);
    assert Heading(Next(s, e), w);
  }

  lemma StepPursues(s: State, e: Step, w: Timer)
    requires Enabled(s, e) && MarkArmed(s, w.group)
    requires (Pursued(s, w) && !Answers(s, e, w)) || w in AskedBy(s, e)
    ensures Pursued(Next(s, e), w)
  {
    hide Do, Can, MarkArmed;
    if w in AskedBy(s, e) {
      AskedIsPursued(s, e, w);
    } else if e.By? {
      PursuedAction(s, e.k, e.action, w);
    } else {
      var t: Timer :| (Out(s, t) || Heading(s, t)) && t.group == w.group && t.at <= w.at;
      assert Out(Next(s, e), t) || Heading(Next(s, e), t);
    }
  }

  lemma {:induction false} RunPursues(s: State, ts: set<Timer>, steps: seq<Step>, w: Timer)
    requires Run(s, steps).Some? && w in Unanswered(s, ts, steps) && Safe(s, w.group)
    requires w in ts ==> Pursued(s, w)
    ensures Pursued(Run(s, steps).value, w)
    decreases |steps|
  {
    hide Safe, Enabled, Next, Pursued, Answers, AskedBy;
    if steps != [] {
      var e := steps[0];
      var open := (set x <- ts | !Answers(s, e, x)) + AskedBy(s, e);
      SafeMark(s, w.group);
      StepSafe(s, e, w.group);
      if w in open {
        StepPursues(s, e, w);
      }
      RunPursues(Next(s, e), open, steps[1..], w);
    }
  }

  lemma SafeMark(s: State, g: GroupId)
    requires Safe(s, g)
    ensures MarkArmed(s, g)
  {
  }

  /** The goroutine is concerned with a timer. */
  predicate Timing(pc: Pc) {
    pc.Arming? || pc.Swapping? || pc.Adding? || pc.Firing? || pc.Waking?
  }

  /** Every timer there is, on its way or marked is one of these. */
  ghost predicate TimersAmong(s: State, ts: set<Timer>) {
    && (forall t <- s.wheel :: t in ts)
    && (forall pc <- s.threads | Timing(pc) :: Timer(pc.g, pc.at) in ts)
    && (forall g :: MarkOf(s, g) != 0 ==> Timer(g, MarkOf(s, g)) in ts)
  }

  lemma ThenAmong(s: State, k: nat, a: Action, ts: set<Timer>)
    requires Can(s, k, a) && TimersAmong(s, ts) && Timing(Then(s, k, a))
    ensures Timer(Then(s, k, a).g, Then(s, k, a).at) in ts + AskedBy(s, By(k, a))
  {
    hide MarkOf, Do;
    assert s.threads[k] in s.threads;
  }

  lemma ActionAmong(s: State, k: nat, a: Action, ts: set<Timer>)
    requires Can(s, k, a) && TimersAmong(s, ts)
    ensures TimersAmong(Do(s, k, a), ts + AskedBy(s, By(k, a)))
  {
    hide Do, AskedBy, Then, MarkOf;
    var s', more := Do(s, k, a), ts + AskedBy(s, By(k, a));
    OneMoves(s, k, a);
    WheelAfter(s, k, a);
    assert s.threads[k] in s.threads;
    forall pc <- s'.threads | Timing(pc) ensures Timer(pc.g, pc.at) in more {
      var i :| 0 <= i < |s'.threads| && s'.threads[i] == pc;
      if i == k {
        ThenAmong(s, k, a, ts);
      } else {
        assert s.threads[i] == pc;
      }
    }
    forall g ensures MarkOf(s', g) != 0 ==> Timer(g, MarkOf(s', g)) in more {
      MarkAfter(s, k, a, g);
    }
  }

  lemma {:induction false} RunAmong(s: State, ts: set<Timer>, steps: seq<Step>)
    requires Run(s, steps).Some? && TimersAmong(s, ts)
    ensures TimersAmong(Run(s, steps).value, AskedIn(s, ts, steps))
    decreases |steps|
  {
    hide Do, Can, TimersAmong, AskedBy;
    if steps != [] {
      var e := steps[0];
      if e.By? {
        ActionAmong(s, e.k, e.action, ts);
      } else {
        OutsideAmong(s, e, ts);
      }
      RunAmong(Next(s, e), ts + AskedBy(s, e), steps[1..]);
    }
  }

  lemma OutsideAmong(s: State, e: Step, ts: set<Timer>)
    requires !e.By? && TimersAmong(s, ts)
    ensures TimersAmong(Next(s, e), ts + AskedBy(s, e))
  {
    var s' := Next(s, e);
    assert forall g :: MarkOf(s', g) == MarkOf(s, g);
  }

  /** No lost wake-up: for every time a drain of the run reported, until a timer due no
      later has activated the group, such a timer is still to activate it or a goroutine
      is about to arm one; no timer is set, marked or under way for a time that no drain
      reported; a nonzero mark has a timer for exactly that time; and every wake-up that
      scheduleWake has returned with has its timer. */
  lemma NoLostWakeUp(threads: nat, capacity: nat, steps: seq<Step>, w: Timer)
    requires Run(Start(threads, capacity), steps).Some?
    ensures var s := Run(Start(threads, capacity), steps).value;
            && (w in Unanswered(Start(threads, capacity), {}, steps) ==> Pursued(s, w))
            && TimersAmong(s, AskedIn(Start(threads, capacity), {}, steps))
            && (MarkOf(s, w.group) != 0 ==> Armed(s, Timer(w.group, MarkOf(s, w.group))))
            && (w in s.seen.wanted ==> Answerable(s, w))
  {
    var start := Start(threads, capacity);
    assert TimersAmong(start, {});
    hide Run, Start, FlagCounts, Followed, LookedAfter, Answerable, Pursued, Unanswered, TimersAmong, AskedIn;
    StartSafe(threads, capacity, w.group);
    StartRunSafe(threads, capacity, steps, w.group);
    RunAmong(start, {}, steps);
    if w in Unanswered(start, {}, steps) {
      RunPursues(start, {}, steps, w);
    }
  }

  /** Pending work is never forgotten: a group with pending messages is in the
      channel, has a timer, or is being worked on, unless since it was last activated
      a dispatch was refused, its activation was dropped, it was left at its
      parallelism, or a message came without an activation. */
  lemma PendingIsLookedAfter(threads: nat, capacity: nat, steps: seq<Step>, g: GroupId)
    requires Run(Start(threads, capacity), steps).Some?
    ensures var s := Run(Start(threads, capacity), steps).value;
            g in s.seen.pending && g !in s.seen.excused ==> Covered(s, g)
  {
    hide Run, Start, FlagCounts, Followed, Covered, Answerable;
    StartRunSafe(threads, capacity, steps, g);
  }

  // ---------------------------------------------------------------------------
  // When an activation is dropped
  // ---------------------------------------------------------------------------

  /** Everything the scheduler holds belongs to these groups. */
  ghost predicate AllIn(s: State, groups: set<GroupId>) {
    && (forall g <- s.channel :: g in groups)
    && (forall pc <- s.threads :: !pc.Idle? ==> pc.g in groups)
    && (forall t <- s.wheel :: t.group in groups)
  }

  predicate UsesOnly(a: Action, groups: set<GroupId>) {
    a.Call? ==> a.g in groups
  }

  lemma {:induction false} DistinctFit(xs: seq<GroupId>, groups: set<GroupId>)
    requires forall x <- xs :: x in groups
    requires forall x :: multiset(xs)[x] <= 1
    ensures |xs| <= |groups|
  {
    if xs != [] {
      var x, rest := xs[0], xs[1..];
      assert xs == [x] + rest;
      assert multiset(xs) == multiset{x} + multiset(rest);
      assert multiset(xs)[x] <= 1;
      assert x !in multiset(rest);
      forall y ensures multiset(rest)[y] <= 1 {
        assert multiset(xs)[y] <= 1;
      }
      DistinctFit(rest, groups - {x});
    }
  }

  ghost predicate AllFlagsCount(s: State) {
    forall g :: FlagCounts(s, g)
  }

  /** With no more groups than the channel has slots, a send always finds room. */
  lemma RoomToSend(s: State, k: nat, groups: set<GroupId>)
    requires AllFlagsCount(s) && AllIn(s, groups) && Can(s, k, Send) && |groups| <= s.capacity
    ensures Then(s, k, Send) == Idle
  {
    var g := s.threads[k].g;
    assert FlagCounts(s, g);
    HolderFlagged(s, k, g);
    forall x ensures multiset(s.channel)[x] <= 1 {
      assert FlagCounts(s, x);
    }
    assert s.threads[k] in s.threads;
    DistinctFit(s.channel, groups - {g});
  }

  lemma ChannelFrom(s: State, k: nat, a: Action, g: GroupId)
    requires Can(s, k, a) && g in Do(s, k, a).channel
    ensures g in s.channel || s.threads[k] == Sending(g)
  {
    hide MarkOf, Drained, Answered, After;
  }

  lemma ThenFrom(s: State, k: nat, a: Action, groups: set<GroupId>)
    requires Can(s, k, a) && AllIn(s, groups) && UsesOnly(a, groups)
    ensures !Then(s, k, a).Idle? ==> Then(s, k, a).g in groups
  {
    hide MarkOf, Do;
    assert s.threads[k] in s.threads;
  }

  lemma ActionAllIn(s: State, k: nat, a: Action, groups: set<GroupId>)
    requires Can(s, k, a) && AllIn(s, groups) && UsesOnly(a, groups)
    ensures AllIn(Do(s, k, a), groups)
  {
    hide Do, Then, UsesOnly;
    var s', pc' := Do(s, k, a), Then(s, k, a);
    OneMoves(s, k, a);
    ThenFrom(s, k, a, groups);
    assert s.threads[k] in s.threads;
    forall g <- s'.channel ensures g in groups {
      ChannelFrom(s, k, a, g);
    }
    forall pc <- s'.threads ensures !pc.Idle? ==> pc.g in groups {
      var i :| 0 <= i < |s'.threads| && s'.threads[i] == pc;
      assert i != k ==> s.threads[i] == pc;
    }
    WheelAfter(s, k, a);
  }

  /** Nobody is dropping an activation. */
  ghost predicate NobodyDrops(s: State) {
    forall pc <- s.threads :: !pc.Dropping?
  }

  lemma ActionDropsNothing(s: State, k: nat, a: Action, groups: set<GroupId>)
    requires Can(s, k, a) && AllFlagsCount(s) && AllIn(s, groups) && |groups| <= s.capacity && NobodyDrops(s)
    ensures NobodyDrops(Do(s, k, a))
  {
    hide Do, AllFlagsCount;
    OneMoves(s, k, a);
    if a.Send? {
      RoomToSend(s, k, groups);
    }
    ThenDrops(s, k, a);
    var s' := Do(s, k, a);
    forall pc <- s'.threads ensures !pc.Dropping? {
      var i :| 0 <= i < |s'.threads| && s'.threads[i] == pc;
      assert i != k ==> s.threads[i] == pc;
    }
  }

  lemma ThenDrops(s: State, k: nat, a: Action)
    requires Can(s, k, a)
    ensures Then(s, k, a).Dropping? ==> a.Send?
  {
    hide MarkOf;
  }

  ghost predicate RunUsesOnly(steps: seq<Step>, groups: set<GroupId>) {
    forall e <- steps | e.By? :: UsesOnly(e.action, groups)
  }

  /** What a run within few groups keeps. */
  ghost predicate Uncrowded(s: State, groups: set<GroupId>) {
    AllFlagsCount(s) && AllIn(s, groups) && NobodyDrops(s) && |groups| <= s.capacity
  }

  lemma StepUncrowded(s: State, e: Step, groups: set<GroupId>)
    requires Uncrowded(s, groups) && Enabled(s, e) && (e.By? ==> UsesOnly(e.action, groups))
    ensures Uncrowded(Next(s, e), groups)
  {
    hide Do, Can, FlagCounts, AllIn, NobodyDrops, UsesOnly;
    match e
    case By(k, a) =>
      OneMoves(s, k, a);
      ActionAllIn(s, k, a, groups);
      ActionDropsNothing(s, k, a, groups);
      forall g ensures FlagCounts(Do(s, k, a), g) {
        FlagAction(s, k, a, g);
      }
    case _ => OutsideUncrowded(s, e, groups);
  }

  lemma OutsideUncrowded(s: State, e: Step, groups: set<GroupId>)
    requires Uncrowded(s, groups) && !e.By?
    ensures Uncrowded(Next(s, e), groups)
  {
    hide Holders;
    forall g ensures FlagCounts(Next(s, e), g) {
      assert FlagCounts(s, g);
    }
  }

  lemma {:induction false} RunUncrowded(s: State, steps: seq<Step>, groups: set<GroupId>)
    requires Uncrowded(s, groups) && Run(s, steps).Some? && RunUsesOnly(steps, groups)
    ensures Uncrowded(Run(s, steps).value, groups)
    decreases |steps|
  {
    hide Uncrowded, Enabled, Next, UsesOnly;
    if steps != [] {
      assert steps[0] in steps;
      StepUncrowded(s, steps[0], groups);
      RunUncrowded(Next(s, steps[0]), steps[1..], groups);
    }
  }

  lemma StartUncrowded(threads: nat, capacity: nat, groups: set<GroupId>)
    requires |groups| <= capacity
    ensures Uncrowded(Start(threads, capacity), groups)
  {
    forall g ensures FlagCounts(Start(threads, capacity), g) {
      NoHolders(Start(threads, capacity).threads, g);
    }
  }

  /** With no more groups than the channel has slots, no interleaving ever drops an
      activation: the safety valve is never used. */
  lemma NoDropWithFewGroups(threads: nat, capacity: nat, steps: seq<Step>, groups: set<GroupId>)
    requires Run(Start(threads, capacity), steps).Some? && RunUsesOnly(steps, groups) && |groups| <= capacity
    ensures NobodyDrops(Run(Start(threads, capacity), steps).value)
  {
    hide Run, Start, RunUsesOnly, AllIn, NobodyDrops, AllFlagsCount;
    StartUncrowded(threads, capacity, groups);
    RunUncrowded(Start(threads, capacity), steps, groups);
  }

  // ---------------------------------------------------------------------------
  // One group too many
  // ---------------------------------------------------------------------------

  lemma RunCons(s: State, e: Step, rest: seq<Step>)
    requires Enabled(s, e)
    ensures Run(s, [e] + rest) == Run(Next(s, e), rest)
  {
    assert ([e] + rest)[1..] == rest;
  }

  /** A call of Activate with a new message, up to the send. */
  function Activation(g: GroupId, rest: seq<Step>): seq<Step> {
    [By(0, Call(g, true))] + ([By(0, TrySchedule)] + ([By(0, Send)] + rest))
  }

  lemma Activates(s: State, g: GroupId, rest: seq<Step>)
    requires s.threads == [Idle] && g !in s.flag
    ensures Run(s, Activation(g, rest)) == Run(Do(Sought(s, g), 0, Send), rest)
  {
    var s1 := Next(s, By(0, Call(g, true)));
    RunCons(s, By(0, Call(g, true)), [By(0, TrySchedule)] + ([By(0, Send)] + rest));
    assert s1.threads == [Activating(g)];
    RunCons(s1, By(0, TrySchedule), [By(0, Send)] + rest);
    RunCons(Sought(s, g), By(0, Send), rest);
  }

  /** The one goroutine holds the flag of a group with a new message. */
  function Sought(s: State, g: GroupId): (r: State)
    requires s.threads == [Idle] && g !in s.flag
    ensures r.threads == [Sending(g)]
  {
    var h := s.seen;
    s.(threads := s.threads[0 := Activating(g)][0 := Sending(g)], flag := s.flag + {g},
       seen := h.(pending := h.pending + {g}, excused := h.excused - {g}, requested := h.requested + {g}))
  }

  /** One goroutine dropping the activation of a group that has no timer. */
  lemma DropLoses(s: State, g: GroupId)
    requires s.threads == [Dropping(g)] && g !in s.channel && s.wheel == multiset{}
    requires g in s.seen.pending && g in s.seen.requested
    ensures var r := Run(s, [By(0, Drop)]);
            && r.Some?
            && g in r.value.seen.pending && g in r.value.seen.requested
            && !Coming(r.value, g) && !Covered(r.value, g)
  {
    var s' := Next(s, By(0, Drop));
    RunCons(s, By(0, Drop), []);
    assert [By(0, Drop)] + [] == [By(0, Drop)];
    assert Run(s', []) == Some(s');
    assert s'.threads == [Idle];
  }

  predicate Distinct(gs: seq<GroupId>) {
    forall i, j | 0 <= i < j < |gs| :: gs[i] != gs[j]
  }

  /** Activating the groups from the i-th on, one after the other, and then `last`. */
  function Crowd(gs: seq<GroupId>, i: nat, last: seq<Step>): seq<Step>
    requires i < |gs|
    decreases |gs| - i
  {
    Activation(gs[i], if i == |gs| - 1 then last else Crowd(gs, i + 1, last))
  }

  /** The first i groups are in the channel and nothing else is going on. */
  ghost predicate Filled(s: State, gs: seq<GroupId>, i: nat)
    requires i <= |gs|
  {
    s.threads == [Idle] && s.channel == gs[..i] && s.wheel == multiset{}
    && (forall g <- s.flag :: g in gs[..i])
  }

  lemma FillsOneMore(s: State, gs: seq<GroupId>, i: nat)
    requires Distinct(gs) && i < |gs| && Filled(s, gs, i) && |s.channel| < s.capacity
    ensures gs[i] !in s.flag && Filled(Do(Sought(s, gs[i]), 0, Send), gs, i + 1)
    ensures Do(Sought(s, gs[i]), 0, Send).capacity == s.capacity
  {
    assert gs[..i + 1] == gs[..i] + [gs[i]];
    NotBefore(gs, i);
  }

  lemma NotBefore(gs: seq<GroupId>, i: nat)
    requires Distinct(gs) && i < |gs|
    ensures gs[i] !in gs[..i]
  {
  }

  /** The one goroutine found the channel full. */
  ghost predicate AboutToDrop(s: State, g: GroupId) {
    s.threads == [Dropping(g)] && g !in s.channel && s.wheel == multiset{}
    && g in s.seen.pending && g in s.seen.requested
  }

  lemma OverflowDrops(s: State, gs: seq<GroupId>)
    requires Distinct(gs) && gs != [] && Filled(s, gs, |gs| - 1) && s.capacity == |gs| - 1
    ensures var g := gs[|gs| - 1]; g !in s.flag && AboutToDrop(Do(Sought(s, g), 0, Send), g)
  {
    NotBefore(gs, |gs| - 1);
  }

  lemma {:induction false} CrowdOverflows(s: State, gs: seq<GroupId>, i: nat, last: seq<Step>) returns (t: State)
    requires Distinct(gs) && i < |gs| && Filled(s, gs, i) && s.capacity == |gs| - 1
    ensures Run(s, Crowd(gs, i, last)) == Run(t, last) && AboutToDrop(t, gs[|gs| - 1])
    decreases |gs| - i
  {
    hide Run, Do, Filled, Activation, AboutToDrop;
    FilledIdle(s, gs, i);
    if i == |gs| - 1 {
      OverflowDrops(s, gs);
      Activates(s, gs[i], last);
      t := Do(Sought(s, gs[i]), 0, Send);
    } else {
      FillsOneMore(s, gs, i);
      Activates(s, gs[i], Crowd(gs, i + 1, last));
      t := CrowdOverflows(Do(Sought(s, gs[i]), 0, Send), gs, i + 1, last);
    }
  }

  lemma FilledIdle(s: State, gs: seq<GroupId>, i: nat)
    requires i <= |gs| && Filled(s, gs, i)
    ensures s.threads == [Idle] && |s.channel| == i
  {
  }

  lemma StartFilled(capacity: nat, gs: seq<GroupId>)
    ensures Filled(Start(1, capacity), gs, 0) && Start(1, capacity).capacity == capacity
  {
    assert Start(1, capacity).threads == [Idle] && gs[..0] == [];
  }

  /** Whatever the channel's capacity, one group more than it has slots is too many: a
      run of single activations drops the last one, whose message stays pending with
      nobody to look at it. */
  lemma FullChannelLosesAnActivation(capacity: nat, gs: seq<GroupId>)
    requires Distinct(gs) && |gs| == capacity + 1
    ensures var r := Run(Start(1, capacity), Crowd(gs, 0, [By(0, Drop)]));
            var g := gs[capacity];
            && r.Some?
            && g in r.value.seen.pending && g in r.value.seen.requested
            && !Coming(r.value, g) && !Covered(r.value, g)
  {
    hide Run, Coming, Covered, Crowd, Start, Filled;
    StartFilled(capacity, gs);
    var t := CrowdOverflows(Start(1, capacity), gs, 0, [By(0, Drop)]);
    DropLoses(t, gs[capacity]);
  }

  lemma {:induction false} CrowdUses(gs: seq<GroupId>, i: nat, groups: set<GroupId>)
    requires i < |gs| && forall g <- gs :: g in groups
    ensures RunUsesOnly(Crowd(gs, i, []), groups)
    decreases |gs| - i
  {
    if i < |gs| - 1 {
      CrowdUses(gs, i + 1, groups);
    }
    ActivationUses(gs[i], if i == |gs| - 1 then [] else Crowd(gs, i + 1, []), groups);
  }

  lemma ActivationUses(g: GroupId, rest: seq<Step>, groups: set<GroupId>)
    requires g in groups && RunUsesOnly(rest, groups)
    ensures RunUsesOnly(Activation(g, rest), groups)
  {
    forall e <- Activation(g, rest) | e.By? ensures UsesOnly(e.action, groups) {
      if e in rest {
        assert UsesOnly(e.action, groups);
      }
    }
  }

  /** Some n of a set's groups, in some order. */
  lemma {:induction false} Listed(groups: set<GroupId>, n: nat) returns (gs: seq<GroupId>)
    requires n <= |groups|
    ensures |gs| == n && Distinct(gs) && forall g <- gs :: g in groups
    decreases n
  {
    if n == 0 {
      gs := [];
    } else {
      var g :| g in groups;
      var rest := Listed(groups - {g}, n - 1);
      gs := rest + [g];
    }
  }

  ghost predicate NeverDrops(capacity: nat, groups: set<GroupId>) {
    forall threads: nat, steps: seq<Step> ::
      Run(Start(threads, capacity), steps).Some? && RunUsesOnly(steps, groups) ==>
        NobodyDrops(Run(Start(threads, capacity), steps).value)
  }

  /** The safety valve is never used, by any number of goroutines in any interleaving,
      if and only if there are no more groups than the channel has slots. */
  lemma NeverDropsIff(capacity: nat, groups: set<GroupId>)
    ensures NeverDrops(capacity, groups) <==> |groups| <= capacity
  {
    hide Run, Start, RunUsesOnly, NobodyDrops, Crowd, Filled, Distinct;
    if |groups| <= capacity {
      forall threads: nat, steps: seq<Step>
        | Run(Start(threads, capacity), steps).Some? && RunUsesOnly(steps, groups)
        ensures NobodyDrops(Run(Start(threads, capacity), steps).value)
      {
        NoDropWithFewGroups(threads, capacity, steps, groups);
      }
    } else {
      var gs := Listed(groups, capacity + 1);
      StartFilled(capacity, gs);
      var t := CrowdOverflows(Start(1, capacity), gs, 0, []);
      CrowdUses(gs, 0, groups);
      DroppingState(t, gs[capacity]);
      assert !NobodyDrops(Run(Start(1, capacity), Crowd(gs, 0, [])).value);
    }
  }

  lemma DroppingState(t: State, g: GroupId)
    requires AboutToDrop(t, g)
    ensures Run(t, []) == Some(t) && !NobodyDrops(t)
  {
    assert t.threads[0] in t.threads;
  }
}
