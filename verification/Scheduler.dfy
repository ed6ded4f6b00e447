/** The scheduler as a machine of atomic steps.  Any number of goroutines call
    Activate, work off the channel and run timer callbacks; each atomic access to a
    group's flag, its wake mark, the channel or the wheel is a step of its own, so the
    steps of different goroutines interleave freely. */
module Scheduler {
  import opened Bytes

  type GroupId = nat

  datatype Timer = Timer(group: GroupId, at: int)

  /** Where a goroutine is. */
  datatype Pc =
    | Idle
    | Activating(g: GroupId)                   // about to try the flag
    | Sending(g: GroupId)                      // flag taken, about to send
    | Dropping(g: GroupId)                     // channel was full, about to reset the flag
    | Received(g: GroupId)                     // took an activation, about to reset the flag
    | Draining(g: GroupId)                     // flag reset, about to drain
    | Arming(g: GroupId, at: int)              // scheduleWake, about to load the mark
    | Swapping(g: GroupId, at: int, seen: int) // about to swap the mark it saw
    | Adding(g: GroupId, at: int)              // mark set, about to add the timer
    | Firing(g: GroupId, at: int)              // callback begun, about to clear the mark
    | Waking(g: GroupId, at: int)              // callback about to try the flag

  datatype State = State(
    threads: seq<Pc>,
    flag: set<GroupId>,          // groups whose isScheduled is 1
    channel: seq<GroupId>,
    capacity: nat,
    mark: map<GroupId, int>,     // wakeScheduledAt; zero or absent is none
    wheel: multiset<Timer>,
    seen: History
  )

  /** What has happened, kept to state properties with. */
  datatype History = History(
    requested: set<GroupId>,     // activated since the last drain of the group
    dropped: set<GroupId>,       // activation dropped since the last drain
    wanted: set<Timer>,          // wake-ups asked for and not yet answered by a timer
    pending: set<GroupId>,       // groups with pending messages
    excused: set<GroupId>        // groups nobody is obliged to look at
  )

  function MarkOf(s: State, g: GroupId): int {
    if g in s.mark then s.mark[g] else 0
  }

  /** What a drain and the dispatch of its batch ended with. */
  datatype Outcome =
    | Refused                    // a dispatch was refused, messages went back
    | Wake(at: int)              // hasWake
    | More                       // stillPending
    | Saturated                  // neither, with messages left
    | Nothing                    // neither, and nothing left

  /** What a goroutine does in one step. */
  datatype Action =
    | Call(g: GroupId, arrives: bool)          // an operation, then Activate
    | TrySchedule
    | Send
    | Drop
    | Receive
    | Unschedule
    | Drain(outcome: Outcome, left: bool)      // left: messages stay pending
    | LoadWake
    | TrySetWake
    | AddTimer
    | Fire(timer: Timer)
    | ClearWake

  datatype Step =
    | By(k: nat, action: Action)
    | Arrive(g: GroupId)                       // a message becomes pending without Activate
    | Empty(g: GroupId)                        // the last pending message goes elsewhere

  function Go(s: State, k: nat, pc: Pc): State
    requires k < |s.threads|
  {
    s.(threads := s.threads[k := pc])
  }

  predicate Can(s: State, k: nat, a: Action) {
    k < |s.threads| &&
    var pc := s.threads[k];
    match a
    case Call(_, _) => pc.Idle?
    case TrySchedule => pc.Activating? || pc.Waking?
    case Send => pc.Sending?
    case Drop => pc.Dropping?
    case Receive => pc.Idle? && s.channel != []
    case Unschedule => pc.Received?
    case Drain(outcome, left) => pc.Draining? && (outcome.Nothing? ==> !left)
    case LoadWake => pc.Arming?
    case TrySetWake => pc.Swapping?
    case AddTimer => pc.Adding?
    case Fire(t) => pc.Idle? && t in s.wheel
    case ClearWake => pc.Firing?
  }

  predicate Enabled(s: State, e: Step) {
    e.By? ==> Can(s, e.k, e.action)
  }

  /** The wake-ups a timer answers when its callback activates the group. */
  function Answered(wanted: set<Timer>, t: Timer): set<Timer> {
    set w <- wanted | w.group == t.group && t.at <= w.at
  }

  predicate At(s: State, k: nat, pc: Pc) {
    k < |s.threads| && s.threads[k] == pc
  }

  /** The compare-and-swap of isScheduled in Activate, by goroutine k for group g. */
  function Try(s: State, k: nat, g: GroupId): State
    requires k < |s.threads|
  {
    var s' := s.(seen := s.seen.(requested := s.seen.requested + {g}));
    if g in s.flag then Go(s', k, Idle) else Go(s', k, Sending(g)).(flag := s.flag + {g})
  }

  /** The same at the end of a timer's callback, which answers its wake-ups. */
  function Wakes(s: State, k: nat, g: GroupId, at: int): State
    requires k < |s.threads|
  {
    var left := s.seen.wanted - Answered(s.seen.wanted, Timer(g, at));
    Try(s.(seen := s.seen.(wanted := left)), k, g)
  }

  function Sends(s: State, k: nat, g: GroupId): State
    requires k < |s.threads|
  {
    if |s.channel| < s.capacity then Go(s, k, Idle).(channel := s.channel + [g])
    else Go(s, k, Dropping(g))
  }

  function Drops(s: State, k: nat, g: GroupId): State
    requires k < |s.threads|
  {
    var h := s.seen;
    Go(s, k, Idle).(flag := s.flag - {g}, seen := h.(dropped := h.dropped + {g}, excused := h.excused + {g}))
  }

  function Receives(s: State, k: nat): State
    requires k < |s.threads| && s.channel != []
  {
    Go(s, k, Received(s.channel[0])).(channel := s.channel[1..])
  }

  function Unschedules(s: State, k: nat, g: GroupId): State
    requires k < |s.threads|
  {
    Go(s, k, Draining(g)).(flag := s.flag - {g})
  }

  /** After the drain: scheduleWake, Activate or nothing. */
  function After(g: GroupId, o: Outcome): Pc {
    match o
    case Wake(at) => Arming(g, at)
    case More => Activating(g)
    case _ => Idle
  }

  function Drained(h: History, g: GroupId, o: Outcome, left: bool): History {
    h.(requested := h.requested - {g}, dropped := h.dropped - {g},
       pending := if left then h.pending + {g} else h.pending - {g},
       excused := if o.Refused? || o.Saturated? then h.excused + {g} else h.excused - {g})
  }

  function Drains(s: State, k: nat, g: GroupId, o: Outcome, left: bool): State
    requires k < |s.threads|
  {
    Go(s, k, After(g, o)).(seen := Drained(s.seen, g, o, left))
  }

  function LoadsWake(s: State, k: nat, g: GroupId, at: int): State
    requires k < |s.threads|
  {
    var curr := MarkOf(s, g);
    if curr != 0 && curr <= at then
      Go(s, k, Idle).(seen := s.seen.(wanted := s.seen.wanted + {Timer(g, at)}))
    else Go(s, k, Swapping(g, at, curr))
  }

  function SetsWake(s: State, k: nat, g: GroupId, at: int, curr: int): State
    requires k < |s.threads|
  {
    if MarkOf(s, g) == curr then Go(s, k, Adding(g, at)).(mark := s.mark[g := at])
    else Go(s, k, Arming(g, at))
  }

  function AddsTimer(s: State, k: nat, t: Timer): State
    requires k < |s.threads|
  {
    Go(s, k, Idle).(wheel := s.wheel + multiset{t}, seen := s.seen.(wanted := s.seen.wanted + {t}))
  }

  function Fires(s: State, k: nat, t: Timer): State
    requires k < |s.threads|
  {
    Go(s, k, Firing(t.group, t.at)).(wheel := s.wheel - multiset{t})
  }

  function ClearsWake(s: State, k: nat, g: GroupId, at: int): State
    requires k < |s.threads|
  {
    Go(s, k, Waking(g, at)).(mark := if MarkOf(s, g) == at then s.mark[g := 0] else s.mark)
  }

  function Calls(s: State, k: nat, g: GroupId, arrives: bool): State
    requires k < |s.threads|
  {
    var h := s.seen;
    var pending := if arrives then h.pending + {g} else h.pending;
    Go(s, k, Activating(g)).(seen := h.(pending := pending, excused := h.excused - {g}))
  }

  function Do(s: State, k: nat, a: Action): State
    requires Can(s, k, a)
  {
    var pc := s.threads[k];
    match a
    case Call(g, arrives) => Calls(s, k, g, arrives)
    case TrySchedule => if pc.Waking? then Wakes(s, k, pc.g, pc.at) else Try(s, k, pc.g)
    case Send => Sends(s, k, pc.g)
    case Drop => Drops(s, k, pc.g)
    case Receive => Receives(s, k)
    case Unschedule => Unschedules(s, k, pc.g)
    case Drain(outcome, left) => Drains(s, k, pc.g, outcome, left)
    case LoadWake => LoadsWake(s, k, pc.g, pc.at)
    case TrySetWake => SetsWake(s, k, pc.g, pc.at, pc.seen)
    case AddTimer => AddsTimer(s, k, Timer(pc.g, pc.at))
    case Fire(t) => Fires(s, k, t)
    case ClearWake => ClearsWake(s, k, pc.g, pc.at)
  }

  /** Where the action leaves the goroutine. */
  function Then(s: State, k: nat, a: Action): Pc
    requires Can(s, k, a)
  {
    var pc := s.threads[k];
    match a
    case Call(g, _) => Activating(g)
    case TrySchedule => if pc.g in s.flag then Idle else Sending(pc.g)
    case Send => if |s.channel| < s.capacity then Idle else Dropping(pc.g)
    case Drop => Idle
    case Receive => Received(s.channel[0])
    case Unschedule => Draining(pc.g)
    case Drain(outcome, _) => After(pc.g, outcome)
    case LoadWake =>
      var curr := MarkOf(s, pc.g);
      if curr != 0 && curr <= pc.at then Idle else Swapping(pc.g, pc.at, curr)
    case TrySetWake => if MarkOf(s, pc.g) == pc.seen then Adding(pc.g, pc.at) else Arming(pc.g, pc.at)
    case AddTimer => Idle
    case Fire(t) => Firing(t.group, t.at)
    case ClearWake => Waking(pc.g, pc.at)
  }

  /** One goroutine moves; the others stay where they are. */
  lemma OneMoves(s: State, k: nat, a: Action)
    requires Can(s, k, a)
    ensures k < |s.threads| && Do(s, k, a).threads == s.threads[k := Then(s, k, a)]
    ensures Do(s, k, a).capacity == s.capacity
  {
    hide MarkOf, Drained, Answered, After;
  }

  function Next(s: State, e: Step): State
    requires Enabled(s, e)
  {
    var h := s.seen;
    match e
    case By(k, a) => Do(s, k, a)
    case Arrive(g) => s.(seen := h.(pending := h.pending + {g}, excused := h.excused + {g}))
    case Empty(g) => s.(seen := h.(pending := h.pending - {g}))
  }

  // ---------------------------------------------------------------------------
  // The flag counts outstanding activations
  // ---------------------------------------------------------------------------

  /** The goroutine holds the group's activation outside the channel. */
  predicate Holds(pc: Pc, g: GroupId) {
    pc == Sending(g) || pc == Dropping(g) || pc == Received(g)
  }

  function Holders(threads: seq<Pc>, g: GroupId): nat {
    if threads == [] then 0
    else Holders(threads[1..], g) + if Holds(threads[0], g) then 1 else 0
  }

  function Outstanding(s: State, g: GroupId): nat {
    multiset(s.channel)[g] + Holders(s.threads, g)
  }

  predicate FlagCounts(s: State, g: GroupId) {
    Outstanding(s, g) == if g in s.flag then 1 else 0
  }

  lemma {:induction false} HoldersMove(threads: seq<Pc>, k: nat, pc: Pc, g: GroupId)
    requires k < |threads|
    ensures Holders(threads[k := pc], g) + (if Holds(threads[k], g) then 1 else 0)
         == Holders(threads, g) + if Holds(pc, g) then 1 else 0
  {
    if k == 0 {
      assert threads[k := pc][1..] == threads[1..];
    } else {
      HoldersMove(threads[1..], k - 1, pc, g);
      assert threads[k := pc][1..] == threads[1..][k - 1 := pc];
    }
  }

  lemma {:induction false} HolderExists(threads: seq<Pc>, g: GroupId)
    ensures Holders(threads, g) > 0 <==> Sending(g) in threads || Dropping(g) in threads || Received(g) in threads
  {
    if threads != [] {
      HolderExists(threads[1..], g);
      assert threads == [threads[0]] + threads[1..];
    }
  }

  /** Whoever holds an activation of a group finds its flag set. */
  lemma HolderFlagged(s: State, k: nat, g: GroupId)
    requires k < |s.threads| && FlagCounts(s, g) && Holds(s.threads[k], g)
    ensures g in s.flag && Holders(s.threads, g) == 1 && multiset(s.channel)[g] == 0
  {
    assert s.threads[k] in s.threads;
    HolderExists(s.threads, g);
  }

  /** A goroutine that moves between points outside the activation protocol. */
  lemma FlagIdleMove(s: State, s': State, k: nat, pc: Pc, g: GroupId)
    requires FlagCounts(s, g) && k < |s.threads|
    requires s'.threads == s.threads[k := pc]
    requires s'.flag == s.flag && s'.channel == s.channel
    requires Holds(s.threads[k], g) == Holds(pc, g)
    ensures FlagCounts(s', g)
  {
    HoldersMove(s.threads, k, pc, g);
  }

  lemma FlagTry(s: State, k: nat, to: GroupId, g: GroupId)
    requires FlagCounts(s, g) && k < |s.threads| && !Holds(s.threads[k], g)
    ensures FlagCounts(Try(s, k, to), g)
  {
    HoldersMove(s.threads, k, Idle, g);
    HoldersMove(s.threads, k, Sending(to), g);
  }

  lemma FlagSend(s: State, k: nat, to: GroupId, g: GroupId)
    requires FlagCounts(s, g) && At(s, k, Sending(to))
    ensures FlagCounts(Sends(s, k, to), g)
  {
    HoldersMove(s.threads, k, Idle, g);
    HoldersMove(s.threads, k, Dropping(to), g);
  }

  lemma FlagReceive(s: State, k: nat, g: GroupId)
    requires FlagCounts(s, g) && At(s, k, Idle) && s.channel != []
    ensures FlagCounts(Receives(s, k), g)
  {
    HoldersMove(s.threads, k, Received(s.channel[0]), g);
    assert s.channel == [s.channel[0]] + s.channel[1..];
  }

  lemma FlagReset(s: State, k: nat, of: GroupId, g: GroupId, s': State)
    requires FlagCounts(s, g) && k < |s.threads| && Holds(s.threads[k], of)
    requires s' == Drops(s, k, of) || s' == Unschedules(s, k, of)
    ensures FlagCounts(s', g)
  {
    HoldersMove(s.threads, k, s'.threads[k], g);
    if g == of {
      HolderFlagged(s, k, g);
    }
  }

  lemma FlagTryStep(s: State, k: nat, g: GroupId)
    requires Can(s, k, TrySchedule) && FlagCounts(s, g)
    ensures FlagCounts(Do(s, k, TrySchedule), g)
  {
    hide Answered, FlagCounts, Try;
    var pc := s.threads[k];
    if pc.Waking? {
      var left := s.seen.wanted - Answered(s.seen.wanted, Timer(pc.g, pc.at));
      assert FlagCounts(s.(seen := s.seen.(wanted := left)), g) by {
        FlagIdleMove(s, s.(seen := s.seen.(wanted := left)), k, pc, g);
      }
      FlagTry(s.(seen := s.seen.(wanted := left)), k, pc.g, g);
    } else {
      FlagTry(s, k, pc.g, g);
    }
  }

  /** The actions that try, send, drop, receive or reset. */
  predicate MovesActivation(a: Action) {
    a.TrySchedule? || a.Send? || a.Drop? || a.Receive? || a.Unschedule?
  }

  /** The other actions leave flag and channel alone. */
  lemma FlagUntouched(s: State, k: nat, a: Action)
    requires Can(s, k, a) && !MovesActivation(a)
    ensures var s' := Do(s, k, a); s'.flag == s.flag && s'.channel == s.channel
  {
    hide MarkOf, Drained, After;
  }

  lemma HoldsNothing(s: State, k: nat, a: Action, g: GroupId)
    requires Can(s, k, a) && !MovesActivation(a)
    ensures !Holds(s.threads[k], g) && !Holds(Then(s, k, a), g)
  {
    hide MarkOf, Do;
  }

  lemma FlagAction(s: State, k: nat, a: Action, g: GroupId)
    requires Can(s, k, a) && FlagCounts(s, g)
    ensures FlagCounts(Do(s, k, a), g)
  {
    hide FlagCounts, Try, Wakes, Sends, Drops, Receives, Unschedules, Drains, LoadsWake, SetsWake,
         AddsTimer, Fires, ClearsWake, Calls;
    if !MovesActivation(a) {
      hide Do, Can, Then;
      OneMoves(s, k, a);
      FlagUntouched(s, k, a);
      HoldsNothing(s, k, a, g);
      FlagIdleMove(s, Do(s, k, a), k, Then(s, k, a), g);
    } else if a.TrySchedule? {
      FlagTryStep(s, k, g);
    } else if a.Receive? {
      FlagReceive(s, k, g);
    } else {
      var to := s.threads[k].g;
      if a.Send? {
        FlagSend(s, k, to, g);
      } else {
        FlagReset(s, k, to, g, Do(s, k, a));
      }
    }
  }
}
