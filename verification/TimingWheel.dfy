/** The timing wheel: buckets of tasks indexed modulo the wheel size, against a list
    of due times.  Adding a task, detaching a bucket and settling one detached task
    are separate atomic steps, as the lock makes them. */
module TimingWheel {
  import opened Bytes
  import opened Modular

  /** A task; `late` is how long after executeAt it may be looked at. */
  datatype Task = Task(id: nat, executeAt: int, late: int)

  datatype Firing = Firing(task: Task, at: int)

  datatype Wheel = Wheel(
    buckets: seq<seq<Task>>,
    bucketTime: int,         // length of a tick
    current: nat,
    ticks: nat,              // ticks begun
    hand: seq<Task>,         // detached by the current tick, not yet settled
    fired: seq<Firing>
  )

  function NewWheel(bucketTime: int, slots: nat): Wheel {
    Wheel(seq(slots, _ => []), bucketTime, 0, 0, [], [])
  }

  /** Whole ticks in a span, at least one (Go's division truncates toward zero). */
  function TicksIn(span: int, bucketTime: int): nat
    requires bucketTime > 0 && span >= 0
  {
    if span / bucketTime == 0 then 1 else span / bucketTime
  }

  function Push(w: Wheel, idx: nat, t: Task): Wheel
    requires idx < |w.buckets|
  {
    w.(buckets := w.buckets[idx := [t] + w.buckets[idx]])
  }

  /** How long after its due time a task with this delay may be looked at: one tick,
      or two for a delay shorter than a tick, plus the clock's slack. */
  function Lateness(delay: int, bucketTime: int, slack: int): int {
    (if delay >= bucketTime then bucketTime else 2 * bucketTime) + slack
  }

  predicate Shaped(w: Wheel) {
    |w.buckets| >= 1 && w.bucketTime > 0 && w.current < |w.buckets|
  }

  /** The task a call Add(delay) at clock reading `now` asks for; a negative delay is
      taken as zero. */
  function Asked(id: nat, delay: int, now: int, bucketTime: int, slack: int): Task {
    var wait := if delay < 0 then 0 else delay;
    Task(id, now + wait, Lateness(wait, bucketTime, slack))
  }

  /** Add: schedule after delay, at clock reading `now`. */
  function AddTask(w: Wheel, id: nat, delay: int, now: int, slack: int): Wheel
    requires Shaped(w)
  {
    var wait := if delay < 0 then 0 else delay;
    var idx := (w.current + TicksIn(wait, w.bucketTime)) % |w.buckets|;
    Push(w, idx, Asked(id, delay, now, w.bucketTime, slack))
  }

  /** The first half of tick: take the current bucket and advance. */
  function Detach(w: Wheel): Wheel
    requires Shaped(w)
  {
    w.(buckets := w.buckets[w.current := []],
       hand := w.buckets[w.current],
       current := (w.current + 1) % |w.buckets|,
       ticks := w.ticks + 1)
  }

  /** One turn of tick's loop: fire the task if due at `now`, else put it back. */
  function Settle(w: Wheel, now: int): Wheel
    requires Shaped(w) && w.hand != []
  {
    var t, rest := w.hand[0], w.(hand := w.hand[1..]);
    if t.executeAt <= now then rest.(fired := w.fired + [Firing(t, now)])
    else
      var idx := (w.current + TicksIn(t.executeAt - now, w.bucketTime) - 1 + |w.buckets|) % |w.buckets|;
      Push(rest, idx, t)
  }

  // ---------------------------------------------------------------------------
  // When a bucket is next looked at
  // ---------------------------------------------------------------------------

  /** How many ticks from now until bucket idx is detached, less one. */
  function Distance(idx: nat, current: nat, n: nat): nat
    requires idx < n && current < n
  {
    if idx >= current then idx - current else idx + n - current
  }

  lemma ModSmall(x: nat, n: nat)
    requires n > 0
    ensures x % n <= x && x % n < n
  {
  }

  /** The bucket k places ahead is reached after at most k more ticks. */
  lemma DistanceAhead(current: nat, k: nat, n: nat)
    requires current < n
    ensures (current + k) % n < n && Distance((current + k) % n, current, n) == k % n <= k
  {
    ModSmall(k, n);
    ModAdd(current, k, n);
  }

  lemma ModAdd(current: nat, k: nat, n: nat)
    requires current < n
    ensures (current + k) % n == if current + k % n < n then current + k % n else current + k % n - n
  {
    var q, r := k / n, k % n;
    assert k == q * n + r;
    if current + r < n {
      ModUnique(current + k, n, q, current + r);
    } else {
      ModUnique(current + k, n, q + 1, current + r - n);
    }
  }

  lemma DistanceNext(idx: nat, current: nat, n: nat)
    requires idx < n && current < n && idx != current
    ensures (current + 1) % n < n && Distance(idx, (current + 1) % n, n) == Distance(idx, current, n) - 1
  {
    if current + 1 < n {
      ModUnique(current + 1, n, 0, current + 1);
    } else {
      ModUnique(current + 1, n, 1, 0);
    }
  }

  /** The number of the tick that will next detach bucket idx. */
  function NextTick(w: Wheel, idx: nat): nat
    requires Shaped(w) && idx < |w.buckets|
  {
    w.ticks + 1 + Distance(idx, w.current, |w.buckets|)
  }

  /** The time at which tick number m begins. */
  function At(m: int, bucketTime: int): int {
    m * bucketTime
  }

  lemma AtAdds(m: int, k: int, bucketTime: int)
    ensures At(m + k, bucketTime) == At(m, bucketTime) + At(k, bucketTime)
    ensures At(1, bucketTime) == bucketTime
  {
  }

  lemma AtMonotone(m: int, k: int, bucketTime: int)
    requires m <= k && bucketTime > 0
    ensures At(m, bucketTime) <= At(k, bucketTime)
  {
    assert (k - m) * bucketTime >= 0;
  }

  /** Whole ticks of a span fit in it, or in one tick if it is shorter. */
  lemma TicksFit(span: int, bucketTime: int)
    requires span >= 0 && bucketTime > 0
    ensures TicksIn(span, bucketTime) >= 1
    ensures At(TicksIn(span, bucketTime), bucketTime)
         <= if span >= bucketTime then span else bucketTime
  {
    var q := span / bucketTime;
    assert span == q * bucketTime + span % bucketTime;
    if q == 0 {
      assert span < bucketTime;
    } else {
      assert q >= 1;
      MultipleIsFar(q, bucketTime);
    }
  }

  // ---------------------------------------------------------------------------
  // The invariant
  // ---------------------------------------------------------------------------

  /** A task is looked at no later than its lateness allows. */
  predicate InTime(t: Task, tick: nat, bucketTime: int, slack: int) {
    At(tick, bucketTime) <= t.executeAt + t.late && t.late >= bucketTime + slack
  }

  predicate BucketInTime(w: Wheel, idx: nat, slack: int)
    requires Shaped(w) && idx < |w.buckets|
  {
    forall t <- w.buckets[idx] :: InTime(t, NextTick(w, idx), w.bucketTime, slack)
  }

  predicate FiredInTime(f: Firing, slack: int) {
    f.task.executeAt <= f.at <= f.task.executeAt + f.task.late + slack
  }

  predicate Inv(w: Wheel, slack: int) {
    Shaped(w) && slack >= 0
    && (forall idx: nat | idx < |w.buckets| :: BucketInTime(w, idx, slack))
    && (forall t <- w.hand :: InTime(t, w.ticks, w.bucketTime, slack))
    && (forall f <- w.fired :: FiredInTime(f, slack))
  }

  lemma PushKeepsInv(w: Wheel, k: nat, t: Task, slack: int)
    requires Inv(w, slack)
    requires t.late >= w.bucketTime + slack
    requires At(w.ticks + 1 + k, w.bucketTime) <= t.executeAt + t.late
    ensures Inv(Push(w, (w.current + k) % |w.buckets|, t), slack)
  {
    hide At, InTime, FiredInTime;
    DistanceAhead(w.current, k, |w.buckets|);
    var idx := (w.current + k) % |w.buckets|;
    var w' := Push(w, idx, t);
    InTimeSooner(t, w.ticks + 1 + k, NextTick(w, idx), w.bucketTime, slack);
    forall i: nat | i < |w'.buckets| ensures BucketInTime(w', i, slack) {
      assert BucketInTime(w, i, slack);
    }
  }

  lemma InTimeSooner(t: Task, k: nat, m: nat, bucketTime: int, slack: int)
    requires bucketTime > 0 && m <= k && t.late >= bucketTime + slack
    requires At(k, bucketTime) <= t.executeAt + t.late
    ensures InTime(t, m, bucketTime, slack)
  {
    hide At;
    AtMonotone(m, k, bucketTime);
  }

  /** A clock reading after `ticks` ticks is at most slack behind the last one. */
  lemma AddKeepsInv(w: Wheel, id: nat, delay: int, now: int, slack: int)
    requires Inv(w, slack) && At(w.ticks, w.bucketTime) <= now + slack
    ensures Inv(AddTask(w, id, delay, now, slack), slack)
  {
    hide Inv, At, TicksIn;
    assert Shaped(w) && slack >= 0 by { InvShaped(w, slack); }
    var wait := if delay < 0 then 0 else delay;
    var k := TicksIn(wait, w.bucketTime);
    TicksFit(wait, w.bucketTime);
    AtAdds(w.ticks, 1 + k, w.bucketTime);
    AtAdds(1, k, w.bucketTime);
    PushKeepsInv(w, k, Asked(id, delay, now, w.bucketTime, slack), slack);
  }

  lemma InvShaped(w: Wheel, slack: int)
    requires Inv(w, slack)
    ensures Shaped(w) && slack >= 0
  {
  }

  lemma DetachKeepsInv(w: Wheel, slack: int)
    requires Inv(w, slack) && w.hand == []
    ensures Inv(Detach(w), slack)
  {
    hide At, InTime, FiredInTime;
    var w' := Detach(w);
    DistanceAhead(w.current, 1, |w.buckets|);
    assert BucketInTime(w, w.current, slack);
    forall i: nat | i < |w'.buckets| ensures BucketInTime(w', i, slack) {
      assert BucketInTime(w, i, slack);
      if i != w.current {
        DistanceNext(i, w.current, |w.buckets|);
      }
    }
  }

  /** Settling at a reading within slack of the tick's time: a task that fires is
      neither early nor too late, and one put back is looked at in time. */
  lemma SettleKeepsInv(w: Wheel, now: int, slack: int)
    requires Inv(w, slack) && w.hand != []
    requires At(w.ticks, w.bucketTime) - slack <= now <= At(w.ticks, w.bucketTime) + slack
    ensures Inv(Settle(w, now), slack)
  {
    hide At, TicksIn;
    var t, rest := w.hand[0], w.(hand := w.hand[1..]);
    assert t in w.hand && InTime(t, w.ticks, w.bucketTime, slack);
    assert Inv(rest, slack) by { RestKeepsInv(w, slack); }
    if t.executeAt <= now {
      hide Inv, InTime;
      var f := Firing(t, now);
      assert FiredInTime(f, slack);
      FireKeepsInv(rest, f, slack);
    } else {
      var k := TicksIn(t.executeAt - now, w.bucketTime);
      hide Inv, InTime, Push;
      TicksFit(t.executeAt - now, w.bucketTime);
      AtAdds(w.ticks, k, w.bucketTime);
      WrapBack(w.current, k - 1, |w.buckets|);
      PushKeepsInv(rest, k - 1, t, slack);
    }
  }

  lemma RestKeepsInv(w: Wheel, slack: int)
    requires Inv(w, slack) && w.hand != []
    ensures Inv(w.(hand := w.hand[1..]), slack)
  {
    hide At, InTime, FiredInTime;
    var rest := w.(hand := w.hand[1..]);
    forall i: nat | i < |rest.buckets| ensures BucketInTime(rest, i, slack) {
      assert BucketInTime(w, i, slack);
    }
  }

  lemma FireKeepsInv(w: Wheel, f: Firing, slack: int)
    requires Inv(w, slack) && FiredInTime(f, slack)
    ensures Inv(w.(fired := w.fired + [f]), slack)
  {
    hide At, InTime, FiredInTime;
    var w' := w.(fired := w.fired + [f]);
    forall i: nat | i < |w'.buckets| ensures BucketInTime(w', i, slack) {
      assert BucketInTime(w, i, slack);
    }
  }

  /** Adding the wheel size before reducing changes nothing. */
  lemma WrapBack(current: nat, k: nat, n: nat)
    requires current < n
    ensures (current + k + n) % n == (current + k) % n
  {
    var x := current + k;
    var q, r := x / n, x % n;
    assert x == q * n + r;
    assert x + n == (q + 1) * n + r;
    ModUnique(x + n, n, q + 1, r);
  }

  // ---------------------------------------------------------------------------
  // Conservation of tasks
  // ---------------------------------------------------------------------------

  function Stored(buckets: seq<seq<Task>>): multiset<Task> {
    if buckets == [] then multiset{} else multiset(buckets[0]) + Stored(buckets[1..])
  }

  function Ran(fired: seq<Firing>): seq<Task> {
    seq(|fired|, i requires 0 <= i < |fired| => fired[i].task)
  }

  /** Every task the wheel knows of: stored, detached or fired. */
  function Tasks(w: Wheel): multiset<Task> {
    Stored(w.buckets) + multiset(w.hand) + multiset(Ran(w.fired))
  }

  lemma {:induction false} StoredUpdate(buckets: seq<seq<Task>>, i: nat, b: seq<Task>, t: Task)
    requires i < |buckets|
    ensures Stored(buckets[i := b])[t] + multiset(buckets[i])[t] == Stored(buckets)[t] + multiset(b)[t]
  {
    var u := buckets[i := b];
    if i == 0 {
      assert u[1..] == buckets[1..];
    } else {
      StoredUpdate(buckets[1..], i - 1, b, t);
      assert u[1..] == buckets[1..][i - 1 := b];
    }
  }

  lemma {:induction false} StoredHas(buckets: seq<seq<Task>>, t: Task) returns (i: nat)
    requires t in Stored(buckets)
    ensures i < |buckets| && t in buckets[i]
  {
    if t in buckets[0] {
      i := 0;
    } else {
      i := StoredHas(buckets[1..], t);
      i := i + 1;
    }
  }

  lemma {:induction false} StoredEmpty(buckets: seq<seq<Task>>)
    requires forall i | 0 <= i < |buckets| :: buckets[i] == []
    ensures Stored(buckets) == multiset{}
  {
    if buckets != [] {
      StoredEmpty(buckets[1..]);
    }
  }

  lemma PushTasks(w: Wheel, idx: nat, t: Task)
    requires idx < |w.buckets|
    ensures Tasks(Push(w, idx, t)) == Tasks(w) + multiset{t}
  {
    hide Stored, Ran;
    var b := w.buckets[idx];
    assert multiset([t] + b) == multiset{t} + multiset(b);
    forall x ensures Tasks(Push(w, idx, t))[x] == (Tasks(w) + multiset{t})[x] {
      StoredUpdate(w.buckets, idx, [t] + b, x);
    }
  }

  lemma DetachTasks(w: Wheel)
    requires Shaped(w) && w.hand == []
    ensures Tasks(Detach(w)) == Tasks(w)
  {
    hide Stored, Ran;
    forall x ensures Tasks(Detach(w))[x] == Tasks(w)[x] {
      StoredUpdate(w.buckets, w.current, [], x);
    }
  }

  lemma TakenTasks(w: Wheel)
    requires w.hand != []
    ensures Tasks(w) == Tasks(w.(hand := w.hand[1..])) + multiset{w.hand[0]}
  {
    hide Stored, Ran;
    assert w.hand == [w.hand[0]] + w.hand[1..];
  }

  lemma FiredTasks(w: Wheel, f: Firing)
    ensures Tasks(w.(fired := w.fired + [f])) == Tasks(w) + multiset{f.task}
  {
    hide Stored;
    assert Ran(w.fired + [f]) == Ran(w.fired) + [f.task];
    hide Ran;
  }

  lemma SettleTasks(w: Wheel, now: int)
    requires Shaped(w) && w.hand != []
    ensures Tasks(Settle(w, now)) == Tasks(w)
  {
    hide Stored, Push, TicksIn, Ran, Tasks;
    var t, rest := w.hand[0], w.(hand := w.hand[1..]);
    TakenTasks(w);
    if t.executeAt <= now {
      FiredTasks(rest, Firing(t, now));
    } else {
      var idx := (w.current + TicksIn(t.executeAt - now, w.bucketTime) - 1 + |w.buckets|) % |w.buckets|;
      PushTasks(rest, idx, t);
    }
  }

  // ---------------------------------------------------------------------------
  // Runs
  // ---------------------------------------------------------------------------

  datatype Step =
    | Adds(id: nat, delay: int, now: int)
    | Ticks
    | Settles(now: int)

  /** The steps the one ticking goroutine and the callers of Add may take, with clock
      readings within slack of the ticks. */
  predicate Enabled(w: Wheel, s: Step, slack: int) {
    Shaped(w) &&
    match s
    case Adds(_, _, now) => At(w.ticks, w.bucketTime) <= now + slack
    case Ticks => w.hand == []
    case Settles(now) =>
      w.hand != []
      && At(w.ticks, w.bucketTime) - slack <= now <= At(w.ticks, w.bucketTime) + slack
  }

  function Next(w: Wheel, s: Step, slack: int): Wheel
    requires Enabled(w, s, slack)
  {
    match s
    case Adds(id, delay, now) => AddTask(w, id, delay, now, slack)
    case Ticks => Detach(w)
    case Settles(now) => Settle(w, now)
  }

  /** The state after the steps, if each was enabled. */
  function Run(w: Wheel, steps: seq<Step>, slack: int): Option<Wheel> {
    if steps == [] then Some(w)
    else
      match Run(w, steps[..|steps| - 1], slack)
      case None => None
      case Some(w') =>
        var s := steps[|steps| - 1];
        if Enabled(w', s, slack) then Some(Next(w', s, slack)) else None
  }

  /** What the calls of Add in a run asked for. */
  function Requests(steps: seq<Step>, bucketTime: int, slack: int): seq<Task> {
    if steps == [] then []
    else
      var front := Requests(steps[..|steps| - 1], bucketTime, slack);
      match steps[|steps| - 1]
      case Adds(id, delay, now) => front + [Asked(id, delay, now, bucketTime, slack)]
      case _ => front
  }

  lemma StepKeeps(w: Wheel, s: Step, slack: int)
    requires Inv(w, slack) && Enabled(w, s, slack)
    ensures Inv(Next(w, s, slack), slack)
    ensures Next(w, s, slack).bucketTime == w.bucketTime
    ensures Tasks(Next(w, s, slack))
         == Tasks(w) + if s.Adds? then multiset{Asked(s.id, s.delay, s.now, w.bucketTime, slack)} else multiset{}
  {
    hide Inv, Tasks, At, TicksIn;
    match s
    case Adds(id, delay, now) =>
      AddKeepsInv(w, id, delay, now, slack);
      var wait := if delay < 0 then 0 else delay;
      var idx := (w.current + TicksIn(wait, w.bucketTime)) % |w.buckets|;
      PushTasks(w, idx, Asked(id, delay, now, w.bucketTime, slack));
    case Ticks =>
      DetachKeepsInv(w, slack);
      DetachTasks(w);
    case Settles(now) =>
      SettleKeepsInv(w, now, slack);
      SettleTasks(w, now);
  }

  /** In every run of a new wheel the tasks stored, detached and fired are together
      exactly the tasks asked for. */
  lemma {:induction false} RunKeeps(bucketTime: int, slots: nat, steps: seq<Step>, slack: int)
    requires bucketTime > 0 && slots > 0 && slack >= 0
    requires Run(NewWheel(bucketTime, slots), steps, slack).Some?
    ensures var w := Run(NewWheel(bucketTime, slots), steps, slack).value;
            Inv(w, slack) && w.bucketTime == bucketTime
            && Tasks(w) == multiset(Requests(steps, bucketTime, slack))
  {
    var start := NewWheel(bucketTime, slots);
    if steps == [] {
      StoredEmpty(start.buckets);
    } else {
      hide Inv, Tasks, Enabled, Next, NewWheel, Asked;
      var front, s := steps[..|steps| - 1], steps[|steps| - 1];
      RunKeeps(bucketTime, slots, front, slack);
      StepKeeps(Run(start, front, slack).value, s, slack);
    }
  }

  /** A stored task's bucket has not yet had its last chance. */
  lemma StoredIsNotOverdue(w: Wheel, t: Task, slack: int)
    requires Inv(w, slack) && t in Stored(w.buckets)
    ensures At(w.ticks + 1, w.bucketTime) <= t.executeAt + t.late
  {
    hide At, FiredInTime;
    var i := StoredHas(w.buckets, t);
    assert BucketInTime(w, i, slack);
    AtMonotone(w.ticks + 1, NextTick(w, i), w.bucketTime);
  }

  /** The wheel keeps its promise, for every delay however many rotations long: no
      callback runs early, none runs later than one tick (two for a delay under a
      tick) plus the clock's slack, none runs twice or unasked, and once that time
      has passed and the tick is done, it has run. */
  lemma EachCallbackRunsOnceOnTime(bucketTime: int, slots: nat, steps: seq<Step>, slack: int)
    requires bucketTime > 0 && slots > 0 && slack >= 0
    requires Run(NewWheel(bucketTime, slots), steps, slack).Some?
    ensures var w := Run(NewWheel(bucketTime, slots), steps, slack).value;
            var asked, ran := multiset(Requests(steps, bucketTime, slack)), multiset(Ran(w.fired));
            && (forall f <- w.fired ::
                  f.task.executeAt <= f.at <= f.task.executeAt + f.task.late + slack)
            && ran <= asked
            && (w.hand == [] ==>
                  forall t <- asked | At(w.ticks + 1, bucketTime) > t.executeAt + t.late :: ran[t] == asked[t])
  {
    hide At, NewWheel, Run, Requests;
    RunKeeps(bucketTime, slots, steps, slack);
    var w := Run(NewWheel(bucketTime, slots), steps, slack).value;
    var asked, ran := multiset(Requests(steps, bucketTime, slack)), multiset(Ran(w.fired));
    if w.hand == [] {
      forall t <- asked | At(w.ticks + 1, bucketTime) > t.executeAt + t.late
        ensures ran[t] == asked[t]
      {
        if t in Stored(w.buckets) {
          StoredIsNotOverdue(w, t, slack);
        }
      }
    }
  }

  // Call by call

  /** Each call of Add has a label of its own. */
  ghost predicate OwnLabels(steps: seq<Step>) {
    forall i, j | 0 <= i < j < |steps| :: steps[i].Adds? && steps[j].Adds? ==> steps[i].id != steps[j].id
  }

  /** How often the callback with this label has run. */
  function TimesRun(fired: seq<Firing>, id: nat): nat {
    if fired == [] then 0
    else TimesRun(fired[..|fired| - 1], id) + if fired[|fired| - 1].task.id == id then 1 else 0
  }

  lemma {:induction false} RequestedBy(steps: seq<Step>, bucketTime: int, slack: int, t: Task) returns (i: nat)
    requires t in Requests(steps, bucketTime, slack)
    ensures i < |steps| && steps[i].Adds?
    ensures t == Asked(steps[i].id, steps[i].delay, steps[i].now, bucketTime, slack)
  {
    hide Asked;
    var n := |steps| - 1;
    if t in Requests(steps[..n], bucketTime, slack) {
      i := RequestedBy(steps[..n], bucketTime, slack, t);
    } else {
      i := n;
    }
  }

  lemma {:induction false} IsRequested(steps: seq<Step>, bucketTime: int, slack: int, i: nat)
    requires i < |steps| && steps[i].Adds?
    ensures Asked(steps[i].id, steps[i].delay, steps[i].now, bucketTime, slack) in Requests(steps, bucketTime, slack)
  {
    hide Asked;
    if i < |steps| - 1 {
      IsRequested(steps[..|steps| - 1], bucketTime, slack, i);
    }
  }

  lemma {:induction false} RequestedOnce(steps: seq<Step>, bucketTime: int, slack: int, t: Task)
    requires OwnLabels(steps)
    ensures multiset(Requests(steps, bucketTime, slack))[t] <= 1
  {
    if steps != [] {
      var n := |steps| - 1;
      RequestedOnce(steps[..n], bucketTime, slack, t);
      if steps[n].Adds? && t in Requests(steps[..n], bucketTime, slack) {
        var i := RequestedBy(steps[..n], bucketTime, slack, t);
        assert steps[i].id != steps[n].id;
      }
    }
  }

  lemma {:induction false} RunsOfTask(fired: seq<Firing>, t: Task)
    requires forall f <- fired | f.task.id == t.id :: f.task == t
    ensures TimesRun(fired, t.id) == multiset(Ran(fired))[t]
  {
    if fired != [] {
      var n := |fired| - 1;
      RunsOfTask(fired[..n], t);
      assert Ran(fired) == Ran(fired[..n]) + [fired[n].task];
    }
  }

  /** What was fired under a call's label is the task of that call. */
  lemma FiredIsOfCall(steps: seq<Step>, bucketTime: int, slack: int, fired: seq<Firing>, i: nat, f: Firing)
    requires OwnLabels(steps) && i < |steps| && steps[i].Adds? && f in fired && f.task.id == steps[i].id
    requires multiset(Ran(fired)) <= multiset(Requests(steps, bucketTime, slack))
    ensures f.task == Asked(steps[i].id, steps[i].delay, steps[i].now, bucketTime, slack)
  {
    hide Requests;
    var k :| 0 <= k < |fired| && fired[k] == f;
    assert Ran(fired)[k] == f.task;
    assert f.task in multiset(Ran(fired));
    var j := RequestedBy(steps, bucketTime, slack, f.task);
  }

  /** The callback has run at most once, between `due` and slack after `last`, and it has
      run if the next tick begins past `last`. */
  ghost predicate RanOnTime(w: Wheel, id: nat, due: int, last: int, slack: int) {
    && (forall f <- w.fired | f.task.id == id :: due <= f.at <= last + slack)
    && TimesRun(w.fired, id) <= 1
    && (w.hand == [] && At(w.ticks + 1, w.bucketTime) > last ==> TimesRun(w.fired, id) == 1)
  }

  /** The same call by call.  A callback asked for at `now` with a delay (none if it is
      negative) runs at most once, not before now plus the delay, and not later than a
      tick after that, or two for a delay under a tick, and twice the clock's slack; and
      it has run once the ticks are past that. */
  lemma CallbackRunsOnTime(bucketTime: int, slots: nat, steps: seq<Step>, slack: int, i: nat)
    requires bucketTime > 0 && slots > 0 && slack >= 0
    requires Run(NewWheel(bucketTime, slots), steps, slack).Some?
    requires OwnLabels(steps) && i < |steps| && steps[i].Adds?
    ensures var w := Run(NewWheel(bucketTime, slots), steps, slack).value;
            var due := steps[i].now + if steps[i].delay < 0 then 0 else steps[i].delay;
            var last := due + (if steps[i].delay < bucketTime then 2 * bucketTime else bucketTime) + slack;
            RanOnTime(w, steps[i].id, due, last, slack)
  {
    var w := Run(NewWheel(bucketTime, slots), steps, slack).value;
    var t := Asked(steps[i].id, steps[i].delay, steps[i].now, bucketTime, slack);
    assert t.executeAt + t.late == (steps[i].now + if steps[i].delay < 0 then 0 else steps[i].delay)
                                 + (if steps[i].delay < bucketTime then 2 * bucketTime else bucketTime) + slack;
    assert t.id == steps[i].id;
    hide Run, NewWheel, Requests, OwnLabels, At, Inv, Asked, Ran, Punctual, RanOnTime;
    RunIsPunctual(bucketTime, slots, steps, slack);
    IsRequested(steps, bucketTime, slack, i);
    RequestedOnce(steps, bucketTime, slack, t);
    RanWasAsked(w, multiset(Requests(steps, bucketTime, slack)), slack);
    AllOfCall(steps, bucketTime, slack, w.fired, i);
    OneTask(w, t, multiset(Requests(steps, bucketTime, slack)), slack);
  }

  /** What the wheel promises of the tasks asked for. */
  ghost predicate Punctual(w: Wheel, asked: multiset<Task>, slack: int) {
    var ran := multiset(Ran(w.fired));
    && (forall f <- w.fired :: f.task.executeAt <= f.at <= f.task.executeAt + f.task.late + slack)
    && ran <= asked
    && (w.hand == [] ==>
          forall t <- asked | At(w.ticks + 1, w.bucketTime) > t.executeAt + t.late :: ran[t] == asked[t])
  }

  lemma RunIsPunctual(bucketTime: int, slots: nat, steps: seq<Step>, slack: int)
    requires bucketTime > 0 && slots > 0 && slack >= 0
    requires Run(NewWheel(bucketTime, slots), steps, slack).Some?
    ensures var w := Run(NewWheel(bucketTime, slots), steps, slack).value;
            Punctual(w, multiset(Requests(steps, bucketTime, slack)), slack)
  {
    hide Run, NewWheel, Requests, At, Inv, Ran;
    EachCallbackRunsOnceOnTime(bucketTime, slots, steps, slack);
    RunKeeps(bucketTime, slots, steps, slack);
  }

  lemma RanWasAsked(w: Wheel, asked: multiset<Task>, slack: int)
    requires Punctual(w, asked, slack)
    ensures multiset(Ran(w.fired)) <= asked
  {
  }

  lemma OneTask(w: Wheel, t: Task, asked: multiset<Task>, slack: int)
    requires Punctual(w, asked, slack) && asked[t] == 1
    requires forall f <- w.fired | f.task.id == t.id :: f.task == t
    ensures RanOnTime(w, t.id, t.executeAt, t.executeAt + t.late, slack)
  {
    hide At, TimesRun, Ran;
    RunsOfTask(w.fired, t);
  }

  lemma AllOfCall(steps: seq<Step>, bucketTime: int, slack: int, fired: seq<Firing>, i: nat)
    requires OwnLabels(steps) && i < |steps| && steps[i].Adds?
    requires multiset(Ran(fired)) <= multiset(Requests(steps, bucketTime, slack))
    ensures var t := Asked(steps[i].id, steps[i].delay, steps[i].now, bucketTime, slack);
            forall f <- fired | f.task.id == t.id :: f.task == t
  {
    hide OwnLabels, Ran, Requests, Lateness;
    forall f <- fired | f.task.id == steps[i].id
      ensures f.task == Asked(steps[i].id, steps[i].delay, steps[i].now, bucketTime, slack)
    {
      FiredIsOfCall(steps, bucketTime, slack, fired, i, f);
    }
  }

  /** No callback runs that was not asked for. */
  lemma NoneRunsUnasked(bucketTime: int, slots: nat, steps: seq<Step>, slack: int, f: Firing)
    requires bucketTime > 0 && slots > 0 && slack >= 0
    requires Run(NewWheel(bucketTime, slots), steps, slack).Some?
    requires f in Run(NewWheel(bucketTime, slots), steps, slack).value.fired
    ensures exists i :: 0 <= i < |steps| && steps[i].Adds? && steps[i].id == f.task.id
  {
    var fired := Run(NewWheel(bucketTime, slots), steps, slack).value.fired;
    EachCallbackRunsOnceOnTime(bucketTime, slots, steps, slack);
    hide Run, NewWheel, Requests;
    var k :| 0 <= k < |fired| && fired[k] == f;
    assert Ran(fired)[k] == f.task;
    assert f.task in multiset(Ran(fired));
    var i := RequestedBy(steps, bucketTime, slack, f.task);
  }

  // ---------------------------------------------------------------------------
  // The wheel itself
  // ---------------------------------------------------------------------------

  /** Settling every detached task at one clock reading. */
  function SettleAll(w: Wheel, now: int): Wheel
    requires Shaped(w)
    decreases |w.hand|
  {
    if w.hand == [] then w else SettleAll(Settle(w, now), now)
  }

  class Timer {
    const buckets: array<seq<Task>>
    const bucketTime: int
    const slack: int          // only enters the lateness recorded with a task
    var current: nat
    var ticks: nat
    var fired: seq<Firing>    // callbacks run, in order

    ghost predicate Valid()
      reads this
    {
      buckets.Length > 0 && bucketTime > 0 && current < buckets.Length
    }

    /** The wheel's value while a tick holds the tasks in `hand`. */
    ghost function Holding(hand: seq<Task>): (w: Wheel)
      requires Valid()
      reads this, buckets
      ensures Shaped(w)
    {
      Wheel(buckets[..], bucketTime, current, ticks, hand, fired)
    }

    constructor (tick: int, slots: nat, slack: int)
      requires tick > 0 && slots > 0
      ensures Valid() && fresh(buckets) && this.slack == slack
      ensures Holding([]) == NewWheel(tick, slots)
    {
      buckets := new seq<Task>[slots](_ => []);
      bucketTime, this.slack := tick, slack;
      current, ticks, fired := 0, 0, [];
    }

    method Add(id: nat, delay: int, now: int, ghost hand: seq<Task>)
      requires Valid()
      modifies buckets
      ensures Valid() && Holding(hand) == AddTask(old(Holding(hand)), id, delay, now, slack)
    {
      var wait := if delay < 0 then 0 else delay;
      var t := Task(id, now + wait, Lateness(wait, bucketTime, slack));
      var steps := wait / bucketTime;
      if steps == 0 {
        steps := 1;
      }
      var idx := (current + steps) % buckets.Length;
      buckets[idx] := [t] + buckets[idx];
    }

    /** One settled task of a tick, put back where the wheel will find it. */
    method PutBack(t: Task, now: int, ghost hand: seq<Task>)
      requires Valid() && hand != [] && hand[0] == t && t.executeAt > now
      modifies buckets
      ensures Valid() && Holding(hand[1..]) == Settle(old(Holding(hand)), now)
    {
      var steps := (t.executeAt - now) / bucketTime;
      if steps == 0 {
        steps := 1;
      }
      var idx := (current + steps - 1 + buckets.Length) % buckets.Length;
      buckets[idx] := [t] + buckets[idx];
    }

    method Tick(now: int)
      requires Valid()
      modifies this, buckets
      ensures Valid() && Holding([]) == SettleAll(Detach(old(Holding([]))), now)
    {
      hide Settle, AddTask;
      var list := buckets[current];
      buckets[current] := [];
      current, ticks := (current + 1) % buckets.Length, ticks + 1;
      ghost var goal := SettleAll(Detach(old(Holding([]))), now);
      assert Holding(list) == Detach(old(Holding([])));
      while list != []
        invariant Valid() && SettleAll(Holding(list), now) == goal
        decreases |list|
      {
        var t := list[0];
        if t.executeAt <= now {
          SettleFires(Holding(list), now);
          fired := fired + [Firing(t, now)];
        } else {
          PutBack(t, now, list);
        }
        list := list[1..];
      }
    }
  }

  lemma SettleFires(w: Wheel, now: int)
    requires Shaped(w) && w.hand != [] && w.hand[0].executeAt <= now
    ensures Settle(w, now) == w.(hand := w.hand[1..], fired := w.fired + [Firing(w.hand[0], now)])
  {
  }
}
