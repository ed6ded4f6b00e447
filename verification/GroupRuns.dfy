/** Runs of a group: every sequence of engine operations, from a new group on. */
module GroupRuns {
  import opened Bytes
  import opened Messages
  import opened RateLimiter
  import opened GroupSpec
  import opened GroupConservation
  import opened GroupDrain

  /** The engine's operations.  `order` is the order in which the map yields the
      expired leases; the run may choose any. */
  datatype Op =
    | Publish(id: Bytes, payload: Bytes, now: int)
    | Drain(now: int, order: seq<Bytes>)
    | TryDispatch(now: int, order: seq<Bytes>)
    | Ack(id: Bytes)
    | AckAndNext(id: Bytes, now: int, order: seq<Bytes>)
    | Nack(id: Bytes, error: Bytes, now: int)
    | NackAndNext(id: Bytes, error: Bytes, now: int, order: seq<Bytes>)
    | GiveBack(id: Bytes)
    | Sweep(now: int, order: seq<Bytes>)

  /** A delivery: which message, and how many had left the group by then. */
  datatype Delivery = Delivery(id: Bytes, after: nat)

  /** A group and its history. */
  datatype World = World(
    g: Group,
    accepted: seq<Bytes>,        // ids published, in order
    gone: seq<Message>,          // messages done, failed or dead-lettered, in order
    sent: seq<Delivery>,
    credited: nat,               // drain rounds that were given credit
    drained: nat,                // messages sent by drain rounds
    fromNew: bool                // the history starts with a new group, not a rebuilt one
  )

  // ---------------------------------------------------------------------------
  // Steps
  // ---------------------------------------------------------------------------

  function Acked(w: World, id: Bytes): World {
    w.(g := Complete(w.g, id),
       gone := if id in w.g.processing then w.gone + [w.g.processing[id].(state := Done)] else w.gone)
  }

  function Nacked(c: Config, w: World, id: Bytes, error: Bytes, now: int): World {
    w.(g := Fail(c, w.g, id, error, now),
       gone := if id in w.g.processing && !Retries(c, w.g.processing[id])
               then w.gone + [Exhausted(c, w.g.processing[id], error)] else w.gone)
  }

  function Deliveries(ms: seq<Message>, after: nat): (d: seq<Delivery>)
    ensures |d| == |ms| && forall i :: 0 <= i < |ms| ==> d[i] == Delivery(ms[i].id, after)
  {
    seq(|ms|, i requires 0 <= i < |ms| => Delivery(ms[i].id, after))
  }

  /** promoteDelayed and next: the direct-dispatch path. */
  function Tried(c: Config, w: World, now: int, order: seq<Bytes>): World {
    var p := Promote(w.g, now, order);
    w.(g := NextDispatchable(c, p, now),
       sent := if Blocked(c, p, now).None? then w.sent + [Delivery(Backlog(p)[0].id, |w.gone|)] else w.sent)
  }

  function DrainedWorld(c: Config, w: World, now: int, order: seq<Bytes>): World
    requires Credit(c, w.g) >= 0 && Promote(w.g, now, order).deficit == w.g.deficit
  {
    var p := Promote(w.g, now, order);
    if PendingCount(p) == 0 then w.(g := p)
    else
      var k := BatchSize(c, p, now);
      w.(g := Drained(c, p, now),
         sent := w.sent + Deliveries(Backlog(p)[..k], |w.gone|),
         credited := w.credited + 1,
         drained := w.drained + k)
  }

  ghost predicate Enabled(c: Config, w: World, op: Op) {
    match op
    case Publish(id, _, _) => id !in w.accepted
    case Drain(now, order) => Lists(order, Expired(w.g, now))
    case TryDispatch(now, order) => Lists(order, Expired(w.g, now))
    case AckAndNext(id, now, order) => Lists(order, Expired(Complete(w.g, id), now))
    case NackAndNext(id, e, now, order) => Lists(order, Expired(Fail(c, w.g, id, e, now), now))
    case Sweep(now, order) => Lists(order, Expired(w.g, now))
    case Ack(_) => true
    case Nack(_, _, _) => true
    case GiveBack(_) => true
  }

  function Step(c: Config, w: World, op: Op): World
    requires Usable(c) && Sound(c, w.g)
  {
    match op
    case Publish(id, payload, now) =>
      if HasRoom(c, w.g)
      then w.(g := Enqueue(w.g, NewMessage(id, payload, now)), accepted := w.accepted + [id])
      else w
    case Drain(now, order) =>
      PromoteSound(c, w.g, now, order);
      DrainedWorld(c, w, now, order)
    case TryDispatch(now, order) => Tried(c, w, now, order)
    case Ack(id) => Acked(w, id)
    case AckAndNext(id, now, order) => Tried(c, Acked(w, id), now, order)
    case Nack(id, error, now) => Nacked(c, w, id, error, now)
    case NackAndNext(id, error, now, order) => Tried(c, Nacked(c, w, id, error, now), now, order)
    case GiveBack(id) => w.(g := ReturnToPending(w.g, id))
    case Sweep(now, order) => w.(g := ReturnAll(w.g, order))
  }

  // ---------------------------------------------------------------------------
  // Conservation
  // ---------------------------------------------------------------------------

  ghost predicate NoRepeats(ids: seq<Bytes>) {
    forall i, j :: 0 <= i < j < |ids| ==> ids[i] != ids[j]
  }

  predicate LeftProperly(c: Config, m: Message) {
    m.state == Done || ((m.state == Failed || m.state == DLQ) && m.attempts >= c.maxAttempts)
  }

  /** No cleared slots, and the parallelism respected: what recovery need not give. */
  predicate Regular(c: Config, g: Group) {
    NoHoles(g.ready) && |g.processing| <= c.parallelism
  }

  /** Accepted ids are exactly the ids held and the ids gone, each once. */
  ghost predicate Conserved(c: Config, w: World) {
    Sound(c, w.g) && (w.fromNew ==> Regular(c, w.g)) &&
    NoRepeats(w.accepted) &&
    Holdings(w.g) + multiset(Ids(w.gone)) == multiset(w.accepted) &&
    (forall i :: 0 <= i < |w.gone| ==> LeftProperly(c, w.gone[i]))
  }

  lemma NotHeldUnlessAccepted(c: Config, w: World, id: Bytes)
    requires Conserved(c, w) && id !in w.accepted
    ensures id !in Holdings(w.g)
  {
    assert id !in multiset(w.accepted);
  }

  lemma {:induction false} NoHolesAppend(a: Slots, ms: seq<Message>)
    requires NoHoles(a)
    ensures NoHoles(a + SlotsOf(ms))
  {
  }

  lemma PromoteConserves(c: Config, w: World, now: int, order: seq<Bytes>)
    requires Conserved(c, w)
    ensures Conserved(c, w.(g := Promote(w.g, now, order)))
  {
    hide Sound, Holdings;
    PromoteSound(c, w.g, now, order);
    ReturnAllSound(c, w.g, order);
    ReturnAllSmaller(w.g, order);
    if w.fromNew {
      NoHolesAppend(w.g.ready, w.g.delayed[..Due(w.g.delayed, now)]);
    }
  }

  lemma {:induction false} ReturnAllSmaller(g: Group, order: seq<Bytes>)
    ensures ReturnAll(g, order).processing.Keys <= g.processing.Keys
    ensures |ReturnAll(g, order).processing| <= |g.processing|
  {
    if order != [] {
      ReturnAllSmaller(g, order[..|order| - 1]);
      var r := ReturnAll(g, order[..|order| - 1]);
      var id := order[|order| - 1];
      Fewer(r.processing, id);
    }
  }

  lemma Fewer(p: map<Bytes, Message>, id: Bytes)
    ensures (p - {id}).Keys == p.Keys - {id} && |p - {id}| <= |p|
    ensures id in p ==> |p - {id}| == |p| - 1
  {
    assert |p - {id}| == |(p - {id}).Keys| && |p| == |p.Keys|;
    assert (p - {id}).Keys == p.Keys - {id};
  }

  lemma {:induction false} SkipNoHoles(s: Slots)
    requires NoHoles(s)
    ensures NoHoles(Skip(s))
  {
  }

  lemma AskSound(c: Config, g: Group, now: int)
    requires Sound(c, g)
    ensures var a := AskLimiter(g, now);
            Sound(c, a) && Holdings(a) == Holdings(g) && Backlog(a) == Backlog(g) &&
            a.processing == g.processing && a.ready == g.ready
  {
    var a := AskLimiter(g, now);
    ReLimitSound(c, g, g.deficit, a.limiter);
    assert a == g.(deficit := g.deficit, limiter := a.limiter);
  }

  lemma NextSound(c: Config, g: Group, now: int)
    requires Sound(c, g)
    ensures Sound(c, NextDispatchable(c, g, now)) && Holdings(NextDispatchable(c, g, now)) == Holdings(g)
    ensures |g.processing| <= c.parallelism ==> |NextDispatchable(c, g, now).processing| <= c.parallelism
  {
    hide Sound, Holdings, Backlog, Called, Allows, DispatchOne, AskLimiter;
    var a := AskLimiter(g, now);
    AskSound(c, g, now);
    if Blocked(c, g, now) == None {
      DispatchOneSound(c, a, now);
      SoundIsUnique(c, a);
      DispatchOneHolds(c, a, now);
    } else if Blocked(c, g, now) == Some(Empty) {
      ClearSound(c, a);
    }
  }

  lemma NextNoHoles(c: Config, g: Group, now: int)
    requires NoHoles(g.ready)
    ensures NoHoles(NextDispatchable(c, g, now).ready)
  {
    hide Called, Allows, LiveSlots;
    SkipNoHoles(g.ready);
  }

  lemma TriedConserves(c: Config, w: World, now: int, order: seq<Bytes>)
    requires Conserved(c, w)
    ensures Conserved(c, Tried(c, w, now, order))
  {
    hide Sound, Holdings, NextDispatchable, Promote, Blocked;
    PromoteConserves(c, w, now, order);
    NextSound(c, Promote(w.g, now, order), now);
    if w.fromNew {
      NextNoHoles(c, Promote(w.g, now, order), now);
    }
  }

  lemma {:induction false} DispatchNoHoles(c: Config, g: Group, now: int, n: nat)
    requires n <= |Backlog(g)| && NoHoles(g.ready)
    ensures NoHoles(Dispatch(c, g, now, n).ready)
    decreases n
  {
    if n > 0 {
      BacklogAfterOne(c, g, now);
      SkipNoHoles(g.ready);
      DispatchNoHoles(c, DispatchOne(c, g, now), now, n - 1);
    }
  }

  lemma DrainConserves(c: Config, w: World, now: int, order: seq<Bytes>)
    requires Usable(c) && Conserved(c, w)
    ensures Conserved(c, Step(c, w, Drain(now, order)))
  {
    hide Sound, Holdings, Promote, Drained, BatchSize, NoRepeats;
    var p := Promote(w.g, now, order);
    PromoteSound(c, w.g, now, order);
    PromoteConserves(c, w, now, order);
    if PendingCount(p) > 0 {
      SoundCredit(c, p);
      DrainedSound(c, p, now);
      if w.fromNew {
        DrainedNoHoles(c, p, now);
      }
    }
  }

  lemma DrainedNoHoles(c: Config, g: Group, now: int)
    requires Credit(c, g) >= 0 && NoHoles(g.ready)
    ensures NoHoles(Drained(c, g, now).ready)
  {
    DispatchNoHoles(c, g, now, BatchSize(c, g, now));
    hide Dispatch, BatchSize, RoundStop, CalledTimes;
  }

  lemma AckConserves(c: Config, w: World, id: Bytes)
    requires Conserved(c, w)
    ensures Conserved(c, Acked(w, id))
  {
    hide Sound, Holdings, Ids;
    CompleteSound(c, w.g, id);
    CompleteHolds(w.g, id);
    Fewer(w.g.processing, id);
    InFlightKeyed(c, w.g, id);
    if id in w.g.processing {
      HeldInFlight(w.g, id);
      GoneGrows(w.gone, w.g.processing[id].(state := Done));
    }
  }

  lemma HeldInFlight(g: Group, id: Bytes)
    requires id in g.processing
    ensures id in Holdings(g)
  {
    assert id in multiset(g.processing.Keys);
  }

  lemma GoneGrows(gone: seq<Message>, m: Message)
    ensures multiset(Ids(gone + [m])) == multiset(Ids(gone)) + multiset{m.id}
  {
    IdsAppend(gone, [m]);
    IdsOne(m);
  }

  lemma NackConserves(c: Config, w: World, id: Bytes, error: Bytes, now: int)
    requires Conserved(c, w)
    ensures Conserved(c, Nacked(c, w, id, error, now))
  {
    hide Sound, Holdings, Ids, Insert, Rescheduled;
    FailSound(c, w.g, id, error, now);
    if id in w.g.processing {
      InFlightKeyed(c, w.g, id);
      FailHolds(c, w.g, id, error, now);
      Fewer(w.g.processing, id);
      HeldInFlight(w.g, id);
      GoneGrows(w.gone, Exhausted(c, w.g.processing[id], error));
    }
  }

  lemma PublishConserves(c: Config, w: World, id: Bytes, payload: Bytes, now: int)
    requires Usable(c) && Conserved(c, w) && id !in w.accepted
    ensures Conserved(c, Step(c, w, Publish(id, payload, now)))
  {
    hide Sound, Holdings, HasRoom;
    var m := NewMessage(id, payload, now);
    NotHeldUnlessAccepted(c, w, id);
    EnqueueSound(c, w.g, m);
    EnqueueHolds(c, w.g, m);
  }

  /** Every operation conserves messages. */
  lemma StepConserves(c: Config, w: World, op: Op)
    requires Usable(c) && Conserved(c, w) && Enabled(c, w, op)
    ensures Conserved(c, Step(c, w, op))
  {
    match op
    case Publish(id, payload, now) => PublishConserves(c, w, id, payload, now);
    case Drain(now, order) => DrainConserves(c, w, now, order);
    case TryDispatch(now, order) => TriedConserves(c, w, now, order);
    case Ack(id) => AckConserves(c, w, id);
    case AckAndNext(id, now, order) =>
      AckConserves(c, w, id);
      TriedConserves(c, Acked(w, id), now, order);
    case Nack(id, error, now) => NackConserves(c, w, id, error, now);
    case NackAndNext(id, error, now, order) =>
      NackConserves(c, w, id, error, now);
      TriedConserves(c, Nacked(c, w, id, error, now), now, order);
    case GiveBack(id) => GiveBackConserves(c, w, id);
    case Sweep(now, order) => SweepConserves(c, w, order);
  }

  lemma GiveBackConserves(c: Config, w: World, id: Bytes)
    requires Conserved(c, w)
    ensures Conserved(c, w.(g := ReturnToPending(w.g, id)))
  {
    ReturnSound(c, w.g, id);
    InFlightKeyed(c, w.g, id);
    ReturnHolds(w.g, id);
    Fewer(w.g.processing, id);
    hide Sound, Holdings;
  }

  lemma SweepConserves(c: Config, w: World, order: seq<Bytes>)
    requires Conserved(c, w)
    ensures Conserved(c, w.(g := ReturnAll(w.g, order)))
  {
    ReturnAllSound(c, w.g, order);
    ReturnAllSmaller(w.g, order);
    hide Sound, Holdings;
  }

  // ---------------------------------------------------------------------------
  // Runs
  // ---------------------------------------------------------------------------

  ghost predicate CanRun(c: Config, w: World, ops: seq<Op>)
    requires Usable(c) && Conserved(c, w)
    decreases |ops|
  {
    ops == [] ||
    (Enabled(c, w, ops[0]) &&
     (StepConserves(c, w, ops[0]); CanRun(c, Step(c, w, ops[0]), ops[1..])))
  }

  ghost function Run(c: Config, w: World, ops: seq<Op>): (r: World)
    requires Usable(c) && Conserved(c, w) && CanRun(c, w, ops)
    ensures Conserved(c, r)
    decreases |ops|
  {
    if ops == [] then w
    else
      StepConserves(c, w, ops[0]);
      Run(c, Step(c, w, ops[0]), ops[1..])
  }

  /** A new group, nothing published yet. */
  ghost function NewWorld(c: Config, limiter: Option<Limiter>): (w: World)
    requires Usable(c)
    ensures Conserved(c, w) && w.fromNew
  {
    var w := World(NewGroup(limiter), [], [], [], 0, 0, true);
    assert Holdings(w.g) == multiset{};
    w
  }

  /** Where a message is. */
  datatype Place = InBacklog | InDelayed | InProcessing | Left | Nowhere

  ghost predicate At(w: World, id: Bytes, p: Place) {
    match p
    case InBacklog => id in Ids(Backlog(w.g))
    case InDelayed => id in Ids(w.g.delayed)
    case InProcessing => id in w.g.processing
    case Left => id in Ids(w.gone)
    case Nowhere => id !in w.accepted
  }

  /** A message is in exactly one place. */
  ghost predicate InOnePlace(w: World, id: Bytes) {
    exists p :: At(w, id, p) && forall q :: At(w, id, q) ==> q == p
  }

  lemma CountOne(s: seq<Bytes>, id: Bytes)
    requires NoRepeats(s) && id in s
    ensures multiset(s)[id] == 1
  {
    var i :| 0 <= i < |s| && s[i] == id;
    assert s == s[..i] + [s[i]] + s[i + 1..];
    assert id !in multiset(s[..i]) && id !in multiset(s[i + 1..]);
  }

  /** In every reachable world each accepted message is in exactly one place, and no
      other message is in any. */
  lemma ExactlyOnePlace(c: Config, w: World, id: Bytes)
    requires Conserved(c, w)
    ensures InOnePlace(w, id)
  {
    var a, b, p, d := multiset(Ids(Backlog(w.g))), multiset(Ids(w.g.delayed)),
                      multiset(w.g.processing.Keys), multiset(Ids(w.gone));
    var total := multiset(w.accepted);
    assert total == a + b + p + d;
    assert total[id] == a[id] + b[id] + p[id] + d[id];
    if id in w.accepted {
      CountOne(w.accepted, id);
      assert id in a <==> id in Ids(Backlog(w.g));
      assert id in b <==> id in Ids(w.g.delayed);
      assert id in d <==> id in Ids(w.gone);
      assert id in p <==> id in w.g.processing;
      hide Holdings, Backlog, Sound;
      if id in a {
        assert At(w, id, InBacklog);
      } else if id in b {
        assert At(w, id, InDelayed);
      } else if id in p {
        assert At(w, id, InProcessing);
      } else {
        assert At(w, id, Left);
      }
    } else {
      assert id !in total;
      assert At(w, id, Nowhere);
      assert id !in a && id !in b && id !in p && id !in d;
    }
  }

  /** Cleared slots, which replay leaves and pendingCount counts. */
  function Holes(s: Slots): nat {
    if s == [] then 0 else Holes(s[1..]) + if s[0].None? then 1 else 0
  }

  /** The counters add up: pending plus in flight is accepted minus settled, plus the
      slots that replay cleared.  A group that began empty has none. */
  lemma CountsAddUp(c: Config, w: World)
    requires Conserved(c, w)
    ensures PendingCount(w.g) + |w.g.processing| == |w.accepted| - |w.gone| + Holes(w.g.ready)
    ensures w.fromNew ==> PendingCount(w.g) + |w.g.processing| == |w.accepted| - |w.gone|
  {
    LiveCount(w.g.urgent);
    LiveCount(w.g.ready);
    NoneCleared(w.g.urgent);
    if w.fromNew {
      NoneCleared(w.g.ready);
    }
    var a, b, p, d := multiset(Ids(Backlog(w.g))), multiset(Ids(w.g.delayed)),
                      multiset(w.g.processing.Keys), multiset(Ids(w.gone));
    hide LiveSlots, Holes, Sound;
    assert |multiset(w.accepted)| == |a + b + p + d| == |a| + |b| + |p| + |d|;
    assert |p| == |w.g.processing.Keys| == |w.g.processing|;
  }

  lemma {:induction false} NoneCleared(s: Slots)
    requires NoHoles(s)
    ensures Holes(s) == 0
  {
    if s != [] {
      NoneCleared(s[1..]);
    }
  }

  lemma {:induction false} LiveCount(s: Slots)
    ensures |LiveSlots(s)| + Holes(s) == |s|
  {
    if s != [] {
      LiveCount(s[1..]);
    }
  }

  lemma {:induction false} RunKeepsOrigin(c: Config, w: World, ops: seq<Op>)
    requires Usable(c) && Conserved(c, w) && CanRun(c, w, ops)
    ensures Run(c, w, ops).fromNew == w.fromNew
    decreases |ops|
  {
    hide Conserved;
    if ops != [] {
      StepConserves(c, w, ops[0]);
      ConservedSound(c, w);
      RunKeepsOrigin(c, Step(c, w, ops[0]), ops[1..]);
    }
  }

  lemma ConservedSound(c: Config, w: World)
    requires Conserved(c, w)
    ensures Sound(c, w.g)
  {
  }

  /** A rebuilt group goes on from what it holds. */
  function Resumed(g: Group, held: seq<Bytes>): World {
    World(g, held, [], [], 0, 0, false)
  }

  /** Message conservation over every run, from a new group or from a rebuilt one: each
      message accepted or rebuilt is waiting, delayed, in flight or gone, in exactly one
      of them, with the state field to match and attempts below the limit while it
      lives; and pending plus in flight is accepted minus settled plus cleared slots. */
  lemma RunsConserveFrom(c: Config, w: World, ops: seq<Op>)
    requires Usable(c) && Conserved(c, w) && CanRun(c, w, ops)
    ensures var r := Run(c, w, ops);
            PendingCount(r.g) + |r.g.processing| == |r.accepted| - |r.gone| + Holes(r.g.ready) &&
            (forall id :: InOnePlace(r, id)) &&
            AllWait(c, Backlog(r.g)) && AllWait(c, r.g.delayed) && AllInFlight(c, r.g.processing) &&
            (forall i :: 0 <= i < |r.gone| ==> LeftProperly(c, r.gone[i]))
  {
    var r := Run(c, w, ops);
    CountsAddUp(c, r);
    forall id ensures InOnePlace(r, id) {
      ExactlyOnePlace(c, r, id);
    }
    hide Run, CanRun, Holdings, Backlog, At, InOnePlace, Holes, PendingCount;
  }

  /** A rebuilt group is one to go on from: any sound group, with its ids listed once. */
  lemma ResumedConserves(c: Config, g: Group, held: seq<Bytes>)
    requires Sound(c, g) && Holdings(g) == multiset(held)
    ensures Conserved(c, Resumed(g, held))
  {
    hide Holdings;
    var w := Resumed(g, held);
    forall i, j | 0 <= i < j < |held| ensures held[i] != held[j] {
      Twice(held, i, j);
      assert Holdings(g)[held[i]] <= 1;
    }
    assert Ids(w.gone) == [];
  }

  lemma Twice(s: seq<Bytes>, i: nat, j: nat)
    requires i < j < |s|
    ensures s[i] == s[j] ==> multiset(s)[s[i]] >= 2
  {
    assert s == s[..i] + [s[i]] + s[i + 1..j] + [s[j]] + s[j + 1..];
  }

  /** From a new group the counters add up without correction, and the parallelism is
      respected throughout. */
  lemma RunsConserve(c: Config, limiter: Option<Limiter>, ops: seq<Op>)
    requires Usable(c) && CanRun(c, NewWorld(c, limiter), ops)
    ensures var w := Run(c, NewWorld(c, limiter), ops);
            PendingCount(w.g) + |w.g.processing| == |w.accepted| - |w.gone| &&
            |w.g.processing| <= c.parallelism &&
            (forall id :: InOnePlace(w, id)) &&
            AllWait(c, Backlog(w.g)) && AllWait(c, w.g.delayed) && AllInFlight(c, w.g.processing) &&
            (forall i :: 0 <= i < |w.gone| ==> LeftProperly(c, w.gone[i]))
  {
    var w := Run(c, NewWorld(c, limiter), ops);
    RunKeepsOrigin(c, NewWorld(c, limiter), ops);
    CountsAddUp(c, w);
    RunsConserveFrom(c, NewWorld(c, limiter), ops);
    hide Run, CanRun, Holdings, Backlog, At, InOnePlace, Holes, PendingCount, Sound;
  }
}
