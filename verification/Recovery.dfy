/** Rebuilding a queue from its log: the handlers, and where each message ends up. */
module Recovery {
  import opened Bytes
  import opened Messages
  import opened RateLimiter
  import opened Record
  import opened GroupSpec
  import opened GroupConservation

  /** A queue being rebuilt: its groups by key. */
  type Queue = map<Bytes, Group>

  /** The configuration and limiter of each group key. */
  datatype Setup = Setup(config: Bytes -> Config, limiter: Bytes -> Option<Limiter>)

  // ---------------------------------------------------------------------------
  // The handlers
  // ---------------------------------------------------------------------------

  function GroupOr(s: Setup, q: Queue, key: Bytes): Group {
    if key in q then q[key] else NewGroup(s.limiter(key))
  }

  /** PublishWithID: the group is created on demand, then the depth limit applies. */
  function OnPublish(s: Setup, q: Queue, key: Bytes, id: Bytes, payload: Bytes, now: int): Queue {
    var g := GroupOr(s, q, key);
    q[key := if HasRoom(s.config(key), g) then Enqueue(g, NewMessage(id, payload, now)) else g]
  }

  function OnLease(s: Setup, q: Queue, key: Bytes, id: Bytes, now: int): Queue {
    if key in q then q[key := ReplayLease(s.config(key), q[key], id, now)] else q
  }

  /** Complete, and if it reports an error, RemoveMessage. */
  function OnAck(q: Queue, key: Bytes, id: Bytes): Queue {
    if key !in q then q
    else if id in q[key].processing then q[key := Complete(q[key], id)]
    else q[key := RemoveMessage(q[key], id)]
  }

  /** Fail; it reports an error only for an unknown group, which holds nothing to remove. */
  function OnNack(s: Setup, q: Queue, key: Bytes, id: Bytes, error: Bytes, now: int): Queue {
    if key !in q then q else q[key := Fail(s.config(key), q[key], id, error, now)]
  }

  function OnExpire(q: Queue, key: Bytes, id: Bytes): Queue {
    if key !in q then q else q[key := Complete(q[key], id)]
  }

  const REPLAYED_NACK: Bytes := [114, 101, 112, 108, 97, 121, 101, 100, 32, 78, 65, 67, 75]

  function Apply(s: Setup, q: Queue, e: Event, now: int): Queue {
    if e.kind == PUBLISH then OnPublish(s, q, e.group, e.msgID, e.payload, now)
    else if e.kind == LEASE then OnLease(s, q, e.group, e.msgID, now)
    else if e.kind == ACK then OnAck(q, e.group, e.msgID)
    else if e.kind == NACK then OnNack(s, q, e.group, e.msgID, REPLAYED_NACK, now)
    else if e.kind == EXPIRE then OnExpire(q, e.group, e.msgID)
    else q
  }

  /** Replaying events, each handled at its own time. */
  function ReplayAll(s: Setup, es: seq<Event>, clock: seq<int>): Queue
    requires |clock| == |es|
    decreases |es|
  {
    if es == [] then map[]
    else
      var n := |es| - 1;
      Apply(s, ReplayAll(s, es[..n], clock[..n]), es[n], clock[n])
  }

  /** The loop that drives the handlers: each record moves its own message and no
      other, and so each message ends where its own records put it. */
  class RecoveryHandler {
    const setup: Setup
    var queue: Queue

    constructor (setup: Setup)
      ensures this.setup == setup && queue == map[]
    {
      this.setup, queue := setup, map[];
    }

    method Handle(e: Event, now: int)
      modifies this
      ensures queue == Apply(setup, old(queue), e, now)
      ensures AllUsable(setup) && AllRebuilt(setup, old(queue)) && Acceptable(setup, old(queue), e) ==>
                AllRebuilt(setup, queue) && Moves(setup, old(queue), queue, e)
      ensures e.kind == PUBLISH && HasRoom(setup.config(e.group), GroupOr(setup, old(queue), e.group)) ==>
                e.group in queue && queue[e.group].ready ==
                GroupOr(setup, old(queue), e.group).ready + [Some(Message(e.msgID, e.payload, Pending, 0, now, []))]
    {
      hide AllUsable, AllRebuilt, Acceptable, Moves;
      var key, id := e.group, e.msgID;
      if AllUsable(setup) && AllRebuilt(setup, queue) && Acceptable(setup, queue, e) {
        ApplyMoves(setup, queue, e, now);
      }
      if e.kind == PUBLISH {
        queue := OnPublish(setup, queue, key, id, e.payload, now);
      } else if e.kind == LEASE {
        queue := OnLease(setup, queue, key, id, now);
      } else if e.kind == ACK {
        queue := OnAck(queue, key, id);
      } else if e.kind == NACK {
        queue := OnNack(setup, queue, key, id, REPLAYED_NACK, now);
      } else if e.kind == EXPIRE {
        queue := OnExpire(queue, key, id);
      }
    }

    method Replay(es: seq<Event>, clock: seq<int>)
      requires |clock| == |es| && queue == map[]
      modifies this
      ensures queue == ReplayAll(setup, es, clock)
      ensures AllUsable(setup) && DistinctPublishes(es) && Fits(setup, es) ==>
                AllRebuilt(setup, queue) && Placed(setup, queue, es)
      ensures AllUsable(setup) && DistinctPublishes(es) ==>
                AllRebuilt(setup, queue) && Placed(setup, queue, Fitting(setup, es))
    {
      hide AllUsable, AllRebuilt, DistinctPublishes, Fits, Placed, Fitting;
      if AllUsable(setup) && DistinctPublishes(es) {
        ReplayWithLimit(setup, es, clock);
        FittingIffFits(setup, es);
      }
      for i := 0 to |es|
        invariant queue == ReplayAll(setup, es[..i], clock[..i])
      {
        assert es[..i + 1][..i] == es[..i] && clock[..i + 1][..i] == clock[..i];
        Handle(es[i], clock[i]);
      }
      assert es[..|es|] == es && clock[..|es|] == clock;
    }
  }

  // ---------------------------------------------------------------------------
  // One message
  // ---------------------------------------------------------------------------

  /** What the log says of one message. */
  datatype Fate = Unpublished | Waiting | Out | Retrying | Ended

  /** One message's own automaton. */
  function Next(c: Config, f: Fate, kind: Byte): Fate {
    if kind == PUBLISH && f == Unpublished then Waiting
    else if kind == LEASE && f == Waiting then Out
    else if kind == ACK && (f == Waiting || f == Out) then Ended
    else if kind == NACK && f == Out then (if c.maxAttempts > 1 then Retrying else Ended)
    else if kind == EXPIRE && f == Out then Ended
    else f
  }

  function FateOf(c: Config, es: seq<Event>, key: Bytes, id: Bytes): Fate {
    if es == [] then Unpublished
    else
      var n := |es| - 1;
      var f := FateOf(c, es[..n], key, id);
      if es[n].group == key && es[n].msgID == id then Next(c, f, es[n].kind) else f
  }

  /** Where a group holds a message. */
  datatype Spot = AtReady | AtFlight | AtDelayed | AtNowhere

  function ReadyIds(g: Group): set<Bytes> {
    set id | id in Ids(LiveSlots(g.ready))
  }

  function DelayedIds(g: Group): set<Bytes> {
    set id | id in Ids(g.delayed)
  }

  function SpotIn(g: Group, id: Bytes): Spot {
    if id in g.processing then AtFlight
    else if id in DelayedIds(g) then AtDelayed
    else if id in ReadyIds(g) then AtReady
    else AtNowhere
  }

  function SpotOf(q: Queue, key: Bytes, id: Bytes): Spot {
    if key in q then SpotIn(q[key], id) else AtNowhere
  }

  function Expected(f: Fate): Spot {
    match f
    case Unpublished => AtNowhere
    case Waiting => AtReady
    case Out => AtFlight
    case Retrying => AtDelayed
    case Ended => AtNowhere
  }

  // ---------------------------------------------------------------------------
  // The groups of a queue being rebuilt
  // ---------------------------------------------------------------------------

  ghost predicate NoAttempts(ms: seq<Message>) {
    forall i :: 0 <= i < |ms| ==> ms[i].attempts == 0
  }

  /** Sound, nothing urgent, and nothing attempted outside the retry heap. */
  ghost predicate Rebuilt(c: Config, g: Group) {
    Sound(c, g) && g.urgent == [] && NoAttempts(LiveSlots(g.ready)) &&
    (forall id :: id in g.processing ==> g.processing[id].attempts == 0)
  }

  lemma {:induction false} ClearSlot(s: Slots, i: nat) returns (a: seq<Message>, b: seq<Message>)
    requires i < |s| && s[i].Some?
    ensures LiveSlots(s) == a + [s[i].value] + b && LiveSlots(s[i := None]) == a + b
  {
    if i == 0 {
      a, b := [], LiveSlots(s[1..]);
      assert s[0 := None][1..] == s[1..];
    } else {
      var x, y := ClearSlot(s[1..], i - 1);
      a, b := (if s[0].Some? then [s[0].value] else []) + x, y;
      assert s[i := None][1..] == s[1..][i - 1 := None];
    }
  }

  lemma {:induction false} FindLive(s: Slots, id: Bytes)
    ensures Find(s, id) < |s| <==> id in Ids(LiveSlots(s))
  {
    if s != [] {
      FindLive(s[1..], id);
      var head := if s[0].Some? then [s[0].value] else [];
      assert LiveSlots(s) == head + LiveSlots(s[1..]);
      IdsAppend(head, LiveSlots(s[1..]));
      if s[0].Some? {
        IdsOne(s[0].value);
      }
    }
  }

  // What each handler does to one group: it stays rebuilt, the message moves as its
  // automaton says, and every other message stays where it is.

  ghost predicate OthersStay(g: Group, r: Group, id: Bytes) {
    forall other :: other != id ==> SpotIn(r, other) == SpotIn(g, other)
  }

  lemma SpotHeld(g: Group, id: Bytes)
    requires g.urgent == []
    ensures SpotIn(g, id) == AtNowhere <==> id !in Holdings(g)
  {
    var a, b, p := multiset(Ids(Backlog(g))), multiset(Ids(g.delayed)), multiset(g.processing.Keys);
    assert Backlog(g) == LiveSlots(g.ready);
    assert id in Ids(Backlog(g)) <==> id in a;
    assert id in Ids(g.delayed) <==> id in b;
    assert id in g.processing <==> id in p;
    assert id in Holdings(g) <==> id in a || id in b || id in p;
  }

  /** No message is in two spots. */
  lemma OneSpot(c: Config, g: Group, id: Bytes)
    requires Sound(c, g) && g.urgent == []
    ensures id in g.processing ==> id !in DelayedIds(g) && id !in ReadyIds(g)
    ensures id in ReadyIds(g) ==> id !in DelayedIds(g)
  {
    assert Backlog(g) == LiveSlots(g.ready);
    if id in g.processing {
      InFlightOnly(g, id);
    } else if id in ReadyIds(g) {
      var i :| 0 <= i < |Backlog(g)| && Ids(Backlog(g))[i] == id;
      BacklogNotInFlight(g, i);
    }
  }

  // Publication

  lemma EnqueueIds(g: Group, m: Message)
    ensures ReadyIds(Enqueue(g, m)) == ReadyIds(g) + {m.id}
    ensures DelayedIds(Enqueue(g, m)) == DelayedIds(g)
    ensures LiveSlots(Enqueue(g, m).ready) == LiveSlots(g.ready) + [m]
  {
    LiveSnoc(g.ready, m);
    hide LiveSlots;
    IdsAppend(LiveSlots(g.ready), [m]);
    IdsOne(m);
  }

  lemma PublishRebuilds(c: Config, g: Group, id: Bytes, payload: Bytes, now: int)
    requires Usable(c) && Rebuilt(c, g) && SpotIn(g, id) == AtNowhere
    ensures var r := Enqueue(g, NewMessage(id, payload, now));
            Rebuilt(c, r) && SpotIn(r, id) == AtReady && OthersStay(g, r, id)
  {
    hide Sound, LiveSlots, Holdings, NoAttempts;
    var m := NewMessage(id, payload, now);
    SpotHeld(g, id);
    EnqueueIds(g, m);
    EnqueueSound(c, g, m);
    hide ReadyIds, DelayedIds;
    NoAttemptsIn(LiveSlots(g.ready));
    NoAttemptsIn(LiveSlots(g.ready) + [m]);
  }

  // Settlement

  lemma CompleteRebuilds(c: Config, g: Group, id: Bytes)
    requires Rebuilt(c, g)
    ensures var r := Complete(g, id);
            Rebuilt(c, r) && OthersStay(g, r, id) &&
            SpotIn(r, id) == if id in g.processing then AtNowhere else SpotIn(g, id)
  {
    hide Sound, LiveSlots;
    CompleteSound(c, g, id);
    OneSpot(c, g, id);
    var r := Complete(g, id);
    assert ReadyIds(r) == ReadyIds(g) && DelayedIds(r) == DelayedIds(g);
    hide ReadyIds, DelayedIds;
  }

  /** The ready slot of a message, cleared. */
  function WithoutReady(g: Group, id: Bytes): Group
    requires Find(g.ready, id) < |g.ready|
  {
    g.(ready := g.ready[Find(g.ready, id) := None])
  }

  lemma ClearedIds(s: Slots, i: nat)
    requires i < |s| && s[i].Some?
    ensures multiset(Ids(LiveSlots(s))) == multiset(Ids(LiveSlots(s[i := None]))) + multiset{s[i].value.id}
    ensures s[i].value in LiveSlots(s)
    ensures forall m :: m in LiveSlots(s[i := None]) ==> m in LiveSlots(s)
  {
    hide LiveSlots;
    var m := s[i].value;
    var a, b := ClearSlot(s, i);
    IdsAppend(a, [m]);
    IdsAppend(a + [m], b);
    IdsAppend(a, b);
    IdsOne(m);
  }

  lemma TakeOut(g: Group, id: Bytes)
    requires g.urgent == [] && Find(g.ready, id) < |g.ready|
    ensures var out := WithoutReady(g, id);
            Holdings(g) == Holdings(out) + multiset{id} &&
            multiset(Ids(LiveSlots(g.ready))) == multiset(Ids(LiveSlots(out.ready))) + multiset{id} &&
            g.ready[Find(g.ready, id)].value in LiveSlots(g.ready) &&
            (forall m :: m in LiveSlots(out.ready) ==> m in LiveSlots(g.ready))
  {
    hide LiveSlots, Ids, Backlog;
    ClearedIds(g.ready, Find(g.ready, id));
    ReadyBacklog(g);
    ReadyBacklog(WithoutReady(g, id));
  }

  lemma TakeOutUnique(h: multiset<Bytes>, k: multiset<Bytes>, id: Bytes)
    requires Unique(h) && h == k + multiset{id}
    ensures Unique(k) && id !in k
  {
    assert forall x :: h[x] == k[x] + (if x == id then 1 else 0);
  }

  lemma RemovedIds(a: seq<Bytes>, b: seq<Bytes>, id: Bytes)
    requires multiset(a) == multiset(b) + multiset{id} && id !in b
    ensures (set x | x in b) == (set x | x in a) - {id} && id in a
  {
    forall x ensures x in b <==> x in a && x != id {
      assert multiset(a)[x] == multiset(b)[x] + (if x == id then 1 else 0);
      assert x in a <==> x in multiset(a);
      assert x in b <==> x in multiset(b);
    }
    assert id in multiset(a);
  }

  lemma TakeOutIds(c: Config, g: Group, id: Bytes)
    requires Sound(c, g) && g.urgent == [] && Find(g.ready, id) < |g.ready|
    ensures var out := WithoutReady(g, id);
            ReadyIds(out) == ReadyIds(g) - {id} && DelayedIds(out) == DelayedIds(g) &&
            id in ReadyIds(g) && Unique(Holdings(out))
  {
    hide LiveSlots, Holdings, Find;
    TakeOut(g, id);
    var out := WithoutReady(g, id);
    TakeOutUnique(Holdings(g), Holdings(out), id);
    SpotHeld(out, id);
    NowhereNotReady(out, id);
    RemovedIds(Ids(LiveSlots(g.ready)), Ids(LiveSlots(out.ready)), id);
  }

  lemma NowhereNotReady(g: Group, id: Bytes)
    requires SpotIn(g, id) == AtNowhere
    ensures id !in Ids(LiveSlots(g.ready))
  {
    assert id !in ReadyIds(g) || id in g.processing || id in DelayedIds(g);
  }

  lemma ReadyBacklog(g: Group)
    requires g.urgent == []
    ensures Backlog(g) == LiveSlots(g.ready)
  {
  }

  lemma NoAttemptsIn(ms: seq<Message>)
    ensures NoAttempts(ms) <==> forall m :: m in ms ==> m.attempts == 0
  {
  }

  lemma TakeOutRebuilds(c: Config, g: Group, id: Bytes)
    requires Rebuilt(c, g) && Find(g.ready, id) < |g.ready|
    ensures Rebuilt(c, WithoutReady(g, id))
    ensures var m := g.ready[Find(g.ready, id)].value; Waits(c, m) && m.attempts == 0
  {
    hide LiveSlots, Backlog, Holdings, Ascending, Find, Unique, AllWait, NoAttempts, Ids;
    var out := WithoutReady(g, id);
    TakeOut(g, id);
    TakeOutIds(c, g, id);
    ReadyBacklog(g);
    ReadyBacklog(out);
    AllWaitIn(c, LiveSlots(g.ready));
    AllWaitIn(c, LiveSlots(out.ready));
    NoAttemptsIn(LiveSlots(g.ready));
    NoAttemptsIn(LiveSlots(out.ready));
  }

  lemma RemoveRebuilds(c: Config, g: Group, id: Bytes)
    requires Rebuilt(c, g) && id !in g.processing
    ensures var r := RemoveMessage(g, id);
            Rebuilt(c, r) && OthersStay(g, r, id) &&
            SpotIn(r, id) == if SpotIn(g, id) == AtReady then AtNowhere else SpotIn(g, id)
  {
    hide Sound, LiveSlots, NoAttempts;
    FindLive(g.ready, id);
    assert g.processing - {id} == g.processing;
    if Find(g.ready, id) < |g.ready| {
      TakeOutRebuilds(c, g, id);
      TakeOutIds(c, g, id);
      OneSpot(c, g, id);
      hide ReadyIds, DelayedIds;
    }
  }

  // Leases

  lemma LeaseRebuilds(c: Config, g: Group, id: Bytes, now: int)
    requires Rebuilt(c, g)
    ensures var r := ReplayLease(c, g, id, now);
            Rebuilt(c, r) && OthersStay(g, r, id) &&
            SpotIn(r, id) == if SpotIn(g, id) == AtReady then AtFlight else SpotIn(g, id)
  {
    hide Sound, LiveSlots, NoAttempts, Lease;
    FindLive(g.ready, id);
    if Find(g.ready, id) < |g.ready| {
      TakeOutRebuilds(c, g, id);
      TakeOutIds(c, g, id);
      OneSpot(c, g, id);
      hide ReadyIds, DelayedIds;
      PutInFlight(c, WithoutReady(g, id), g.ready[Find(g.ready, id)].value, now);
    }
  }

  /** Putting a message that is held nowhere into flight. */
  lemma PutInFlight(c: Config, g: Group, m: Message, now: int)
    requires Rebuilt(c, g) && SpotIn(g, m.id) == AtNowhere && Waits(c, m) && m.attempts == 0
    ensures var r := g.(processing := g.processing[m.id := Lease(c, m, now)]);
            Rebuilt(c, r) && SpotIn(r, m.id) == AtFlight && OthersStay(g, r, m.id)
  {
    var r := g.(processing := g.processing[m.id := Lease(c, m, now)]);
    SpotHeld(g, m.id);
    FlightHolds(g, m.id, Lease(c, m, now));
    UniqueMore(Holdings(g), m.id);
    assert Backlog(r) == Backlog(g);
    assert ReadyIds(r) == ReadyIds(g) && DelayedIds(r) == DelayedIds(g);
    hide Holdings, Ascending, LiveSlots, Unique, ReadyIds, DelayedIds, AllWait;
  }

  lemma FlightHolds(g: Group, id: Bytes, m: Message)
    requires id !in g.processing
    ensures Holdings(g.(processing := g.processing[id := m])) == Holdings(g) + multiset{id}
  {
    var p := g.processing[id := m];
    assert p.Keys == g.processing.Keys + {id};
    assert multiset(p.Keys) == multiset(g.processing.Keys) + multiset{id};
    assert Backlog(g.(processing := p)) == Backlog(g);
  }

  lemma UniqueMore(h: multiset<Bytes>, id: Bytes)
    requires Unique(h) && id !in h
    ensures Unique(h + multiset{id})
  {
    assert forall k :: (h + multiset{id})[k] == h[k] + (if k == id then 1 else 0);
  }

  // Failures

  lemma FailIds(c: Config, g: Group, id: Bytes, error: Bytes, now: int)
    requires id in g.processing && g.processing[id].id == id
    ensures var r := Fail(c, g, id, error, now);
            ReadyIds(r) == ReadyIds(g) && r.urgent == g.urgent && r.ready == g.ready &&
            DelayedIds(r) == DelayedIds(g) + (if Retries(c, g.processing[id]) then {id} else {})
  {
    hide RetryDelay, Insert, Ids, LiveSlots;
    var m := g.processing[id];
    if Retries(c, m) {
      var again := Rescheduled(c, m, error, now);
      InsertIds(g.delayed, again);
      AddedId(Ids(Insert(g.delayed, again)), Ids(g.delayed), id);
    }
  }

  lemma AddedId(a: seq<Bytes>, b: seq<Bytes>, id: Bytes)
    requires multiset(a) == multiset(b) + multiset{id}
    ensures (set x | x in a) == (set x | x in b) + {id}
  {
    forall x ensures x in a <==> x in b || x == id {
      assert x in a <==> x in multiset(a);
      assert x in b <==> x in multiset(b);
    }
  }

  lemma NackRebuilds(c: Config, g: Group, id: Bytes, error: Bytes, now: int)
    requires Rebuilt(c, g)
    ensures var r := Fail(c, g, id, error, now);
            Rebuilt(c, r) && OthersStay(g, r, id) &&
            SpotIn(r, id) == if id !in g.processing then SpotIn(g, id)
                             else if c.maxAttempts > 1 then AtDelayed else AtNowhere
  {
    hide Sound, LiveSlots, Insert, Rescheduled, NoAttempts;
    FailSound(c, g, id, error, now);
    if id in g.processing {
      InFlightKeyed(c, g, id);
      OneSpot(c, g, id);
      FailIds(c, g, id, error, now);
      hide ReadyIds, DelayedIds;
    }
  }

  // ---------------------------------------------------------------------------
  // Replay decomposes per message
  // ---------------------------------------------------------------------------

  ghost predicate AllRebuilt(s: Setup, q: Queue) {
    forall key :: key in q ==> Rebuilt(s.config(key), q[key])
  }

  predicate IsFor(e: Event, key: Bytes, id: Bytes) {
    e.group == key && e.msgID == id
  }

  /** No two PUBLISH records name the same message: ids are generated once. */
  ghost predicate DistinctPublishes(es: seq<Event>) {
    forall i, j :: 0 <= i < j < |es| && es[i].kind == PUBLISH && es[j].kind == PUBLISH ==>
      !(es[i].group == es[j].group && es[i].msgID == es[j].msgID)
  }

  function CountOf(es: seq<Event>, key: Bytes, kind: Byte): nat {
    if es == [] then 0
    else
      var e := es[|es| - 1];
      CountOf(es[..|es| - 1], key, kind) + (if e.group == key && e.kind == kind then 1 else 0)
  }

  /** The messages of a group that wait for a retry after these records. */
  function RetryingIds(c: Config, es: seq<Event>, key: Bytes): set<Bytes> {
    set i | 0 <= i < |es| && es[i].group == key && FateOf(c, es, key, es[i].msgID) == Retrying :: es[i].msgID
  }

  /** The depth limit leaves room for record i.  Every earlier publish of the group has
      a slot, cleared or not, and every message waiting for a retry counts again. */
  predicate RoomAt(s: Setup, es: seq<Event>, i: nat)
    requires i < |es|
  {
    var key := es[i].group;
    var c := s.config(key);
    es[i].kind == PUBLISH && c.maxPending > 0 ==>
      CountOf(es[..i], key, PUBLISH) + |RetryingIds(c, es[..i], key)| < c.maxPending
  }

  /** There is room for every publish of the log. */
  ghost predicate Fits(s: Setup, es: seq<Event>) {
    forall i: nat | i < |es| :: RoomAt(s, es, i)
  }

  /** A group has one slot for each of its publishes. */
  ghost predicate Slotted(q: Queue, es: seq<Event>) {
    forall key :: CountOf(es, key, PUBLISH) == SlotCount(q, key)
  }

  function SlotCount(q: Queue, key: Bytes): nat {
    if key in q then |q[key].ready| else 0
  }

  ghost predicate AllUsable(s: Setup) {
    forall key :: Usable(s.config(key))
  }

  /** Where every message of the queue is, according to its own records. */
  ghost predicate Placed(s: Setup, q: Queue, es: seq<Event>) {
    forall key, id :: SpotOf(q, key, id) == Expected(FateOf(s.config(key), es, key, id))
  }

  lemma NewGroupRebuilt(c: Config, limiter: Option<Limiter>, id: Bytes)
    ensures Rebuilt(c, NewGroup(limiter)) && SpotIn(NewGroup(limiter), id) == AtNowhere
  {
    var g := NewGroup(limiter);
    assert Holdings(g) == multiset{};
  }

  /** A handled event moves its own message as the automaton says and no other. */
  ghost predicate Moves(s: Setup, q: Queue, r: Queue, e: Event) {
    forall key, id ::
      SpotOf(r, key, id) ==
        if IsFor(e, key, id) then NextSpot(s.config(key), SpotOf(q, key, id), e.kind) else SpotOf(q, key, id)
  }

  function NextSpot(c: Config, p: Spot, kind: Byte): Spot {
    if kind == PUBLISH && p == AtNowhere then AtReady
    else if kind == LEASE && p == AtReady then AtFlight
    else if kind == ACK && (p == AtReady || p == AtFlight) then AtNowhere
    else if kind == NACK && p == AtFlight then (if c.maxAttempts > 1 then AtDelayed else AtNowhere)
    else if kind == EXPIRE && p == AtFlight then AtNowhere
    else p
  }

  /** Replacing one group: what has to be known about it. */
  lemma ReplaceGroup(s: Setup, q: Queue, key: Bytes, g: Group, r: Group, e: Event)
    requires AllRebuilt(s, q) && Rebuilt(s.config(key), r) && e.group == key
    requires g == GroupOr(s, q, key) && OthersStay(g, r, e.msgID)
    requires SpotIn(r, e.msgID) == NextSpot(s.config(key), SpotIn(g, e.msgID), e.kind)
    ensures AllRebuilt(s, q[key := r]) && Moves(s, q, q[key := r], e)
  {
    hide Rebuilt, SpotIn, NextSpot;
    forall k, id
      ensures SpotOf(q[key := r], k, id)
           == if IsFor(e, k, id) then NextSpot(s.config(k), SpotOf(q, k, id), e.kind) else SpotOf(q, k, id)
    {
      NewGroupRebuilt(s.config(key), s.limiter(key), id);
    }
  }

  lemma StillMoves(s: Setup, q: Queue, e: Event)
    requires NextSpot(s.config(e.group), SpotOf(q, e.group, e.msgID), e.kind) == SpotOf(q, e.group, e.msgID)
    ensures Moves(s, q, q, e)
  {
  }

  /** A publish of a message not held, with room for it; any other record. */
  predicate Acceptable(s: Setup, q: Queue, e: Event) {
    e.kind == PUBLISH ==>
      SpotOf(q, e.group, e.msgID) == AtNowhere && HasRoom(s.config(e.group), GroupOr(s, q, e.group))
  }

  lemma ApplyMoves(s: Setup, q: Queue, e: Event, now: int)
    requires AllUsable(s) && AllRebuilt(s, q) && Acceptable(s, q, e)
    ensures AllRebuilt(s, Apply(s, q, e, now)) && Moves(s, q, Apply(s, q, e, now), e)
  {
    var key, id := e.group, e.msgID;
    var c, g := s.config(key), GroupOr(s, q, key);
    assert Usable(c) && Rebuilt(c, g) by { NewGroupRebuilt(c, s.limiter(key), id); }
    hide Rebuilt, SpotIn, HasRoom, AllRebuilt, Moves, AllUsable;
    if e.kind == PUBLISH {
      hide OnLease, OnAck, OnNack, OnExpire;
      NewGroupRebuilt(c, s.limiter(key), id);
      PublishRebuilds(c, g, id, e.payload, now);
      ReplaceGroup(s, q, key, g, Enqueue(g, NewMessage(id, e.payload, now)), e);
    } else if key !in q {
      hide OnPublish;
      StillMoves(s, q, e);
    } else {
      hide OnPublish;
      HandledMoves(s, q, e, now);
    }
  }

  /** The other records, for a group that exists. */
  lemma HandledMoves(s: Setup, q: Queue, e: Event, now: int)
    requires Usable(s.config(e.group)) && AllRebuilt(s, q) && e.group in q && e.kind != PUBLISH
    ensures AllRebuilt(s, Apply(s, q, e, now)) && Moves(s, q, Apply(s, q, e, now), e)
  {
    var key, id := e.group, e.msgID;
    var c, g := s.config(key), q[key];
    assert Rebuilt(c, g);
    hide Rebuilt, SpotIn, AllRebuilt, Moves, OnPublish, ReplayLease, RemoveMessage, Fail, Complete;
    InFlightSpot(g, id);
    if e.kind == LEASE {
      LeaseRebuilds(c, g, id, now);
      ReplaceGroup(s, q, key, g, ReplayLease(c, g, id, now), e);
    } else if e.kind == ACK {
      if id in g.processing {
        CompleteRebuilds(c, g, id);
        ReplaceGroup(s, q, key, g, Complete(g, id), e);
      } else {
        RemoveRebuilds(c, g, id);
        ReplaceGroup(s, q, key, g, RemoveMessage(g, id), e);
      }
    } else if e.kind == NACK {
      NackRebuilds(c, g, id, REPLAYED_NACK, now);
      ReplaceGroup(s, q, key, g, Fail(c, g, id, REPLAYED_NACK, now), e);
    } else if e.kind == EXPIRE {
      CompleteRebuilds(c, g, id);
      ReplaceGroup(s, q, key, g, Complete(g, id), e);
    } else {
      StillMoves(s, q, e);
    }
  }

  lemma InFlightSpot(g: Group, id: Bytes)
    ensures id in g.processing <==> SpotIn(g, id) == AtFlight
  {
  }

  // Room for every publish

  lemma ApplySlots(s: Setup, q: Queue, e: Event, now: int, key: Bytes)
    requires Acceptable(s, q, e)
    ensures SlotCount(Apply(s, q, e, now), key)
         == SlotCount(q, key) + (if e.group == key && e.kind == PUBLISH then 1 else 0)
  {
    hide Find, HasRoom, Insert, Rescheduled;
  }

  lemma ApplySlotted(s: Setup, q: Queue, es: seq<Event>, e: Event, now: int)
    requires Slotted(q, es) && Acceptable(s, q, e)
    ensures Slotted(Apply(s, q, e, now), es + [e])
  {
    hide Apply, Acceptable;
    assert (es + [e])[..|es|] == es;
    forall key ensures CountOf(es + [e], key, PUBLISH) == SlotCount(Apply(s, q, e, now), key) {
      ApplySlots(s, q, e, now, key);
    }
  }

  lemma {:induction false} DistinctCount(ids: seq<Bytes>)
    requires forall id :: multiset(ids)[id] <= 1
    ensures |set id | id in ids| == |ids|
  {
    if ids != [] {
      var front, last := ids[..|ids| - 1], ids[|ids| - 1];
      assert ids == front + [last];
      assert multiset(ids) == multiset(front) + multiset{last};
      assert multiset(ids)[last] <= 1;
      assert last !in multiset(front);
      forall id ensures multiset(front)[id] <= 1 {
        assert multiset(ids)[id] <= 1;
      }
      DistinctCount(front);
      assert (set id | id in ids) == (set id | id in front) + {last};
    }
  }

  lemma DelayedCount(c: Config, g: Group)
    requires Sound(c, g)
    ensures |g.delayed| == |DelayedIds(g)|
  {
    hide Ids;
    forall id ensures multiset(Ids(g.delayed))[id] <= 1 {
      assert Holdings(g)[id] <= 1;
    }
    DistinctCount(Ids(g.delayed));
    assert |Ids(g.delayed)| == |g.delayed|;
  }

  lemma {:induction false} FateNamed(c: Config, es: seq<Event>, key: Bytes, id: Bytes) returns (i: nat)
    requires FateOf(c, es, key, id) != Unpublished
    ensures i < |es| && IsFor(es[i], key, id)
  {
    var n := |es| - 1;
    if IsFor(es[n], key, id) {
      i := n;
    } else {
      i := FateNamed(c, es[..n], key, id);
    }
  }

  /** Who waits for a retry is what the records say. */
  lemma DelayedAreRetrying(s: Setup, q: Queue, es: seq<Event>, key: Bytes)
    requires AllRebuilt(s, q) && Placed(s, q, es)
    ensures RetryingIds(s.config(key), es, key) == if key in q then DelayedIds(q[key]) else {}
  {
    hide Rebuilt, FateOf, DelayedIds, ReadyIds;
    var c := s.config(key);
    forall id ensures id in RetryingIds(c, es, key) <==> key in q && id in DelayedIds(q[key]) {
      assert SpotOf(q, key, id) == Expected(FateOf(c, es, key, id));
      if FateOf(c, es, key, id) == Retrying {
        var i := FateNamed(c, es, key, id);
        assert es[i].group == key && es[i].msgID == id;
      }
      if key in q {
        DelayedSpot(c, q[key], id);
      }
    }
  }

  lemma DelayedSpot(c: Config, g: Group, id: Bytes)
    requires Rebuilt(c, g)
    ensures id in DelayedIds(g) <==> SpotIn(g, id) == AtDelayed
  {
    hide Sound, Ids;
    OneSpot(c, g, id);
  }

  lemma RebuiltPending(c: Config, g: Group)
    requires Rebuilt(c, g)
    ensures PendingCount(g) == |g.ready| + |DelayedIds(g)|
  {
    hide Sound, DelayedIds;
    DelayedCount(c, g);
  }

  /** The handler has room for the last record exactly when the records say so. */
  lemma RoomIff(s: Setup, q: Queue, es: seq<Event>)
    requires es != [] && es[|es| - 1].kind == PUBLISH && AllRebuilt(s, q)
    requires Slotted(q, es[..|es| - 1]) && Placed(s, q, es[..|es| - 1])
    ensures var key := es[|es| - 1].group;
            HasRoom(s.config(key), GroupOr(s, q, key)) <==> RoomAt(s, es, |es| - 1)
  {
    hide Rebuilt, Placed, RetryingIds, CountOf, PendingCount;
    var n := |es| - 1;
    var key := es[n].group;
    DelayedAreRetrying(s, q, es[..n], key);
    if key in q {
      RebuiltPending(s.config(key), q[key]);
    } else {
      NewPending(s.limiter(key));
    }
  }

  lemma NewPending(limiter: Option<Limiter>)
    ensures PendingCount(NewGroup(limiter)) == 0
  {
  }

  // The automaton and the spots

  lemma {:induction false} FateStarts(c: Config, es: seq<Event>, key: Bytes, id: Bytes)
    requires forall i :: 0 <= i < |es| ==> !(es[i].kind == PUBLISH && IsFor(es[i], key, id))
    ensures FateOf(c, es, key, id) == Unpublished
  {
    if es != [] {
      FateStarts(c, es[..|es| - 1], key, id);
    }
  }

  lemma NextAgrees(c: Config, f: Fate, kind: Byte)
    requires kind == PUBLISH ==> f == Unpublished
    ensures Expected(Next(c, f, kind)) == NextSpot(c, Expected(f), kind)
  {
  }

  /** Replay decomposes per message.  From an empty queue, whatever the interleaving
      of the records of different messages, each message ends where its own records
      put it; and the rebuilt groups are sound. */
  lemma {:induction false} ReplayDecomposes(s: Setup, es: seq<Event>, clock: seq<int>)
    requires |clock| == |es| && AllUsable(s) && DistinctPublishes(es) && Fits(s, es)
    ensures var q := ReplayAll(s, es, clock);
            AllRebuilt(s, q) && Slotted(q, es) && Placed(s, q, es)
    decreases |es|
  {
    hide AllUsable, AllRebuilt, Slotted, Placed, DistinctPublishes, Fits, RoomAt, Apply;
    if es == [] {
      NothingReplayed(s);
    } else {
      var n := |es| - 1;
      FitsPrefix(s, es, n);
      DistinctTo(es, |es| - 1);
      ReplayDecomposes(s, es[..n], clock[..n]);
      var q := ReplayAll(s, es[..n], clock[..n]);
      OneMore(s, q, es, clock[n]);
    }
  }

  /** One more record, for which there is room. */
  lemma OneMore(s: Setup, q: Queue, es: seq<Event>, now: int)
    requires es != [] && AllUsable(s) && DistinctPublishes(es) && Fits(s, es) && AllRebuilt(s, q)
    requires Slotted(q, es[..|es| - 1]) && Placed(s, q, es[..|es| - 1])
    ensures var r := Apply(s, q, es[|es| - 1], now); AllRebuilt(s, r) && Slotted(r, es) && Placed(s, r, es)
  {
    hide AllUsable, AllRebuilt, Slotted, DistinctPublishes, RoomAt, Apply, Moves, Acceptable;
    var n := |es| - 1;
    assert RoomAt(s, es, n);
    LastAcceptable(s, q, es);
    ApplyMoves(s, q, es[n], now);
    ApplySlotted(s, q, es[..n], es[n], now);
    assert es[..n] + [es[n]] == es;
    PlacedNext(s, q, es, now);
  }

  lemma LastAcceptable(s: Setup, q: Queue, es: seq<Event>)
    requires es != [] && DistinctPublishes(es) && RoomAt(s, es, |es| - 1) && AllRebuilt(s, q)
    requires Slotted(q, es[..|es| - 1]) && Placed(s, q, es[..|es| - 1])
    ensures Acceptable(s, q, es[|es| - 1])
  {
    hide AllRebuilt, Slotted, DistinctPublishes, RoomAt, HasRoom, FateOf, SpotOf;
    var e := es[|es| - 1];
    if e.kind == PUBLISH {
      NotPublishedBefore(s.config(e.group), es);
      RoomIff(s, q, es);
    }
  }

  lemma NothingReplayed(s: Setup)
    ensures AllRebuilt(s, map[]) && Slotted(map[], []) && Placed(s, map[], [])
  {
  }

  lemma FitsPrefix(s: Setup, es: seq<Event>, n: nat)
    requires n <= |es| && Fits(s, es)
    ensures Fits(s, es[..n])
  {
    hide RetryingIds, CountOf;
    forall i: nat | i < n ensures RoomAt(s, es[..n], i) {
      assert es[..n][..i] == es[..i];
      assert RoomAt(s, es, i);
    }
  }

  /** Replay takes every publish of the log. */
  ghost predicate TakesAll(s: Setup, es: seq<Event>, clock: seq<int>)
    requires |clock| == |es|
  {
    forall i: nat | i < |es| :: Takes(s, es, clock, i)
  }

  predicate Takes(s: Setup, es: seq<Event>, clock: seq<int>, i: nat)
    requires |clock| == |es| && i < |es|
  {
    es[i].kind == PUBLISH ==>
      HasRoom(s.config(es[i].group), GroupOr(s, ReplayAll(s, es[..i], clock[..i]), es[i].group))
  }

  /** Up to record i everything was taken: then record i is taken if and only if the
      records say there is room. */
  lemma TakesIffRoom(s: Setup, es: seq<Event>, clock: seq<int>, i: nat)
    requires |clock| == |es| && AllUsable(s) && DistinctPublishes(es) && i < |es| && Fits(s, es[..i])
    ensures Takes(s, es, clock, i) <==> RoomAt(s, es, i)
  {
    hide AllUsable, AllRebuilt, Slotted, Placed, Fits, HasRoom;
    DistinctTo(es, i);
    ReplayDecomposes(s, es[..i], clock[..i]);
    var upTo := es[..i + 1];
    assert upTo[..i] == es[..i] && upTo[i] == es[i];
    if es[i].kind == PUBLISH {
      RoomIff(s, ReplayAll(s, es[..i], clock[..i]), upTo);
    }
  }

  lemma DistinctTo(es: seq<Event>, i: nat)
    requires i <= |es| && DistinctPublishes(es)
    ensures DistinctPublishes(es[..i])
  {
  }

  /** Replay takes every durable publish if and only if at each publish of a group with
      a depth limit the group's earlier publishes and the messages waiting for a retry
      are together below the limit. */
  lemma {:induction false} TakesAllIffFits(s: Setup, es: seq<Event>, clock: seq<int>)
    requires |clock| == |es| && AllUsable(s) && DistinctPublishes(es)
    ensures TakesAll(s, es, clock) <==> Fits(s, es)
    decreases |es|
  {
    hide AllUsable, DistinctPublishes, Takes, RoomAt;
    if es != [] {
      var n := |es| - 1;
      DistinctTo(es, n);
      TakesAllIffFits(s, es[..n], clock[..n]);
      forall i: nat | i < n ensures RoomAt(s, es[..n], i) == RoomAt(s, es, i)
        && Takes(s, es[..n], clock[..n], i) == Takes(s, es, clock, i)
      {
        SamePrefix(s, es, clock, n, i);
      }
      if Fits(s, es[..n]) {
        TakesIffRoom(s, es, clock, n);
      }
    }
  }

  lemma SamePrefix(s: Setup, es: seq<Event>, clock: seq<int>, n: nat, i: nat)
    requires |clock| == |es| && i < n <= |es|
    ensures RoomAt(s, es[..n], i) == RoomAt(s, es, i)
    ensures Takes(s, es[..n], clock[..n], i) == Takes(s, es, clock, i)
  {
    hide RetryingIds, CountOf, HasRoom, ReplayAll;
    assert es[..n][..i] == es[..i] && clock[..n][..i] == clock[..i];
  }

  /** The first publish without room is lost: replay holds the message nowhere, and
      every other message is where it would be without the record. */
  lemma RefusedIsNowhere(s: Setup, es: seq<Event>, clock: seq<int>)
    requires es != [] && |clock| == |es| && AllUsable(s) && DistinctPublishes(es)
    requires Fits(s, es[..|es| - 1]) && !RoomAt(s, es, |es| - 1)
    ensures var q, e := ReplayAll(s, es, clock), es[|es| - 1];
            SpotOf(q, e.group, e.msgID) == AtNowhere && Placed(s, q, es[..|es| - 1])
  {
    hide AllUsable, AllRebuilt, Slotted, DistinctPublishes, Fits, HasRoom, FateOf, SpotIn;
    var n := |es| - 1;
    var e, q, r := es[n], ReplayAll(s, es[..n], clock[..n]), ReplayAll(s, es, clock);
    assert e.kind == PUBLISH;
    DistinctTo(es, n);
    ReplayDecomposes(s, es[..n], clock[..n]);
    RoomIff(s, q, es);
    NotPublishedBefore(s.config(e.group), es);
    forall key, id ensures SpotOf(r, key, id) == Expected(FateOf(s.config(key), es[..n], key, id)) {
      NewGroupRebuilt(s.config(key), s.limiter(key), id);
      assert SpotOf(q, key, id) == Expected(FateOf(s.config(key), es[..n], key, id));
    }
  }

  // Replay under the depth limit, past the first refusal

  /** The records without the publishes that find no room, counted as the handlers
      count: against those before that did. */
  function Fitting(s: Setup, es: seq<Event>): seq<Event> {
    if es == [] then []
    else
      var a, e := Fitting(s, es[..|es| - 1]), es[|es| - 1];
      if RoomAt(s, a + [e], |a|) then a + [e] else a
  }

  function FittingClock(s: Setup, es: seq<Event>, clock: seq<int>): (r: seq<int>)
    requires |clock| == |es|
    ensures |r| == |Fitting(s, es)|
  {
    if es == [] then []
    else
      var n := |es| - 1;
      var a, t := Fitting(s, es[..n]), FittingClock(s, es[..n], clock[..n]);
      if RoomAt(s, a + [es[n]], |a|) then t + [clock[n]] else t
  }

  /** The publish of the message is among those that find no room. */
  predicate Refused(s: Setup, es: seq<Event>, key: Bytes, id: Bytes) {
    es != [] &&
    var n := |es| - 1;
    var a := Fitting(s, es[..n]);
    Refused(s, es[..n], key, id) || (IsFor(es[n], key, id) && !RoomAt(s, a + [es[n]], |a|))
  }

  lemma {:induction false} FittingAreThere(s: Setup, es: seq<Event>, e: Event)
    requires e in Fitting(s, es)
    ensures e in es
  {
    hide RoomAt;
    var n := |es| - 1;
    if e in Fitting(s, es[..n]) {
      FittingAreThere(s, es[..n], e);
    }
    assert es == es[..n] + [es[n]];
  }

  lemma {:induction false} FittingDistinct(s: Setup, es: seq<Event>)
    requires DistinctPublishes(es)
    ensures DistinctPublishes(Fitting(s, es))
  {
    hide RoomAt;
    if es != [] {
      var n := |es| - 1;
      var a, e := Fitting(s, es[..n]), es[n];
      FittingDistinct(s, es[..n]);
      forall i | 0 <= i < |a| && a[i].kind == PUBLISH && e.kind == PUBLISH
        ensures !(a[i].group == e.group && a[i].msgID == e.msgID)
      {
        FittingAreThere(s, es[..n], a[i]);
      }
    }
  }

  lemma FitsSnoc(s: Setup, a: seq<Event>, e: Event)
    requires Fits(s, a) && RoomAt(s, a + [e], |a|)
    ensures Fits(s, a + [e])
  {
    hide RetryingIds, CountOf;
    forall i: nat | i < |a| ensures RoomAt(s, a + [e], i) {
      assert (a + [e])[..i] == a[..i];
      assert RoomAt(s, a, i);
    }
  }

  /** Nothing is left out exactly when everything fits. */
  lemma {:induction false} FittingIffFits(s: Setup, es: seq<Event>)
    ensures Fits(s, Fitting(s, es)) && |Fitting(s, es)| <= |es|
    ensures Fitting(s, es) == es <==> Fits(s, es)
  {
    hide RoomAt;
    if es != [] {
      var n := |es| - 1;
      var a, e := Fitting(s, es[..n]), es[n];
      FittingIffFits(s, es[..n]);
      assert es == es[..n] + [e];
      if RoomAt(s, a + [e], |a|) {
        FitsSnoc(s, a, e);
      }
      if Fits(s, es) {
        FitsPrefix(s, es, n);
        assert RoomAt(s, es, n);
      }
    }
  }

  /** A refused publish changes nothing: a group without room is there already. */
  lemma RefusedChangesNothing(s: Setup, q: Queue, e: Event, now: int)
    requires e.kind == PUBLISH && !HasRoom(s.config(e.group), GroupOr(s, q, e.group))
    ensures Apply(s, q, e, now) == q
  {
    hide PendingCount;
    NewPending(s.limiter(e.group));
  }

  /** Replay ends as replay of the fitting records would. */
  lemma {:induction false} ReplayFitting(s: Setup, es: seq<Event>, clock: seq<int>)
    requires |clock| == |es| && AllUsable(s) && DistinctPublishes(es)
    ensures ReplayAll(s, es, clock) == ReplayAll(s, Fitting(s, es), FittingClock(s, es, clock))
    decreases |es|
  {
    hide AllUsable, DistinctPublishes, RoomAt, Apply, Fits, HasRoom, AllRebuilt, Slotted, Placed;
    if es != [] {
      var n := |es| - 1;
      var a, t, e := Fitting(s, es[..n]), FittingClock(s, es[..n], clock[..n]), es[n];
      DistinctTo(es, n);
      ReplayFitting(s, es[..n], clock[..n]);
      if RoomAt(s, a + [e], |a|) {
        assert (a + [e])[..|a|] == a && (t + [clock[n]])[..|a|] == t;
      } else {
        LastRefused(s, es[..n], clock[..n], e, clock[n]);
      }
    }
  }

  lemma LastRefused(s: Setup, es: seq<Event>, clock: seq<int>, e: Event, now: int)
    requires |clock| == |es| && AllUsable(s) && DistinctPublishes(es)
    requires !RoomAt(s, Fitting(s, es) + [e], |Fitting(s, es)|)
    ensures var q := ReplayAll(s, Fitting(s, es), FittingClock(s, es, clock)); Apply(s, q, e, now) == q
  {
    hide AllUsable, DistinctPublishes, Apply, Fits, HasRoom, AllRebuilt, Slotted, Placed, Fitting, CountOf, RetryingIds;
    var a, t := Fitting(s, es), FittingClock(s, es, clock);
    FittingDistinct(s, es);
    FittingIffFits(s, es);
    ReplayDecomposes(s, a, t);
    assert (a + [e])[..|a|] == a;
    RoomIff(s, ReplayAll(s, a, t), a + [e]);
    RefusedChangesNothing(s, ReplayAll(s, a, t), e, now);
  }

  /** The fate of a message by the fitting records: as by all, unless its publish was
      refused, and then nothing. */
  lemma {:induction false} FateFitting(s: Setup, es: seq<Event>, key: Bytes, id: Bytes)
    requires DistinctPublishes(es)
    ensures FateOf(s.config(key), Fitting(s, es), key, id)
         == if Refused(s, es, key, id) then Unpublished else FateOf(s.config(key), es, key, id)
  {
    hide DistinctPublishes, RoomAt, FateOf;
    if es == [] {
      NoFate(s.config(key), key, id);
    } else {
      var n := |es| - 1;
      var a, e := Fitting(s, es[..n]), es[n];
      DistinctTo(es, n);
      FateFitting(s, es[..n], key, id);
      FateSnoc(s.config(key), a, e, key, id);
      assert es == es[..n] + [e];
      FateSnoc(s.config(key), es[..n], e, key, id);
      if e.kind != PUBLISH {
        RoomUnlessPublish(s, a, e);
      } else if IsFor(e, key, id) {
        FirstPublish(s, es);
      }
    }
  }

  lemma NoFate(c: Config, key: Bytes, id: Bytes)
    ensures FateOf(c, [], key, id) == Unpublished
  {
  }

  lemma FateSnoc(c: Config, es: seq<Event>, e: Event, key: Bytes, id: Bytes)
    ensures FateOf(c, es + [e], key, id)
         == if IsFor(e, key, id) then Next(c, FateOf(c, es, key, id), e.kind) else FateOf(c, es, key, id)
  {
    assert (es + [e])[..|es|] == es;
  }

  lemma RoomUnlessPublish(s: Setup, a: seq<Event>, e: Event)
    requires e.kind != PUBLISH
    ensures RoomAt(s, a + [e], |a|)
  {
  }

  lemma FirstPublish(s: Setup, es: seq<Event>)
    requires es != [] && DistinctPublishes(es) && es[|es| - 1].kind == PUBLISH
    ensures var front, e := es[..|es| - 1], es[|es| - 1];
            && !Refused(s, front, e.group, e.msgID)
            && FateOf(s.config(e.group), Fitting(s, front), e.group, e.msgID) == Unpublished
  {
    hide RoomAt, Fitting;
    var front, e := es[..|es| - 1], es[|es| - 1];
    forall i | 0 <= i < |Fitting(s, front)|
      ensures !(Fitting(s, front)[i].kind == PUBLISH && IsFor(Fitting(s, front)[i], e.group, e.msgID))
    {
      FittingAreThere(s, front, Fitting(s, front)[i]);
    }
    FateStarts(s.config(e.group), Fitting(s, front), e.group, e.msgID);
    NoneRefused(s, front, e.group, e.msgID);
  }

  lemma {:induction false} NoneRefused(s: Setup, es: seq<Event>, key: Bytes, id: Bytes)
    requires forall i :: 0 <= i < |es| ==> !(es[i].kind == PUBLISH && IsFor(es[i], key, id))
    ensures !Refused(s, es, key, id)
  {
    if es != [] {
      NoneRefused(s, es[..|es| - 1], key, id);
    }
  }

  lemma ReplayWithLimit(s: Setup, es: seq<Event>, clock: seq<int>)
    requires |clock| == |es| && AllUsable(s) && DistinctPublishes(es)
    ensures var q := ReplayAll(s, es, clock); AllRebuilt(s, q) && Placed(s, q, Fitting(s, es))
  {
    hide AllUsable, DistinctPublishes, Fits, AllRebuilt, Slotted, Fitting, FittingClock, ReplayAll, Placed;
    ReplayFitting(s, es, clock);
    FittingDistinct(s, es);
    FittingIffFits(s, es);
    ReplayDecomposes(s, Fitting(s, es), FittingClock(s, es, clock));
  }

  /** Where replay puts every message of every log, whatever the depth limits: nowhere if
      its publish was refused, else where its own records put it. */
  lemma ReplayPlaces(s: Setup, es: seq<Event>, clock: seq<int>, key: Bytes, id: Bytes)
    requires |clock| == |es| && AllUsable(s) && DistinctPublishes(es)
    ensures SpotOf(ReplayAll(s, es, clock), key, id)
         == if Refused(s, es, key, id) then AtNowhere else Expected(FateOf(s.config(key), es, key, id))
  {
    hide AllUsable, DistinctPublishes, AllRebuilt, Refused, Fitting, FateOf, SpotOf, ReplayAll;
    ReplayWithLimit(s, es, clock);
    FateFitting(s, es, key, id);
  }

  /** If everything fits, nothing is refused. */
  lemma {:induction false} FitsRefusesNone(s: Setup, es: seq<Event>, key: Bytes, id: Bytes)
    requires Fits(s, es)
    ensures !Refused(s, es, key, id)
  {
    hide RoomAt;
    if es != [] {
      var n := |es| - 1;
      FitsPrefix(s, es, n);
      FitsRefusesNone(s, es[..n], key, id);
      FittingIffFits(s, es[..n]);
      assert es == es[..n] + [es[n]] && RoomAt(s, es, n);
    }
  }

  lemma NotPublishedBefore(c: Config, es: seq<Event>)
    requires es != [] && DistinctPublishes(es) && es[|es| - 1].kind == PUBLISH
    ensures var e := es[|es| - 1]; FateOf(c, es[..|es| - 1], e.group, e.msgID) == Unpublished
  {
    var n := |es| - 1;
    FateStarts(c, es[..n], es[n].group, es[n].msgID);
  }

  lemma PlacedNext(s: Setup, q: Queue, es: seq<Event>, now: int)
    requires es != [] && DistinctPublishes(es)
    requires Placed(s, q, es[..|es| - 1]) && Moves(s, q, Apply(s, q, es[|es| - 1], now), es[|es| - 1])
    ensures Placed(s, Apply(s, q, es[|es| - 1], now), es)
  {
    hide SpotOf, Expected, NextSpot, Next, Apply;
    var n := |es| - 1;
    var e, r := es[n], Apply(s, q, es[n], now);
    forall key, id ensures SpotOf(r, key, id) == Expected(FateOf(s.config(key), es, key, id)) {
      var f := FateOf(s.config(key), es[..n], key, id);
      assert SpotOf(q, key, id) == Expected(f);
      if IsFor(e, key, id) {
        if e.kind == PUBLISH {
          NotPublishedBefore(s.config(key), es);
        }
        NextAgrees(s.config(key), f, e.kind);
      }
    }
  }
}
