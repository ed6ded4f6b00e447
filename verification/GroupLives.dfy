/** What a message carries through every run of its group: its payload, its failures and
    the times it was last sent and last failed, told from the operations alone. */
module GroupLives {
  import opened Bytes
  import opened Messages
  import opened RateLimiter
  import opened GroupSpec
  import opened GroupConservation
  import opened GroupDrain
  import opened GroupRuns

  /** What has happened to one message. */
  datatype Life = Life(
    payload: Bytes,          // as published
    born: int,               // when
    sentAt: Option<int>,     // last delivery
    attempts: nat,           // failures so far
    error: Bytes,            // the last one
    failedAt: int,           // when
    acked: bool
  )

  function Born(payload: Bytes, now: int): Life {
    Life(payload, now, None, 0, [], now, false)
  }

  /** The message bears what happened to it. */
  predicate Carries(m: Message, l: Life) {
    m.payload == l.payload && m.attempts == l.attempts && m.lastError == l.error
  }

  /** In flight until the lease timeout after it was sent. */
  predicate InLease(c: Config, m: Message, l: Life) {
    Carries(m, l) && l.sentAt.Some? && m.scheduledAt == l.sentAt.value + c.leaseTimeout
  }

  /** Delayed until the backoff of its failures after it last failed. */
  predicate BackedOff(c: Config, m: Message, l: Life) {
    Carries(m, l) && m.scheduledAt == l.failedAt + RetryDelay(c, l.attempts)
  }

  /** Waiting; if never sent, with the time of publication. */
  predicate Queued(m: Message, l: Life) {
    Carries(m, l) && (l.sentAt.None? ==> m.scheduledAt == l.born)
  }

  /** Whatever the group holds under this id bears this life. */
  ghost predicate Bears(c: Config, g: Group, id: Bytes, l: Life) {
    && (forall m <- Backlog(g) | m.id == id :: Queued(m, l) && !l.acked)
    && (forall m <- g.delayed | m.id == id :: BackedOff(c, m, l) && l.sentAt.Some? && !l.acked)
    && (id in g.processing ==> InLease(c, g.processing[id], l) && !l.acked)
  }

  /** How it left: acknowledged, or with all its attempts failed, for the dead letters if
      there are any. */
  predicate LeftSo(c: Config, m: Message, l: Life) {
    && Carries(m, l)
    && m.state == (if l.acked then Done else if c.dlq then DLQ else Failed)
    && (!l.acked ==> l.attempts == c.maxAttempts)
  }

  ghost predicate Lives(c: Config, w: World, id: Bytes, l: Life) {
    Bears(c, w.g, id, l) && (forall m <- w.gone | m.id == id :: LeftSo(c, m, l))
  }

  // ---------------------------------------------------------------------------
  // Group operations
  // ---------------------------------------------------------------------------

  lemma NotHeldTwice(c: Config, g: Group, id: Bytes)
    requires Sound(c, g) && id in g.processing
    ensures forall m <- Backlog(g) :: m.id != id
    ensures forall m <- g.delayed :: m.id != id
    ensures g.processing[id].id == id && g.processing[id].attempts < c.maxAttempts
  {
    SoundIsUnique(c, g);
    InFlightOnly(g, id);
    hide Holdings, Backlog;
    forall m <- Backlog(g) ensures m.id != id {
      var i :| 0 <= i < |Backlog(g)| && Backlog(g)[i] == m;
      assert Ids(Backlog(g))[i] == m.id;
    }
    forall m <- g.delayed ensures m.id != id {
      var i :| 0 <= i < |g.delayed| && g.delayed[i] == m;
      assert Ids(g.delayed)[i] == m.id;
    }
  }

  lemma NothingHeld(c: Config, g: Group, id: Bytes, l: Life)
    requires id !in Holdings(g)
    ensures Bears(c, g, id, l)
  {
    var a, b := multiset(Ids(Backlog(g))), multiset(Ids(g.delayed));
    assert id !in a && id !in b && id !in multiset(g.processing.Keys);
    hide Backlog;
    forall m <- Backlog(g) ensures m.id != id {
      var i :| 0 <= i < |Backlog(g)| && Backlog(g)[i] == m;
      assert Ids(Backlog(g))[i] == m.id && m.id in a;
    }
    forall m <- g.delayed ensures m.id != id {
      var i :| 0 <= i < |g.delayed| && g.delayed[i] == m;
      assert Ids(g.delayed)[i] == m.id && m.id in b;
    }
  }

  lemma EnqueueBears(c: Config, g: Group, x: Bytes, payload: Bytes, now: int, id: Bytes, l: Life)
    requires Bears(c, g, id, l) && (id == x ==> id !in Holdings(g))
    ensures Bears(c, Enqueue(g, NewMessage(x, payload, now)), id, if id == x then Born(payload, now) else l)
  {
    var m := NewMessage(x, payload, now);
    LiveSnoc(g.ready, m);
    if id == x {
      NothingHeld(c, g, id, Born(payload, now));
    }
    hide Holdings, LiveSlots;
    assert Backlog(Enqueue(g, m)) == Backlog(g) + [m];
    hide Backlog, RetryDelay;
  }

  lemma CompleteBears(c: Config, g: Group, x: Bytes, id: Bytes, l: Life)
    requires Bears(c, g, id, l)
    ensures Bears(c, Complete(g, x), id, l)
  {
    hide LiveSlots;
    assert Backlog(Complete(g, x)) == Backlog(g);
  }

  lemma ReturnBears(c: Config, g: Group, x: Bytes, id: Bytes, l: Life)
    requires Bears(c, g, id, l) && (x in g.processing ==> g.processing[x].id == x)
    ensures Bears(c, ReturnToPending(g, x), id, l)
  {
    if x in g.processing {
      var m := g.processing[x].(state := Pending);
      LiveSnoc(g.urgent, m);
      hide LiveSlots;
      var r := ReturnToPending(g, x);
      assert Backlog(r) == LiveSlots(g.urgent) + [m] + LiveSlots(g.ready);
    }
  }

  lemma {:induction false} ReturnAllBears(c: Config, g: Group, order: seq<Bytes>, id: Bytes, l: Life)
    requires Sound(c, g) && Bears(c, g, id, l)
    ensures Bears(c, ReturnAll(g, order), id, l)
  {
    hide Sound, Bears, ReturnToPending;
    if order != [] {
      var n := |order| - 1;
      ReturnAllBears(c, g, order[..n], id, l);
      ReturnAllSound(c, g, order[..n]);
      InFlightKeyed(c, ReturnAll(g, order[..n]), order[n]);
      ReturnBears(c, ReturnAll(g, order[..n]), order[n], id, l);
    }
  }

  lemma PromoteDueBears(c: Config, g: Group, now: int, id: Bytes, l: Life)
    requires Bears(c, g, id, l)
    ensures Bears(c, PromoteDue(g, now), id, l)
  {
    PromoteDueBacklog(g, now);
    hide Due, Backlog;
    var n := Due(g.delayed, now);
    assert g.delayed == g.delayed[..n] + g.delayed[n..];
  }

  lemma PromoteBears(c: Config, g: Group, now: int, order: seq<Bytes>, id: Bytes, l: Life)
    requires Sound(c, g) && Bears(c, g, id, l)
    ensures Bears(c, Promote(g, now, order), id, l)
  {
    hide Sound, Bears, PromoteDue;
    ReturnAllBears(c, g, order, id, l);
    PromoteDueBears(c, ReturnAll(g, order), now, id, l);
  }

  lemma {:induction false} InsertHas(ms: seq<Message>, m: Message, x: Message)
    ensures x in Insert(ms, m) <==> x == m || x in ms
  {
    hide Before;
    if ms != [] && !Before(m, ms[0]) {
      InsertHas(ms[1..], m, x);
      assert ms == [ms[0]] + ms[1..];
    }
  }

  /** A failure that leaves an attempt: one more, the error noted, due again a backoff
      after it. */
  function FailedLife(l: Life, error: Bytes, now: int): Life {
    l.(attempts := l.attempts + 1, error := error, failedAt := now)
  }

  lemma FailBears(c: Config, g: Group, x: Bytes, error: Bytes, now: int, id: Bytes, l: Life)
    requires Sound(c, g) && Bears(c, g, id, l)
    ensures Bears(c, Fail(c, g, x, error, now), id,
                  if id == x && x in g.processing then FailedLife(l, error, now) else l)
  {
    hide RetryDelay, Insert, LiveSlots, Sound;
    if x in g.processing {
      NotHeldTwice(c, g, x);
      var r, m := Fail(c, g, x, error, now), Rescheduled(c, g.processing[x], error, now);
      assert Backlog(r) == Backlog(g);
      forall y ensures y in Insert(g.delayed, m) <==> y == m || y in g.delayed {
        InsertHas(g.delayed, m, y);
      }
    }
  }

  function SentLife(l: Life, now: int): Life {
    l.(sentAt := Some(now))
  }

  lemma DispatchOneBears(c: Config, g: Group, now: int, id: Bytes, l: Life)
    requires Backlog(g) != [] && Bears(c, g, id, l)
    ensures Bears(c, DispatchOne(c, g, now), id, if Backlog(g)[0].id == id then SentLife(l, now) else l)
  {
    BacklogAfterOne(c, g, now);
    var r, m := DispatchOne(c, g, now), Backlog(g)[0];
    hide LiveSlots, Skip, Backlog;
    assert Backlog(r) == Backlog(g)[1..] && m in Backlog(g);
    assert r.delayed == g.delayed;
  }

  lemma {:induction false} DispatchBears(c: Config, g: Group, now: int, n: nat, id: Bytes, l: Life)
    requires n <= |Backlog(g)| && Bears(c, g, id, l)
    ensures Bears(c, Dispatch(c, g, now, n), id, if id in Ids(Backlog(g)[..n]) then SentLife(l, now) else l)
    decreases n
  {
    hide Bears, DispatchOne, Backlog;
    if n > 0 {
      var b := Backlog(g);
      BacklogAfterOne(c, g, now);
      DispatchOneBears(c, g, now, id, l);
      var l' := if b[0].id == id then SentLife(l, now) else l;
      DispatchBears(c, DispatchOne(c, g, now), now, n - 1, id, l');
      assert b[1..][..n - 1] == b[1..n];
      assert b[..n] == [b[0]] + b[1..n];
      IdsAppend([b[0]], b[1..n]);
      IdsOne(b[0]);
    }
  }

  /** Neither the limiter nor the deficit nor emptied lists matter. */
  lemma SameBears(c: Config, g: Group, r: Group, id: Bytes, l: Life)
    requires Bears(c, g, id, l) && r.delayed == g.delayed && r.processing == g.processing
    requires Backlog(r) == Backlog(g) || Backlog(r) == []
    ensures Bears(c, r, id, l)
  {
    hide Backlog;
  }

  lemma NextBears(c: Config, g: Group, now: int, id: Bytes, l: Life)
    requires Bears(c, g, id, l)
    ensures Bears(c, NextDispatchable(c, g, now), id,
                  if Blocked(c, g, now).None? && Backlog(g)[0].id == id then SentLife(l, now) else l)
  {
    hide Bears, DispatchOne, Allows, Called, LiveSlots;
    var a := AskLimiter(g, now);
    assert Backlog(a) == Backlog(g);
    SameBears(c, g, a, id, l);
    if Blocked(c, g, now) == None {
      DispatchOneBears(c, a, now, id, l);
    } else if Blocked(c, g, now) == Some(Empty) {
      var r := a.(urgent := [], ready := []);
      assert LiveSlots([]) == [] by { NoSlots(); }
      SameBears(c, a, r, id, l);
    }
  }

  lemma NoSlots()
    ensures LiveSlots([]) == []
  {
  }

  lemma DrainedBears(c: Config, g: Group, now: int, id: Bytes, l: Life)
    requires Credit(c, g) >= 0 && Bears(c, g, id, l)
    ensures Bears(c, Drained(c, g, now), id,
                  if id in Ids(Backlog(g)[..BatchSize(c, g, now)]) then SentLife(l, now) else l)
  {
    hide Bears, LiveSlots, BatchSize, RoundStop, CalledTimes, Dispatch;
    var k, r := BatchSize(c, g, now), Drained(c, g, now);
    DispatchBears(c, g, now, k, id, l);
    var d := Dispatch(c, g, now, k);
    NoSlots();
    assert Backlog(r) == Backlog(d) || Backlog(r) == [];
    SameBears(c, d, r, id, if id in Ids(Backlog(g)[..k]) then SentLife(l, now) else l);
  }

  // ---------------------------------------------------------------------------
  // Runs
  // ---------------------------------------------------------------------------

  /** The deliveries a step adds. */
  predicate NewlySent(before: World, after: World, id: Bytes) {
    exists i | |before.sent| <= i < |after.sent| :: after.sent[i].id == id
  }

  /** The time of an operation that can send. */
  function TimeOf(op: Op): int {
    match op
    case Drain(now, _) => now
    case TryDispatch(now, _) => now
    case AckAndNext(_, now, _) => now
    case NackAndNext(_, _, now, _) => now
    case _ => 0
  }

  /** The operation itself, before anything is sent. */
  function Told(c: Config, w: World, op: Op, id: Bytes, l: Life): Life {
    match op
    case Publish(x, payload, now) => if x == id && HasRoom(c, w.g) then Born(payload, now) else l
    case Ack(x) => if x == id && id in w.g.processing then l.(acked := true) else l
    case AckAndNext(x, _, _) => if x == id && id in w.g.processing then l.(acked := true) else l
    case Nack(x, error, now) => if x == id && id in w.g.processing then FailedLife(l, error, now) else l
    case NackAndNext(x, error, now, _) => if x == id && id in w.g.processing then FailedLife(l, error, now) else l
    case _ => l
  }

  /** What an operation does to the life of a message. */
  function NextLife(c: Config, w: World, op: Op, id: Bytes, l: Life): Life
    requires Usable(c) && Sound(c, w.g)
  {
    var told := Told(c, w, op, id, l);
    if NewlySent(w, Step(c, w, op), id) then SentLife(told, TimeOf(op)) else told
  }

  lemma TriedLives(c: Config, w: World, now: int, order: seq<Bytes>, id: Bytes, l: Life)
    requires Sound(c, w.g) && Lives(c, w, id, l)
    ensures var r := Tried(c, w, now, order);
            Lives(c, r, id, if NewlySent(w, r, id) then SentLife(l, now) else l)
  {
    hide Sound, Bears, NextDispatchable, Promote, Blocked, Backlog;
    var p, r := Promote(w.g, now, order), Tried(c, w, now, order);
    PromoteBears(c, w.g, now, order, id, l);
    NextBears(c, p, now, id, l);
    if Blocked(c, p, now).None? {
      SomethingToSend(c, p, now);
      assert r.sent[|w.sent|].id == Backlog(p)[0].id;
    }
    EndedStays(c, w, id, l, now);
  }

  lemma SomethingToSend(c: Config, g: Group, now: int)
    requires Blocked(c, g, now).None?
    ensures Backlog(g) != []
  {
  }

  /** Sending does not touch what has left. */
  lemma EndedStays(c: Config, w: World, id: Bytes, l: Life, now: int)
    requires forall m <- w.gone | m.id == id :: LeftSo(c, m, l)
    ensures forall m <- w.gone | m.id == id :: LeftSo(c, m, SentLife(l, now))
  {
  }

  lemma DrainLives(c: Config, w: World, now: int, order: seq<Bytes>, id: Bytes, l: Life)
    requires Usable(c) && Sound(c, w.g) && Lives(c, w, id, l)
    ensures var r := Step(c, w, Drain(now, order));
            Lives(c, r, id, if NewlySent(w, r, id) then SentLife(l, now) else l)
  {
    hide Sound, Bears, Promote, Backlog, Drained, BatchSize;
    var p, r := Promote(w.g, now, order), Step(c, w, Drain(now, order));
    PromoteSound(c, w.g, now, order);
    PromoteBears(c, w.g, now, order, id, l);
    EndedStays(c, w, id, l, now);
    if PendingCount(p) > 0 {
      SoundCredit(c, p);
      DrainedBears(c, p, now, id, l);
      SentInBatch(w, r, Backlog(p)[..BatchSize(c, p, now)], id);
    }
  }

  lemma SentInBatch(w: World, r: World, ms: seq<Message>, id: Bytes)
    requires r.sent == w.sent + Deliveries(ms, |w.gone|)
    ensures NewlySent(w, r, id) <==> id in Ids(ms)
  {
    if id in Ids(ms) {
      var i :| 0 <= i < |Ids(ms)| && Ids(ms)[i] == id;
      assert r.sent[|w.sent| + i] == Deliveries(ms, |w.gone|)[i];
    }
  }

  lemma AckLives(c: Config, w: World, x: Bytes, id: Bytes, l: Life)
    requires Conserved(c, w) && Lives(c, w, id, l)
    ensures Lives(c, Acked(w, x), id, if x == id && id in w.g.processing then l.(acked := true) else l)
  {
    hide Bears, Conserved;
    ConservedSound(c, w);
    CompleteBears(c, w.g, x, id, l);
    if x in w.g.processing {
      InFlightKeyed(c, w.g, x);
      if x == id {
        BearsInFlight(c, w.g, id, l);
        NotGoneIfHeld(c, w, id);
        CompletedBears(c, w.g, id, l.(acked := true));
      }
    }
  }

  lemma BearsInFlight(c: Config, g: Group, id: Bytes, l: Life)
    requires Bears(c, g, id, l) && id in g.processing
    ensures Carries(g.processing[id], l) && !l.acked
  {
  }

  /** Once completed, nothing is held under the id. */
  lemma CompletedBears(c: Config, g: Group, id: Bytes, l: Life)
    requires Sound(c, g) && id in g.processing
    ensures Bears(c, Complete(g, id), id, l)
  {
    NotHeldTwice(c, g, id);
    hide Sound, LiveSlots;
    assert Backlog(Complete(g, id)) == Backlog(g);
  }

  lemma NotGoneIfHeld(c: Config, w: World, id: Bytes)
    requires Conserved(c, w) && id in w.g.processing
    ensures forall m <- w.gone :: m.id != id
  {
    hide Sound;
    HeldInFlight(w.g, id);
    hide Holdings;
    assert multiset(w.accepted)[id] == Holdings(w.g)[id] + multiset(Ids(w.gone))[id];
    assert id in multiset(w.accepted);
    CountOne(w.accepted, id);
    forall m <- w.gone ensures m.id != id {
      var i :| 0 <= i < |w.gone| && w.gone[i] == m;
      assert Ids(w.gone)[i] == m.id;
    }
  }

  lemma NackLives(c: Config, w: World, x: Bytes, error: Bytes, now: int, id: Bytes, l: Life)
    requires Conserved(c, w) && Lives(c, w, id, l)
    ensures Lives(c, Nacked(c, w, x, error, now), id,
                  if x == id && id in w.g.processing then FailedLife(l, error, now) else l)
  {
    hide Bears, Conserved, Fail, Exhausted, LeftSo, Retries;
    ConservedSound(c, w);
    FailBears(c, w.g, x, error, now, id, l);
    if x in w.g.processing {
      NotHeldTwice(c, w.g, x);
      var m := w.g.processing[x];
      ExhaustedIs(c, m, error);
      if x == id {
        BearsInFlight(c, w.g, id, l);
        NotGoneIfHeld(c, w, id);
        if !Retries(c, m) {
          ExhaustedEnds(c, m, error, l, now);
        }
      }
    }
  }

  lemma ExhaustedIs(c: Config, m: Message, error: Bytes)
    ensures Exhausted(c, m, error).id == m.id
  {
  }

  lemma ExhaustedEnds(c: Config, m: Message, error: Bytes, l: Life, now: int)
    requires Carries(m, l) && !l.acked && m.attempts < c.maxAttempts && !Retries(c, m)
    ensures LeftSo(c, Exhausted(c, m, error), FailedLife(l, error, now))
  {
  }

  lemma PublishLives(c: Config, w: World, x: Bytes, payload: Bytes, now: int, id: Bytes, l: Life)
    requires Usable(c) && Conserved(c, w) && x !in w.accepted && Lives(c, w, id, l)
    ensures Sound(c, w.g)
    ensures Lives(c, Step(c, w, Publish(x, payload, now)), id, if x == id && HasRoom(c, w.g) then Born(payload, now) else l)
  {
    hide Bears, Conserved, HasRoom;
    ConservedSound(c, w);
    NotHeldUnlessAccepted(c, w, x);
    EnqueueBears(c, w.g, x, payload, now, id, l);
    GoneIsAccepted(c, w, x);
  }

  lemma GoneIsAccepted(c: Config, w: World, id: Bytes)
    requires Conserved(c, w) && id !in w.accepted
    ensures forall m <- w.gone :: m.id != id
  {
    hide Sound, Holdings;
    assert multiset(w.accepted)[id] == Holdings(w.g)[id] + multiset(Ids(w.gone))[id];
    assert id !in multiset(w.accepted);
    forall m <- w.gone ensures m.id != id {
      var i :| 0 <= i < |w.gone| && w.gone[i] == m;
      assert Ids(w.gone)[i] == m.id;
    }
  }

  /** Every operation keeps the message and its life together. */
  lemma StepLives(c: Config, w: World, op: Op, id: Bytes, l: Life)
    requires Usable(c) && Conserved(c, w) && Enabled(c, w, op) && Lives(c, w, id, l)
    ensures Sound(c, w.g) && Lives(c, Step(c, w, op), id, NextLife(c, w, op, id, l))
  {
    hide Lives, Conserved, Tried, Acked, Nacked, Fail, Complete, HasRoom, Enabled, FailedLife, SentLife, Born;
    ConservedSound(c, w);
    if op.Publish? || op.GiveBack? || op.Sweep? || op.Ack? || op.Nack? {
      QuietLives(c, w, op, id, l);
    } else {
      hide Sound;
      match op
      case Drain(now, order) => DrainLives(c, w, now, order, id, l);
      case TryDispatch(now, order) => TriedLives(c, w, now, order, id, l);
      case AckAndNext(x, now, order) =>
        AckConserves(c, w, x);
        ConservedSound(c, Acked(w, x));
        AckLives(c, w, x, id, l);
        AckSends(w, x);
        TriedLives(c, Acked(w, x), now, order, id, Told(c, w, op, id, l));
      case NackAndNext(x, error, now, order) =>
        NackConserves(c, w, x, error, now);
        ConservedSound(c, Nacked(c, w, x, error, now));
        NackLives(c, w, x, error, now, id, l);
        NackSends(c, w, x, error, now);
        TriedLives(c, Nacked(c, w, x, error, now), now, order, id, Told(c, w, op, id, l));
    }
  }

  lemma AckSends(w: World, x: Bytes)
    ensures Acked(w, x).sent == w.sent
  {
  }

  lemma NackSends(c: Config, w: World, x: Bytes, error: Bytes, now: int)
    ensures Nacked(c, w, x, error, now).sent == w.sent
  {
  }

  /** The operations that send nothing. */
  lemma QuietLives(c: Config, w: World, op: Op, id: Bytes, l: Life)
    requires Usable(c) && Conserved(c, w) && Enabled(c, w, op) && Lives(c, w, id, l)
    requires op.Publish? || op.GiveBack? || op.Sweep? || op.Ack? || op.Nack?
    ensures Sound(c, w.g) && Lives(c, Step(c, w, op), id, NextLife(c, w, op, id, l))
  {
    hide Conserved, Bears, Acked, Nacked, HasRoom, FailedLife, SentLife, Born, ReturnToPending, LeftSo;
    ConservedSound(c, w);
    match op
    case Publish(x, payload, now) => PublishLives(c, w, x, payload, now, id, l);
    case Ack(x) =>
      AckLives(c, w, x, id, l);
      AckSends(w, x);
    case Nack(x, error, now) =>
      NackLives(c, w, x, error, now, id, l);
      NackSends(c, w, x, error, now);
    case GiveBack(x) =>
      InFlightKeyed(c, w.g, x);
      ReturnBears(c, w.g, x, id, l);
    case Sweep(now, order) => ReturnAllBears(c, w.g, order, id, l);
    case _ =>
  }

  /** The life of a message by the end of a run. */
  ghost function LifeAfter(c: Config, w: World, ops: seq<Op>, id: Bytes, l: Life): Life
    requires Usable(c) && Conserved(c, w) && CanRun(c, w, ops)
    decreases |ops|
  {
    if ops == [] then l
    else
      ConservedSound(c, w);
      StepConserves(c, w, ops[0]);
      LifeAfter(c, Step(c, w, ops[0]), ops[1..], id, NextLife(c, w, ops[0], id, l))
  }

  /** Over every run, whatever is held or gone under an id has the payload it was
      published with, as many attempts as it failed, and the last error; in flight its
      deadline is the lease timeout after it was last sent; delayed it is due the backoff
      after it last failed; and it left done if it was acknowledged, and otherwise with
      all attempts used, dead-lettered exactly when dead letters are configured. */
  lemma {:induction false} RunLives(c: Config, w: World, ops: seq<Op>, id: Bytes, l: Life)
    requires Usable(c) && Conserved(c, w) && CanRun(c, w, ops) && Lives(c, w, id, l)
    ensures Lives(c, Run(c, w, ops), id, LifeAfter(c, w, ops, id, l))
    decreases |ops|
  {
    hide Lives, Conserved, NextLife, Enabled;
    if ops != [] {
      ConservedSound(c, w);
      StepConserves(c, w, ops[0]);
      StepLives(c, w, ops[0], id, l);
      RunLives(c, Step(c, w, ops[0]), ops[1..], id, NextLife(c, w, ops[0], id, l));
    }
  }

  /** From a new group on this is so of every message, whatever it is taken to have been
      before it was published. */
  lemma NewLives(c: Config, limiter: Option<Limiter>, ops: seq<Op>, id: Bytes, l: Life)
    requires Usable(c) && CanRun(c, NewWorld(c, limiter), ops)
    ensures var w := NewWorld(c, limiter); Lives(c, Run(c, w, ops), id, LifeAfter(c, w, ops, id, l))
  {
    var w := NewWorld(c, limiter);
    NoSlots();
    assert Lives(c, w, id, l);
    hide Lives, Run, LifeAfter, CanRun;
    RunLives(c, w, ops, id, l);
  }

  // ---------------------------------------------------------------------------
  // Leases and retries
  // ---------------------------------------------------------------------------

  /** A lease lasts: a message in flight is expired at a time if and only if that is past
      the lease timeout after it was last sent. */
  lemma LeaseLasts(c: Config, w: World, id: Bytes, l: Life, now: int)
    requires Lives(c, w, id, l) && id in w.g.processing
    ensures l.sentAt.Some? && (id in Expired(w.g, now) <==> now > l.sentAt.value + c.leaseTimeout)
  {
    hide Backlog, RetryDelay;
  }

  /** No drain, sweep or dispatch takes a message out of flight before its lease is over,
      and each takes out all that are: so the order it goes by says. */
  lemma OnlyOverdueReturn(c: Config, w: World, order: seq<Bytes>, now: int, id: Bytes, l: Life)
    requires Lives(c, w, id, l) && Lists(order, Expired(w.g, now))
    ensures id in order <==> id in w.g.processing && l.sentAt.Some? && now > l.sentAt.value + c.leaseTimeout
  {
    hide Lives;
    if id in w.g.processing {
      LeaseLasts(c, w, id, l, now);
    }
  }

  /** A failed message is promoted at a time if and only if the backoff after its last
      failure is over. */
  lemma RetryIsDue(c: Config, w: World, i: nat, l: Life, now: int)
    requires Sound(c, w.g) && i < |w.g.delayed| && Lives(c, w, w.g.delayed[i].id, l)
    ensures i < Due(w.g.delayed, now) <==> now >= l.failedAt + RetryDelay(c, l.attempts)
  {
    assert w.g.delayed[i] in w.g.delayed;
    assert Ascending(w.g.delayed);
    hide Sound, Backlog, RetryDelay;
    DueIff(w.g.delayed, now, i);
  }

  lemma {:induction false} DueIff(delayed: seq<Message>, now: int, i: nat)
    requires Ascending(delayed) && i < |delayed|
    ensures i < Due(delayed, now) <==> delayed[i].scheduledAt <= now
  {
    DueSplits(delayed, now);
  }

  // ---------------------------------------------------------------------------
  // Over whole runs
  // ---------------------------------------------------------------------------

  lemma StepAccepts(c: Config, w: World, op: Op, id: Bytes, l: Life)
    requires Usable(c) && Conserved(c, w) && id in w.accepted && Enabled(c, w, op)
    ensures Sound(c, w.g) && id in Step(c, w, op).accepted
    ensures NextLife(c, w, op, id, l).payload == l.payload && NextLife(c, w, op, id, l).born == l.born
  {
    hide Conserved, HasRoom, NewlySent, Step, Sound;
    ConservedSound(c, w);
    AcceptedStays(c, w, op, id);
  }

  lemma AcceptedStays(c: Config, w: World, op: Op, id: Bytes)
    requires Usable(c) && Sound(c, w.g) && id in w.accepted
    ensures id in Step(c, w, op).accepted
  {
    hide Promote, NextDispatchable, Blocked, HasRoom, Drained, BatchSize, Fail, Complete, ReturnAll, ReturnToPending, Sound;
  }

  /** Once accepted, a message keeps the payload and the time it was published with. */
  lemma {:induction false} PayloadStays(c: Config, w: World, ops: seq<Op>, id: Bytes, l: Life)
    requires Usable(c) && Conserved(c, w) && CanRun(c, w, ops) && id in w.accepted
    ensures LifeAfter(c, w, ops, id, l).payload == l.payload && LifeAfter(c, w, ops, id, l).born == l.born
    decreases |ops|
  {
    hide Conserved, NextLife, Enabled, Step;
    if ops != [] {
      ConservedSound(c, w);
      StepConserves(c, w, ops[0]);
      StepAccepts(c, w, ops[0], id, l);
      PayloadStays(c, Step(c, w, ops[0]), ops[1..], id, NextLife(c, w, ops[0], id, l));
    }
  }

  /** All that is held or gone under the id has this payload. */
  ghost predicate OnlyPayloadIn(w: World, id: Bytes, payload: Bytes) {
    && (forall m <- Backlog(w.g) | m.id == id :: m.payload == payload)
    && (forall m <- w.g.delayed | m.id == id :: m.payload == payload)
    && (id in w.g.processing ==> w.g.processing[id].payload == payload)
    && (forall m <- w.gone | m.id == id :: m.payload == payload)
  }

  lemma LivesPayload(c: Config, w: World, id: Bytes, l: Life)
    requires Lives(c, w, id, l)
    ensures OnlyPayloadIn(w, id, l.payload)
  {
    hide Backlog, RetryDelay;
  }

  /** Whatever happens to a message after its publication was accepted, at any point of any
      run, all that is held or gone under its id has the payload it was published with. */
  lemma PublishedPayloadIsKept(c: Config, w: World, id: Bytes, payload: Bytes, now: int, ops: seq<Op>)
    requires Usable(c) && Conserved(c, w) && id !in w.accepted && HasRoom(c, w.g)
    requires CanRun(c, w, [Publish(id, payload, now)] + ops)
    ensures OnlyPayloadIn(Run(c, w, [Publish(id, payload, now)] + ops), id, payload)
  {
    hide HasRoom, Holdings;
    var op, all := Publish(id, payload, now), [Publish(id, payload, now)] + ops;
    ConservedSound(c, w);
    StepConserves(c, w, op);
    assert all[0] == op && all[1..] == ops;
    var v := Step(c, w, op);
    NotHeldUnlessAccepted(c, w, id);
    NothingHeld(c, w.g, id, Born(payload, now));
    GoneIsAccepted(c, w, id);
    PublishLives(c, w, id, payload, now, id, Born(payload, now));
    assert id in v.accepted;
    hide Conserved, Lives, OnlyPayloadIn, Bears;
    RunLives(c, v, ops, id, Born(payload, now));
    PayloadStays(c, v, ops, id, Born(payload, now));
    LivesPayload(c, Run(c, v, ops), id, LifeAfter(c, v, ops, id, Born(payload, now)));
  }

  /** After any run of a new group, the leases a drain, a dispatch or a sweep at `now` ends
      are exactly those whose message was last sent more than the lease timeout before. */
  lemma LeasesEndOnTime(c: Config, limiter: Option<Limiter>, ops: seq<Op>, order: seq<Bytes>, now: int, id: Bytes, l: Life)
    requires Usable(c) && CanRun(c, NewWorld(c, limiter), ops)
    requires Lists(order, Expired(Run(c, NewWorld(c, limiter), ops).g, now))
    ensures var w := NewWorld(c, limiter);
            var sentAt := LifeAfter(c, w, ops, id, l).sentAt;
            id in order <==> id in Run(c, w, ops).g.processing && sentAt.Some? && now > sentAt.value + c.leaseTimeout
  {
    hide Lives, Run, LifeAfter, CanRun, Lists, Expired;
    NewLives(c, limiter, ops, id, l);
    var w := NewWorld(c, limiter);
    OnlyOverdueReturn(c, Run(c, w, ops), order, now, id, LifeAfter(c, w, ops, id, l));
  }
}
