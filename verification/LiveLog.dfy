/** The live group and the log it writes, side by side.  The handlers append a PUBLISH,
    ACK or NACK first and turn to the group some time later, whether or not the message is
    in flight by then; the LEASE of a delivery and the EXPIRE of a swept lease are appended
    some time later, or never; a drain that finds a lease over returns the message without
    a record.  What replay makes of such a log is compared with the live group, message by
    message. */
module LiveLog {
  import opened Bytes
  import opened Messages
  import opened RateLimiter
  import opened Record
  import opened GroupSpec
  import opened GroupConservation
  import opened GroupRuns
  import opened Recovery
  import opened RecoveryOutcome

  /** A record, and whether its handler has been at the group and found what it is about:
      room for a publish, for an ACK or NACK a message in flight. */
  datatype Rec = Rec(kind: Byte, id: Bytes, hit: bool)

  datatype Broker = Broker(
    w: World,
    log: seq<Rec>,
    handling: set<nat>,          // records whose handler has not been at the group yet
    leases: multiset<Bytes>,     // deliveries whose LEASE may still be appended
    expiries: multiset<Bytes>    // swept leases whose EXPIRE may still be appended
  )

  datatype Act =
    | Append(kind: Byte, id: Bytes)   // a handler appends its record
    | Handle(op: Op, at: nat)         // and goes on to the group; its record is number at
    | Engine(op: Op)                  // an operation with no record of its own
    | AppendLease(id: Bytes)
    | AppendExpire(id: Bytes)

  /** The record of an operation, once it is carried out. */
  function RecordOf(c: Config, g: Group, op: Op): Option<Rec> {
    match op
    case Publish(id, _, _) => Some(Rec(PUBLISH, id, HasRoom(c, g)))
    case Ack(id) => Some(Rec(ACK, id, id in g.processing))
    case AckAndNext(id, _, _) => Some(Rec(ACK, id, id in g.processing))
    case Nack(id, _, _) => Some(Rec(NACK, id, id in g.processing))
    case NackAndNext(id, _, _, _) => Some(Rec(NACK, id, id in g.processing))
    case _ => None
  }

  function DeliveredIds(ds: seq<Delivery>): seq<Bytes> {
    seq(|ds|, i requires 0 <= i < |ds| => ds[i].id)
  }

  /** The deliveries of a step. */
  function NewlySent(before: World, after: World): multiset<Bytes> {
    if |before.sent| <= |after.sent| then multiset(DeliveredIds(after.sent[|before.sent|..])) else multiset{}
  }

  /** Publish ids are generated: no earlier PUBLISH record has the same. */
  predicate CanAppend(log: seq<Rec>, kind: Byte, id: Bytes) {
    || kind == ACK
    || kind == NACK
    || (kind == PUBLISH && forall r <- log :: r.kind == PUBLISH ==> r.id != id)
  }

  /** The record, without its outcome, is in the log and its handler is at work. */
  predicate Awaits(b: Broker, at: nat, r: Rec) {
    at in b.handling && at < |b.log| && b.log[at].kind == r.kind && b.log[at].id == r.id
  }

  ghost predicate CanAct(c: Config, b: Broker, a: Act) {
    match a
    case Append(kind, id) => CanAppend(b.log, kind, id)
    case Handle(op, at) =>
      GroupRuns.Enabled(c, b.w, op) && RecordOf(c, b.w.g, op).Some? && Awaits(b, at, RecordOf(c, b.w.g, op).value)
    case Engine(op) => GroupRuns.Enabled(c, b.w, op) && RecordOf(c, b.w.g, op).None?
    case AppendLease(id) => id in b.leases
    case AppendExpire(id) => id in b.expiries
  }

  ghost function Acted(c: Config, b: Broker, a: Act): Broker
    requires Usable(c) && Sound(c, b.w.g) && CanAct(c, b, a)
  {
    match a
    case Append(kind, id) => b.(log := b.log + [Rec(kind, id, false)], handling := b.handling + {|b.log|})
    case Handle(op, at) =>
      var w := Step(c, b.w, op);
      Broker(w, b.log[at := RecordOf(c, b.w.g, op).value], b.handling - {at}, b.leases + NewlySent(b.w, w), b.expiries)
    case Engine(op) =>
      var w := Step(c, b.w, op);
      Broker(w, b.log, b.handling, b.leases + NewlySent(b.w, w),
             if op.Sweep? then b.expiries + multiset(op.order) else b.expiries)
    case AppendLease(id) => b.(log := b.log + [Rec(LEASE, id, true)], leases := b.leases - multiset{id})
    case AppendExpire(id) => b.(log := b.log + [Rec(EXPIRE, id, true)], expiries := b.expiries - multiset{id})
  }

  lemma ActConserves(c: Config, b: Broker, a: Act)
    requires Usable(c) && Conserved(c, b.w) && CanAct(c, b, a)
    ensures Sound(c, b.w.g) && Conserved(c, Acted(c, b, a).w)
  {
    hide Conserved, Step, GroupRuns.Enabled;
    ConservedSound(c, b.w);
    if a.Engine? || a.Handle? {
      StepConserves(c, b.w, a.op);
    }
  }

  // ---------------------------------------------------------------------------
  // Runs
  // ---------------------------------------------------------------------------

  /** The broker after the acts, if each could be taken. */
  ghost function Do(c: Config, b: Broker, acts: seq<Act>): (r: Option<Broker>)
    requires Usable(c) && Conserved(c, b.w)
    ensures r.Some? ==> Conserved(c, r.value.w)
    decreases |acts|
  {
    if acts == [] then Some(b)
    else
      var n := |acts| - 1;
      match Do(c, b, acts[..n])
      case None => None
      case Some(m) =>
        if !CanAct(c, m, acts[n]) then None
        else
          ActConserves(c, m, acts[n]);
          Some(Acted(c, m, acts[n]))
  }

  ghost function NewBroker(c: Config, limiter: Option<Limiter>): (b: Broker)
    requires Usable(c)
    ensures Conserved(c, b.w)
  {
    Broker(NewWorld(c, limiter), [], {}, multiset{}, multiset{})
  }

  // ---------------------------------------------------------------------------
  // One message's records and the live group
  // ---------------------------------------------------------------------------

  function About(log: seq<Rec>, id: Bytes): seq<Rec> {
    if log == [] then []
    else About(log[..|log| - 1], id) + (if log[|log| - 1].id == id then [log[|log| - 1]] else [])
  }

  lemma {:induction false} InAbout(log: seq<Rec>, id: Bytes, r: Rec)
    ensures r in About(log, id) <==> r in log && r.id == id
  {
    if log != [] {
      InAbout(log[..|log| - 1], id, r);
      assert log == log[..|log| - 1] + [log[|log| - 1]];
    }
  }

  function KindsOf(rs: seq<Rec>): seq<Byte> {
    seq(|rs|, i requires 0 <= i < |rs| => rs[i].kind)
  }

  ghost predicate Gone(w: World, id: Bytes) {
    id in Ids(w.gone)
  }

  /** An ACK or NACK that found the message in flight. */
  predicate Reached(r: Rec) {
    r.hit && (r.kind == ACK || r.kind == NACK)
  }

  /** One that settled it whatever its attempts: an ACK, or a NACK with a single attempt. */
  predicate EndsIt(c: Config, r: Rec) {
    r.hit && (r.kind == ACK || (r.kind == NACK && c.maxAttempts == 1))
  }

  /** The operation settles the message. */
  predicate Settles(c: Config, g: Group, op: Op, id: Bytes) {
    id in g.processing &&
    match op
    case Ack(x) => x == id
    case AckAndNext(x, _, _) => x == id
    case Nack(x, _, _) => x == id && !Retries(c, g.processing[id])
    case NackAndNext(x, _, _, _) => x == id && !Retries(c, g.processing[id])
    case _ => false
  }

  lemma InIds(gone: seq<Message>, m: Message, id: Bytes)
    ensures id in Ids(gone + [m]) <==> id in Ids(gone) || id == m.id
  {
    IdsAppend(gone, [m]);
    IdsOne(m);
  }

  lemma AckedGone(c: Config, w: World, x: Bytes, id: Bytes)
    requires Conserved(c, w)
    ensures Gone(Acked(w, x), id) <==> Gone(w, id) || (x == id && id in w.g.processing)
  {
    hide Ids, Holdings;
    if x in w.g.processing {
      InFlightKeyed(c, w.g, x);
      InIds(w.gone, w.g.processing[x].(state := Done), id);
    }
  }

  lemma NackedGone(c: Config, w: World, x: Bytes, error: Bytes, now: int, id: Bytes)
    requires Conserved(c, w)
    ensures Gone(Nacked(c, w, x, error, now), id)
       <==> Gone(w, id) || (x == id && id in w.g.processing && !Retries(c, w.g.processing[id]))
  {
    hide Ids, Holdings, Fail;
    if x in w.g.processing {
      InFlightKeyed(c, w.g, x);
      InIds(w.gone, Exhausted(c, w.g.processing[x], error), id);
    }
  }

  /** What an operation adds to the settled and to the accepted messages. */
  lemma StepMoves(c: Config, w: World, op: Op, id: Bytes)
    requires Usable(c) && Conserved(c, w)
    ensures Gone(Step(c, w, op), id) <==> Gone(w, id) || Settles(c, w.g, op, id)
    ensures id in Step(c, w, op).accepted
       <==> id in w.accepted || (op.Publish? && op.id == id && HasRoom(c, w.g))
  {
    hide Conserved, Acked, Nacked, Promote, NextDispatchable, Drained, BatchSize, HasRoom;
    ConservedSound(c, w);
    match op
    case Ack(x) =>
      AckedGone(c, w, x, id);
      AckedFrame(w, x);
    case AckAndNext(x, now, order) =>
      AckedGone(c, w, x, id);
      AckedFrame(w, x);
    case Nack(x, error, now) =>
      NackedGone(c, w, x, error, now, id);
      NackedFrame(c, w, x, error, now);
    case NackAndNext(x, error, now, order) =>
      NackedGone(c, w, x, error, now, id);
      NackedFrame(c, w, x, error, now);
    case _ =>
  }

  lemma AckedFrame(w: World, x: Bytes)
    ensures Acked(w, x).accepted == w.accepted
  {
  }

  lemma NackedFrame(c: Config, w: World, x: Bytes, error: Bytes, now: int)
    ensures Nacked(c, w, x, error, now).accepted == w.accepted
  {
  }

  /** What the log knows of a message. */
  ghost predicate Tracks(c: Config, w: World, log: seq<Rec>, id: Bytes) {
    && (id in w.accepted ==> Rec(PUBLISH, id, true) in log)
    && (forall r <- log :: r.id == id && EndsIt(c, r) ==> Gone(w, id))
    && (Gone(w, id) ==> exists r :: r in log && r.id == id && Reached(r))
  }

  /** No handler at work has its outcome recorded. */
  predicate Undecided(b: Broker) {
    forall i <- b.handling :: i < |b.log| && !b.log[i].hit
  }

  /** The records of the message that hit stay, and none joins them but r. */
  predicate HitsGrow(log: seq<Rec>, log': seq<Rec>, id: Bytes, r: Rec) {
    && (forall x <- log :: x.hit && x.id == id ==> x in log')
    && (forall x <- log' :: x.hit && x.id == id ==> x in log || x == r)
  }

  lemma TracksGrows(c: Config, w: World, w': World, log: seq<Rec>, log': seq<Rec>, id: Bytes, r: Rec)
    requires Tracks(c, w, log, id) && HitsGrow(log, log', id, r)
    requires id in w'.accepted ==> id in w.accepted || (r == Rec(PUBLISH, id, true) && r in log')
    requires Gone(w, id) ==> Gone(w', id)
    requires Gone(w', id) ==> Gone(w, id) || (Reached(r) && r.id == id && r in log')
    requires EndsIt(c, r) && r.id == id ==> Gone(w', id)
    ensures Tracks(c, w', log', id)
  {
    hide Gone;
    if Gone(w, id) {
      var x :| x in log && x.id == id && Reached(x);
      assert x in log';
    }
  }

  lemma AppendHits(log: seq<Rec>, r: Rec, id: Bytes)
    ensures HitsGrow(log, log + [r], id, r) && r in log + [r]
  {
  }

  lemma UpdateHits(log: seq<Rec>, at: nat, r: Rec, id: Bytes)
    requires at < |log| && !log[at].hit
    ensures HitsGrow(log, log[at := r], id, r) && r in log[at := r]
  {
    var log' := log[at := r];
    assert log'[at] == r;
    forall x <- log | x.hit ensures x in log' {
      var i :| 0 <= i < |log| && log[i] == x;
      assert log'[i] == x;
    }
  }

  lemma ActTracks(c: Config, b: Broker, a: Act, id: Bytes)
    requires Usable(c) && Conserved(c, b.w) && CanAct(c, b, a) && Undecided(b)
    requires Tracks(c, b.w, b.log, id)
    ensures Sound(c, b.w.g)
    ensures var r := Acted(c, b, a); Undecided(r) && Tracks(c, r.w, r.log, id)
  {
    hide Conserved, Tracks, Step, GroupRuns.Enabled, HasRoom, NewlySent, HitsGrow, Gone, CanAppend;
    ConservedSound(c, b.w);
    match a
    case Append(kind, x) =>
      AppendHits(b.log, Rec(kind, x, false), id);
      TracksGrows(c, b.w, b.w, b.log, b.log + [Rec(kind, x, false)], id, Rec(kind, x, false));
    case Handle(op, at) => HandleTracks(c, b, op, at, id);
    case Engine(op) => EngineTracks(c, b, op, id);
    case AppendLease(x) =>
      AppendHits(b.log, Rec(LEASE, x, true), id);
      TracksGrows(c, b.w, b.w, b.log, b.log + [Rec(LEASE, x, true)], id, Rec(LEASE, x, true));
    case AppendExpire(x) =>
      AppendHits(b.log, Rec(EXPIRE, x, true), id);
      TracksGrows(c, b.w, b.w, b.log, b.log + [Rec(EXPIRE, x, true)], id, Rec(EXPIRE, x, true));
  }

  lemma EngineTracks(c: Config, b: Broker, op: Op, id: Bytes)
    requires Usable(c) && Conserved(c, b.w) && RecordOf(c, b.w.g, op).None?
    requires Tracks(c, b.w, b.log, id)
    ensures Sound(c, b.w.g) && Tracks(c, Step(c, b.w, op), b.log, id)
  {
    hide Conserved, Tracks, Step, HasRoom, Gone;
    ConservedSound(c, b.w);
    StepMoves(c, b.w, op, id);
    TracksGrows(c, b.w, Step(c, b.w, op), b.log, b.log, id, Rec(LEASE, id, false));
  }

  lemma HandleTracks(c: Config, b: Broker, op: Op, at: nat, id: Bytes)
    requires Usable(c) && Conserved(c, b.w) && RecordOf(c, b.w.g, op).Some?
    requires at < |b.log| && !b.log[at].hit
    requires Tracks(c, b.w, b.log, id)
    ensures Sound(c, b.w.g)
    ensures Tracks(c, Step(c, b.w, op), b.log[at := RecordOf(c, b.w.g, op).value], id)
  {
    hide Conserved, Tracks, Step, HasRoom, Gone, HitsGrow;
    ConservedSound(c, b.w);
    StepMoves(c, b.w, op, id);
    SettlesIsReached(c, b.w, op, id);
    var r := RecordOf(c, b.w.g, op).value;
    UpdateHits(b.log, at, r, id);
    TracksGrows(c, b.w, Step(c, b.w, op), b.log, b.log[at := r], id, r);
  }

  lemma SettlesIsReached(c: Config, w: World, op: Op, id: Bytes)
    requires RecordOf(c, w.g, op).Some?
    ensures var r := RecordOf(c, w.g, op).value;
            && (Settles(c, w.g, op, id) ==> Reached(r) && r.id == id)
            && (EndsIt(c, r) && r.id == id ==> Settles(c, w.g, op, id))
  {
    hide HasRoom;
  }

  lemma {:induction false} DoTracks(c: Config, b: Broker, acts: seq<Act>, id: Bytes)
    requires Usable(c) && Conserved(c, b.w) && Do(c, b, acts).Some? && Undecided(b) && Tracks(c, b.w, b.log, id)
    ensures var r := Do(c, b, acts).value; Undecided(r) && Tracks(c, r.w, r.log, id)
    decreases |acts|
  {
    hide Conserved, Tracks, Acted, CanAct, Undecided;
    if acts != [] {
      var n := |acts| - 1;
      DoTracks(c, b, acts[..n], id);
      ActTracks(c, Do(c, b, acts[..n]).value, acts[n], id);
    }
  }

  lemma StartTracks(c: Config, limiter: Option<Limiter>, id: Bytes)
    requires Usable(c)
    ensures var b := NewBroker(c, limiter); Undecided(b) && Tracks(c, b.w, b.log, id)
  {
  }

  lemma RunTracks(c: Config, limiter: Option<Limiter>, acts: seq<Act>, id: Bytes)
    requires Usable(c) && Do(c, NewBroker(c, limiter), acts).Some?
    ensures var r := Do(c, NewBroker(c, limiter), acts).value; Undecided(r) && Tracks(c, r.w, r.log, id)
  {
    hide Tracks, Do, Conserved, Undecided;
    StartTracks(c, limiter, id);
    DoTracks(c, NewBroker(c, limiter), acts, id);
  }

  /** An accepted message is held or gone, and not both. */
  lemma HeldIffNotGone(c: Config, w: World, id: Bytes)
    requires Conserved(c, w)
    ensures id in Holdings(w.g) ==> id in w.accepted && !Gone(w, id)
    ensures id in w.accepted && id !in Holdings(w.g) ==> Gone(w, id)
    ensures Gone(w, id) ==> id in w.accepted
  {
    hide Sound, Holdings;
    var held, gone := Holdings(w.g), multiset(Ids(w.gone));
    assert multiset(w.accepted)[id] == held[id] + gone[id];
    assert id in gone <==> id in Ids(w.gone);
    if id in w.accepted {
      CountOne(w.accepted, id);
    } else {
      assert multiset(w.accepted)[id] == 0;
    }
  }

  // ---------------------------------------------------------------------------
  // What replay loses and what it brings back
  // ---------------------------------------------------------------------------

  /** A record by which replay gives up a message the live group still holds: an EXPIRE,
      or an ACK (or the NACK of a single attempt) that missed the message, or whose handler
      has yet to come to it. */
  predicate GivesUp(c: Config, r: Rec) {
    r.kind == EXPIRE || (!r.hit && (r.kind == ACK || (r.kind == NACK && c.maxAttempts == 1)))
  }

  /** Exactly when replay loses a message the live group holds, over every run: the
      first of its records that replay acts on is an EXPIRE, or an ACK (or the NACK of
      a single attempt) that did not find it in flight. */
  lemma LostIff(c: Config, limiter: Option<Limiter>, acts: seq<Act>, id: Bytes)
    requires Usable(c) && Do(c, NewBroker(c, limiter), acts).Some?
    requires id in Holdings(Do(c, NewBroker(c, limiter), acts).value.w.g)
    ensures var own := About(Do(c, NewBroker(c, limiter), acts).value.log, id);
            !Present(ReplayAfter(c, KindsOf(own))) <==>
              exists a: nat :: FirstAt(KindsOf(own), a) && GivesUp(c, own[a])
  {
    hide Tracks, About, Do, Conserved, Holdings;
    var b := Do(c, NewBroker(c, limiter), acts).value;
    RunTracks(c, limiter, acts, id);
    HeldIffNotGone(c, b.w, id);
    LostByRecords(c, b.w, b.log, id);
  }

  lemma LostByRecords(c: Config, w: World, log: seq<Rec>, id: Bytes)
    requires Usable(c) && Tracks(c, w, log, id) && id in w.accepted && !Gone(w, id)
    ensures var own := About(log, id);
            !Present(ReplayAfter(c, KindsOf(own))) <==>
              exists a: nat :: FirstAt(KindsOf(own), a) && GivesUp(c, own[a])
  {
    hide ReplayAfter, FirstAt, NoneEffective, LeaseSeen, Gone, About;
    var own := About(log, id);
    var kinds := KindsOf(own);
    if NoneEffective(kinds, |kinds|) {
      ReplayUntouched(c, kinds);
      PublishedIn(log, id);
      forall a: nat ensures !FirstAt(kinds, a) {
        NoFirst(kinds, a);
      }
    } else {
      var f := FirstExists(kinds, |kinds|);
      ReplayByFirst(c, kinds, f);
      FirstKind(kinds, f);
      InAbout(log, id, own[f]);
      assert own[f] in own && own[f].kind == kinds[f];
      assert !EndsIt(c, own[f]);
      forall a: nat | FirstAt(kinds, a) ensures a == f {
        FirstIsOne(kinds, a, f);
      }
    }
  }

  lemma PublishedIn(log: seq<Rec>, id: Bytes)
    requires Rec(PUBLISH, id, true) in log
    ensures PUBLISH in KindsOf(About(log, id))
  {
    hide About;
    InAbout(log, id, Rec(PUBLISH, id, true));
    var own := About(log, id);
    var i :| 0 <= i < |own| && own[i] == Rec(PUBLISH, id, true);
    assert KindsOf(own)[i] == PUBLISH;
  }

  lemma NoFirst(kinds: seq<Byte>, a: nat)
    requires NoneEffective(kinds, |kinds|)
    ensures !FirstAt(kinds, a)
  {
    hide Effective;
  }

  lemma FirstKind(kinds: seq<Byte>, f: nat)
    requires FirstAt(kinds, f)
    ensures f < |kinds| && (kinds[f] == ACK || kinds[f] == NACK || kinds[f] == EXPIRE)
  {
    hide LeaseSeen, NoneEffective;
  }

  /** Exactly when replay brings back a message the live group does not hold, settled,
      refused for want of room or not there yet, over every run: the first of its records
      that replay acts on is a NACK that leaves an attempt, or replay acts on none.  If it
      was settled, in the second case it was by a NACK appended before any LEASE of it,
      unless its handler got ahead of the PUBLISH itself. */
  lemma RevivedIff(c: Config, limiter: Option<Limiter>, acts: seq<Act>, id: Bytes)
    requires Usable(c) && Do(c, NewBroker(c, limiter), acts).Some?
    requires var b := Do(c, NewBroker(c, limiter), acts).value;
             Gone(b.w, id) || (id !in Holdings(b.w.g) && PUBLISH in KindsOf(About(b.log, id)))
    ensures var b := Do(c, NewBroker(c, limiter), acts).value;
            var own := About(b.log, id);
            var kinds := KindsOf(own);
            && (Present(ReplayAfter(c, kinds))
                <==> (c.maxAttempts > 1 && FailedFirst(kinds)) || NoneEffective(kinds, |kinds|))
            && (Gone(b.w, id) && NoneEffective(kinds, |kinds|) ==>
                  exists i :: 0 <= i < |own| && Reached(own[i]) && Unseen(kinds, i))
  {
    hide Tracks, About, Do, Conserved, Holdings, Gone, Unseen, KindsOf, Reached;
    var b := Do(c, NewBroker(c, limiter), acts).value;
    RunTracks(c, limiter, acts, id);
    if Gone(b.w, id) {
      HeldIffNotGone(c, b.w, id);
      GoneIsPublished(c, b.w, b.log, id);
      SettledUnseen(c, b.w, b.log, id);
    }
    RevivedByRecords(c, KindsOf(About(b.log, id)));
  }

  /** Replay, coming to record i, knows no message that it could act on: the record is a
      NACK and no LEASE came before it, or the PUBLISH is still to come. */
  predicate Unseen(kinds: seq<Byte>, i: nat)
    requires i < |kinds|
  {
    (kinds[i] == NACK && !LeaseSeen(kinds[..i])) || PUBLISH !in kinds[..i]
  }

  /** A message the live group settled has its PUBLISH in the log. */
  lemma GoneIsPublished(c: Config, w: World, log: seq<Rec>, id: Bytes)
    requires Tracks(c, w, log, id) && id in w.accepted
    ensures PUBLISH in KindsOf(About(log, id))
  {
    PublishedIn(log, id);
  }

  lemma RevivedByRecords(c: Config, kinds: seq<Byte>)
    requires PUBLISH in kinds
    ensures Present(ReplayAfter(c, kinds)) <==>
            (c.maxAttempts > 1 && FailedFirst(kinds)) || NoneEffective(kinds, |kinds|)
  {
    hide ReplayAfter, FirstAt, NoneEffective, LeaseSeen, FailedFirst, Effective;
    if NoneEffective(kinds, |kinds|) {
      ReplayUntouched(c, kinds);
    } else {
      var f := FirstExists(kinds, |kinds|);
      FailedFirstIs(c, kinds, f);
    }
  }

  lemma SettledUnseen(c: Config, w: World, log: seq<Rec>, id: Bytes)
    requires Tracks(c, w, log, id) && Gone(w, id)
    ensures var own := About(log, id);
            var kinds := KindsOf(own);
            NoneEffective(kinds, |kinds|) ==>
              exists i :: 0 <= i < |own| && Reached(own[i]) && Unseen(kinds, i)
  {
    hide NoneEffective, LeaseSeen, Gone, Effective, About;
    var own := About(log, id);
    var kinds := KindsOf(own);
    var r :| r in log && r.id == id && Reached(r);
    InAbout(log, id, r);
    var i :| 0 <= i < |own| && own[i] == r;
    if NoneEffective(kinds, |kinds|) && PUBLISH in kinds[..i] {
      MissedByReplay(kinds, i);
    }
    assert NoneEffective(kinds, |kinds|) ==> Unseen(kinds, i);
  }

  lemma MissedByReplay(kinds: seq<Byte>, i: nat)
    requires NoneEffective(kinds, |kinds|) && i < |kinds| && PUBLISH in kinds[..i]
    requires kinds[i] == ACK || kinds[i] == NACK
    ensures kinds[i] == NACK && !LeaseSeen(kinds[..i])
  {
    hide LeaseSeen;
    assert !Effective(kinds, i);
  }

  /** The log as events of one group. */
  ghost predicate Renders(es: seq<Event>, key: Bytes, log: seq<Rec>) {
    |es| == |log| &&
    forall i | 0 <= i < |es| :: es[i].group == key && es[i].msgID == log[i].id && es[i].kind == log[i].kind
  }

  /** The fate of a message in replay is that of its records in the log. */
  lemma {:induction false} FateInLog(c: Config, es: seq<Event>, key: Bytes, log: seq<Rec>, id: Bytes)
    requires Renders(es, key, log)
    ensures FateOf(c, es, key, id) == ReplayAfter(c, KindsOf(About(log, id)))
  {
    OwnInLog(es, key, log, id);
    FateByOwnRecords(c, es, key, id);
  }

  lemma {:induction false} OwnInLog(es: seq<Event>, key: Bytes, log: seq<Rec>, id: Bytes)
    requires Renders(es, key, log)
    ensures Own(es, key, id) == KindsOf(About(log, id))
  {
    if es != [] {
      var n := |es| - 1;
      OwnInLog(es[..n], key, log[..n], id);
    }
  }

  // ---------------------------------------------------------------------------
  // The rebuilt queue beside the live groups
  // ---------------------------------------------------------------------------

  /** No id is published twice. */
  predicate PublishesOnce(log: seq<Rec>) {
    forall i, j | 0 <= i < j < |log| :: log[i].kind == PUBLISH && log[j].kind == PUBLISH ==> log[i].id != log[j].id
  }

  lemma ActPublishesOnce(c: Config, b: Broker, a: Act)
    requires Usable(c) && Conserved(c, b.w) && CanAct(c, b, a) && PublishesOnce(b.log)
    ensures Sound(c, b.w.g) && PublishesOnce(Acted(c, b, a).log)
  {
    hide Conserved, Step, GroupRuns.Enabled, HasRoom, NewlySent, Sound;
    ConservedSound(c, b.w);
  }

  lemma {:induction false} DoPublishesOnce(c: Config, b: Broker, acts: seq<Act>)
    requires Usable(c) && Conserved(c, b.w) && Do(c, b, acts).Some? && PublishesOnce(b.log)
    ensures PublishesOnce(Do(c, b, acts).value.log)
    decreases |acts|
  {
    hide Conserved, Acted, CanAct, PublishesOnce;
    if acts != [] {
      var n := |acts| - 1;
      DoPublishesOnce(c, b, acts[..n]);
      ActPublishesOnce(c, Do(c, b, acts[..n]).value, acts[n]);
    }
  }

  /** The records of one group. */
  function OfGroup(es: seq<Event>, key: Bytes): seq<Event> {
    if es == [] then []
    else OfGroup(es[..|es| - 1], key) + (if es[|es| - 1].group == key then [es[|es| - 1]] else [])
  }

  /** What a group has come to by the acts of its run. */
  ghost function Lived(s: Setup, runs: Bytes -> seq<Act>, key: Bytes): Option<Broker>
    requires AllUsable(s)
  {
    Do(s.config(key), NewBroker(s.config(key), s.limiter(key)), runs(key))
  }

  /** Each group of a queue has run by itself, and the queue's log holds the records of
      all, those of one group in its order. */
  ghost predicate Wrote(s: Setup, runs: Bytes -> seq<Act>, es: seq<Event>)
    requires AllUsable(s)
  {
    forall key :: Lived(s, runs, key).Some? && Renders(OfGroup(es, key), key, Lived(s, runs, key).value.log)
  }

  lemma {:induction false} OwnOfGroup(es: seq<Event>, key: Bytes, id: Bytes)
    ensures Own(OfGroup(es, key), key, id) == Own(es, key, id)
  {
    if es != [] {
      var front, e := es[..|es| - 1], es[|es| - 1];
      OwnOfGroup(front, key, id);
      var g := OfGroup(front, key);
      assert (g + [e])[..|g|] == g && g + [] == g;
    }
  }

  /** Where a record of the group stands among the group's own. */
  lemma {:induction false} PlaceOf(es: seq<Event>, i: nat) returns (k: nat)
    requires i < |es|
    ensures k < |OfGroup(es, es[i].group)| && OfGroup(es, es[i].group)[k] == es[i]
    ensures k == |OfGroup(es[..i], es[i].group)|
  {
    var n := |es| - 1;
    if i < n {
      k := PlaceOf(es[..n], i);
      assert es[..n][..i] == es[..i];
    } else {
      k := |OfGroup(es[..n], es[i].group)|;
    }
  }

  lemma {:induction false} OfGroupGrows(es: seq<Event>, i: nat, key: Bytes)
    requires i <= |es|
    ensures OfGroup(es[..i], key) <= OfGroup(es, key)
  {
    if i < |es| {
      var n := |es| - 1;
      OfGroupGrows(es[..n], i, key);
      assert es[..n][..i] == es[..i];
    } else {
      assert es[..i] == es;
    }
  }

  /** Generated ids make the publishes of the queue's log distinct. */
  lemma WroteDistinct(s: Setup, runs: Bytes -> seq<Act>, es: seq<Event>)
    requires AllUsable(s) && Wrote(s, runs, es)
    ensures DistinctPublishes(es)
  {
    hide AllUsable, Lived;
    forall i, j | 0 <= i < j < |es| && es[i].kind == PUBLISH && es[j].kind == PUBLISH && es[i].group == es[j].group
      ensures es[i].msgID != es[j].msgID
    {
      var key := es[i].group;
      var k := PlaceOf(es, i);
      var l := PlaceOf(es, j);
      OfGroupGrows(es[..j], i + 1, key);
      assert es[..j][..i + 1] == es[..i + 1] && es[..i + 1][..i] == es[..i];
      assert k < l;
      LivedOnce(s, runs, key);
      assert Renders(OfGroup(es, key), key, Lived(s, runs, key).value.log);
    }
  }

  lemma LivedOnce(s: Setup, runs: Bytes -> seq<Act>, key: Bytes)
    requires AllUsable(s) && Lived(s, runs, key).Some?
    ensures PublishesOnce(Lived(s, runs, key).value.log)
  {
    hide Do, Conserved;
    assert Usable(s.config(key));
    DoPublishesOnce(s.config(key), NewBroker(s.config(key), s.limiter(key)), runs(key));
  }

  /** The queue rebuilt from the log, message by message, beside the groups that wrote it:
      one that is held live is in the rebuilt queue unless the depth limit refuses it or
      the first of its records that replay acts on gives it up; one that is not held is
      there exactly when it is not refused and that record is a NACK that leaves an
      attempt, or there is none. */
  lemma RebuiltBesideLive(s: Setup, runs: Bytes -> seq<Act>, es: seq<Event>, clock: seq<int>, key: Bytes, id: Bytes)
    requires AllUsable(s) && Wrote(s, runs, es) && |clock| == |es|
    ensures Lived(s, runs, key).Some?
    ensures var c, b := s.config(key), Lived(s, runs, key).value;
            var own := About(b.log, id);
            var kinds := KindsOf(own);
            var there := SpotOf(ReplayAll(s, es, clock), key, id) != AtNowhere;
            && (id in Holdings(b.w.g) ==>
                  (there <==> !Refused(s, es, key, id) && !exists a: nat :: FirstAt(kinds, a) && GivesUp(c, own[a])))
            && (Gone(b.w, id) || (id !in Holdings(b.w.g) && PUBLISH in kinds) ==>
                  (there <==> !Refused(s, es, key, id) &&
                              ((c.maxAttempts > 1 && FailedFirst(kinds)) || NoneEffective(kinds, |kinds|))))
  {
    hide Do, Conserved, ReplayAll, SpotOf, Refused, FirstAt, GivesUp, FailedFirst, NoneEffective, Holdings, Gone, About,
      ReplayAfter, KindsOf, Wrote, FateOf, DistinctPublishes, Own, OfGroup;
    LivedLog(s, runs, es, key);
    var c, b := s.config(key), Lived(s, runs, key).value;
    WroteDistinct(s, runs, es);
    ReplayPlaces(s, es, clock, key, id);
    FateByOwnRecords(c, es, key, id);
    OwnOfGroup(es, key, id);
    OwnInLog(OfGroup(es, key), key, b.log, id);
    if id in Holdings(b.w.g) {
      LostIff(c, s.limiter(key), runs(key), id);
    }
    if Gone(b.w, id) || (id !in Holdings(b.w.g) && PUBLISH in KindsOf(About(b.log, id))) {
      RevivedIff(c, s.limiter(key), runs(key), id);
    }
  }

  lemma LivedLog(s: Setup, runs: Bytes -> seq<Act>, es: seq<Event>, key: Bytes)
    requires AllUsable(s) && Wrote(s, runs, es)
    ensures Usable(s.config(key)) && Lived(s, runs, key).Some?
    ensures Renders(OfGroup(es, key), key, Lived(s, runs, key).value.log)
  {
    hide Renders, OfGroup, Do;
  }

  // ---------------------------------------------------------------------------
  // Runs that differ
  // ---------------------------------------------------------------------------

  lemma DoMore(c: Config, b: Broker, acts: seq<Act>, a: Act)
    requires Usable(c) && Conserved(c, b.w) && Do(c, b, acts).Some? && CanAct(c, Do(c, b, acts).value, a)
    ensures Do(c, b, acts + [a]) == Some(Acted(c, Do(c, b, acts).value, a))
  {
    hide Conserved, Acted, CanAct;
    assert (acts + [a])[..|acts|] == acts;
  }

  /** A handler's two acts, one right after the other. */
  function FrameOf(r: Rec, op: Op, at: nat): seq<Act> {
    [Append(r.kind, r.id)] + [Handle(op, at)]
  }

  lemma FrameActs(c: Config, start: Broker, acts: seq<Act>, op: Op)
    requires Usable(c) && Conserved(c, start.w) && Do(c, start, acts).Some?
    requires var b := Do(c, start, acts).value;
             && b.handling == {} && GroupRuns.Enabled(c, b.w, op) && RecordOf(c, b.w.g, op).Some?
             && CanAppend(b.log, RecordOf(c, b.w.g, op).value.kind, RecordOf(c, b.w.g, op).value.id)
    ensures var b := Do(c, start, acts).value;
            var r, w := RecordOf(c, b.w.g, op).value, Step(c, b.w, op);
            Do(c, start, acts + FrameOf(r, op, |b.log|)) ==
            Some(Broker(w, b.log + [r], {}, b.leases + NewlySent(b.w, w), b.expiries))
  {
    hide Conserved, Step, NewlySent, HasRoom, Sound, Do, CanAppend, GroupRuns.Enabled;
    var b := Do(c, start, acts).value;
    ConservedSound(c, b.w);
    var r, n := RecordOf(c, b.w.g, op).value, |b.log|;
    DoMore(c, start, acts, Append(r.kind, r.id));
    var m := Do(c, start, acts + [Append(r.kind, r.id)]).value;
    assert m.w == b.w && m.log == b.log + [Rec(r.kind, r.id, false)] && m.handling == {n};
    DoMore(c, start, acts + [Append(r.kind, r.id)], Handle(op, n));
    assert acts + FrameOf(r, op, n) == acts + [Append(r.kind, r.id)] + [Handle(op, n)];
    assert m.log[n := r] == b.log + [r];
    assert {n} - {n} == {};
  }

  /** A message published and delivered at once. */
  function Delivered(c: Config, id: Bytes): World {
    var m := Lease(c, NewMessage(id, [], 0), 0);
    World(Group([], [], [], map[id := m], None, 0), [id], [], [Delivery(id, 0)], 0, 0, true)
  }

  function Published(id: Bytes): World {
    World(Enqueue(NewGroup(None), NewMessage(id, [], 0)), [id], [], [], 0, 0, true)
  }

  lemma DeliverOne(c: Config, id: Bytes)
    requires Usable(c)
    ensures Tried(c, Published(id), 0, []) == Delivered(c, id) && Expired(Published(id).g, 0) == {}
  {
    var m := NewMessage(id, [], 0);
    var g := Enqueue(NewGroup(None), m);
    assert g.ready == [Some(m)];
    assert LiveSlots(g.ready) == [m] by { LiveSnoc([], m); }
    assert SlotsOf([]) == [];
    assert Promote(g, 0, []) == g;
    assert Backlog(g) == [m];
    assert Blocked(c, g, 0) == None;
    assert Skip(g.ready) == [];
  }

  function PublishRun(id: Bytes): seq<Act> {
    FrameOf(Rec(PUBLISH, id, true), Publish(id, [], 0), 0)
  }

  /** The first acts of the runs below: publish, deliver. */
  function Prelude(id: Bytes): seq<Act> {
    PublishRun(id) + [Engine(TryDispatch(0, []))]
  }

  lemma PublishFirst(c: Config, id: Bytes)
    requires Usable(c)
    ensures Do(c, NewBroker(c, None), PublishRun(id))
         == Some(Broker(Published(id), [Rec(PUBLISH, id, true)], {}, multiset{}, multiset{}))
  {
    hide Conserved;
    var start, op := NewBroker(c, None), Publish(id, [], 0);
    ConservedSound(c, start.w);
    FrameActs(c, start, [], op);
    assert [] + PublishRun(id) == PublishRun(id);
    hide Do, Sound;
    assert Step(c, start.w, op) == Published(id);
    assert NewlySent(start.w, Published(id)) == multiset{};
    assert start.log + [Rec(PUBLISH, id, true)] == [Rec(PUBLISH, id, true)];
  }

  lemma DeliveredIsReached(c: Config, id: Bytes)
    requires Usable(c)
    ensures Do(c, NewBroker(c, None), Prelude(id))
         == Some(Broker(Delivered(c, id), [Rec(PUBLISH, id, true)], {}, multiset{id}, multiset{}))
  {
    hide Conserved, Tried, Do, Sound;
    var send := Engine(TryDispatch(0, []));
    PublishFirst(c, id);
    DeliverOne(c, id);
    var b := Do(c, NewBroker(c, None), PublishRun(id)).value;
    ConservedSound(c, b.w);
    DoMore(c, NewBroker(c, None), PublishRun(id), send);
    assert Delivered(c, id).sent[0..] == [Delivery(id, 0)];
    assert DeliveredIds([Delivery(id, 0)]) == [id];
    assert NewlySent(b.w, Delivered(c, id)) == multiset{id};
    assert multiset{} + multiset{id} == multiset{id};
  }

  lemma {:induction false} AboutAll(log: seq<Rec>, id: Bytes)
    requires forall r <- log :: r.id == id
    ensures About(log, id) == log
  {
    if log != [] {
      AboutAll(log[..|log| - 1], id);
    }
  }

  /** The delivered message after its lease ran out and was swept. */
  function Swept(c: Config, id: Bytes): World {
    var m := Lease(c, NewMessage(id, [], 0), 0).(state := Pending);
    Delivered(c, id).(g := Group([Some(m)], [], [], map[], None, 0))
  }

  lemma SweepOne(c: Config, id: Bytes)
    ensures ReturnAll(Delivered(c, id).g, [id]) == Swept(c, id).g
    ensures Lists([id], Expired(Delivered(c, id).g, c.leaseTimeout + 1))
    ensures id !in Swept(c, id).g.processing && id in Holdings(Swept(c, id).g)
  {
    var g, r := Delivered(c, id).g, Swept(c, id).g;
    assert [id][..0] == [] && ReturnAll(g, []) == g;
    assert g.processing - {id} == map[];
    var m := r.urgent[0].value;
    assert LiveSlots(r.urgent) == [m] by { LiveSnoc([], m); assert [] + [Some(m)] == r.urgent; }
    assert Backlog(r) == [m];
    IdsOne(m);
  }

  /** Publish, deliver, append the LEASE, sweep the lease when it is over. */
  function SweptRun(c: Config, id: Bytes): seq<Act> {
    Prelude(id) + [AppendLease(id)] + [Engine(Sweep(c.leaseTimeout + 1, [id]))]
  }

  /** The message delivered and its LEASE appended. */
  function LeasedBroker(c: Config, id: Bytes): Broker {
    Broker(Delivered(c, id), [Rec(PUBLISH, id, true), Rec(LEASE, id, true)], {}, multiset{}, multiset{})
  }

  function SweptBroker(c: Config, id: Bytes): Broker {
    LeasedBroker(c, id).(w := Swept(c, id), expiries := multiset{id})
  }

  lemma LeasedIsReached(c: Config, id: Bytes)
    requires Usable(c)
    ensures Do(c, NewBroker(c, None), Prelude(id) + [AppendLease(id)]) == Some(LeasedBroker(c, id))
  {
    hide Conserved, Do, Sound, Delivered;
    DeliveredIsReached(c, id);
    DoMore(c, NewBroker(c, None), Prelude(id), AppendLease(id));
    assert multiset{id} - multiset{id} == multiset{};
    assert [Rec(PUBLISH, id, true)] + [Rec(LEASE, id, true)] == LeasedBroker(c, id).log;
  }

  lemma SweepActs(c: Config, id: Bytes)
    requires Usable(c) && Sound(c, Delivered(c, id).g)
    ensures var sweep := Engine(Sweep(c.leaseTimeout + 1, [id]));
            CanAct(c, LeasedBroker(c, id), sweep) && Acted(c, LeasedBroker(c, id), sweep) == SweptBroker(c, id)
  {
    hide Sound, ReturnAll, Expired, Lists, Holdings, Lease;
    SweepOne(c, id);
    var b := LeasedBroker(c, id);
    assert b.w.sent[1..] == [];
    assert NewlySent(b.w, Swept(c, id)) == multiset{};
    assert multiset([id]) == multiset{id};
  }

  lemma SweptIsReached(c: Config, id: Bytes)
    requires Usable(c)
    ensures Do(c, NewBroker(c, None), SweptRun(c, id)) == Some(SweptBroker(c, id))
  {
    hide Conserved, Do, Sound, Acted, CanAct;
    LeasedIsReached(c, id);
    ConservedSound(c, Delivered(c, id));
    SweepActs(c, id);
    DoMore(c, NewBroker(c, None), Prelude(id) + [AppendLease(id)], Engine(Sweep(c.leaseTimeout + 1, [id])));
  }

  lemma LateAck(c: Config, id: Bytes)
    requires Sound(c, Swept(c, id).g) && Usable(c)
    ensures Step(c, Swept(c, id), Ack(id)) == Swept(c, id)
    ensures RecordOf(c, Swept(c, id).g, Ack(id)) == Some(Rec(ACK, id, false))
  {
    hide Sound;
    assert Swept(c, id).g.processing - {id} == map[];
  }

  function LastActs(id: Bytes, late: bool): seq<Act> {
    if late then FrameOf(Rec(ACK, id, false), Ack(id), 2) else [AppendExpire(id)]
  }

  function LastRecord(id: Bytes, late: bool): Rec {
    if late then Rec(ACK, id, false) else Rec(EXPIRE, id, true)
  }

  lemma LastIsReached(c: Config, id: Bytes, late: bool)
    requires Usable(c)
    ensures var r := Do(c, NewBroker(c, None), SweptRun(c, id) + LastActs(id, late));
            && r.Some? && r.value.w == Swept(c, id)
            && r.value.log == SweptBroker(c, id).log + [LastRecord(id, late)]
  {
    hide Conserved, Do, Sound, Swept, Step, FrameOf, NewlySent, SweptRun, LeasedBroker;
    SweptIsReached(c, id);
    ConservedSound(c, Swept(c, id));
    SweptLog(c, id);
    if late {
      LateAck(c, id);
      FrameActs(c, NewBroker(c, None), SweptRun(c, id), Ack(id));
    } else {
      DoMore(c, NewBroker(c, None), SweptRun(c, id), AppendExpire(id));
    }
  }

  lemma SweptLog(c: Config, id: Bytes)
    ensures SweptBroker(c, id).log == [Rec(PUBLISH, id, true), Rec(LEASE, id, true)]
    ensures SweptBroker(c, id).handling == {}
  {
  }

  /** A message whose lease was swept waits in the live group, and replay drops it: by
      its EXPIRE, and just as well by an ACK that comes after the sweep. */
  lemma SweptMessageIsLost(c: Config, id: Bytes, late: bool)
    requires Usable(c)
    ensures var r := Do(c, NewBroker(c, None), SweptRun(c, id) + LastActs(id, late));
            && r.Some? && id in Holdings(r.value.w.g)
            && !Present(ReplayAfter(c, KindsOf(About(r.value.log, id))))
  {
    hide Conserved, Do, Sound, ReplayAfter, Holdings, Swept, SweptBroker, LastActs, SweptRun;
    LastIsReached(c, id, late);
    SweepOne(c, id);
    SweptLog(c, id);
    var log := SweptBroker(c, id).log + [LastRecord(id, late)];
    AboutAll(log, id);
    assert KindsOf(log) == [PUBLISH, LEASE, if late then ACK else EXPIRE];
    ThirdDecides(c, KindsOf(log));
  }

  lemma ThirdDecides(c: Config, kinds: seq<Byte>)
    requires |kinds| == 3 && kinds[0] == PUBLISH && kinds[1] == LEASE
    requires kinds[2] == ACK || kinds[2] == NACK || kinds[2] == EXPIRE
    ensures ReplayAfter(c, kinds) == if kinds[2] == NACK && c.maxAttempts > 1 then Fate.Retrying else Fate.Ended
  {
    var k2, k1 := kinds[..2], kinds[..1];
    assert k2[..1] == k1 && k1[..0] == [];
    assert ReplayAfter(c, k1) == Waiting && ReplayAfter(c, k2) == Out;
  }

  // A message that fails once, is delivered again and then acknowledged.

  function Again(c: Config, id: Bytes): Message {
    Rescheduled(c, Lease(c, NewMessage(id, [], 0), 0), [], 0)
  }

  function Failed(c: Config, id: Bytes): World {
    Delivered(c, id).(g := Group([], [], [Again(c, id)], map[], None, 0))
  }

  function Retried(c: Config, id: Bytes): World {
    var m := Again(c, id);
    Failed(c, id).(g := Group([], [], [], map[id := Lease(c, m, m.scheduledAt)], None, 0),
                   sent := [Delivery(id, 0), Delivery(id, 0)])
  }

  lemma FailOne(c: Config, id: Bytes)
    requires c.maxAttempts > 1
    ensures Nacked(c, Delivered(c, id), id, [], 0) == Failed(c, id)
  {
    hide RetryDelay;
    var g := Delivered(c, id).g;
    assert g.processing - {id} == map[];
    assert Insert([], Again(c, id)) == [Again(c, id)];
  }

  lemma RetryOne(c: Config, id: Bytes)
    requires Usable(c)
    ensures Tried(c, Failed(c, id), Again(c, id).scheduledAt, []) == Retried(c, id)
    ensures Expired(Failed(c, id).g, Again(c, id).scheduledAt) == {}
  {
    hide RetryDelay;
    var m, g := Again(c, id), Failed(c, id).g;
    var p := Group([], [Some(m)], [], map[], None, 0);
    assert Due(g.delayed, m.scheduledAt) == 1;
    assert g.ready + SlotsOf(g.delayed[..1]) == [Some(m)];
    assert Promote(g, m.scheduledAt, []) == p;
    assert LiveSlots(p.ready) == [m] by { LiveSnoc([], m); assert [] + [Some(m)] == p.ready; }
    assert Backlog(p) == [m];
    assert Blocked(c, p, m.scheduledAt) == None;
    assert Skip(p.ready) == [];
    assert Failed(c, id).sent + [Delivery(id, 0)] == Retried(c, id).sent;
  }

  lemma NackActs(c: Config, start: Broker, acts: seq<Act>, id: Bytes)
    requires Usable(c) && c.maxAttempts > 1 && Conserved(c, start.w) && Do(c, start, acts).Some?
    requires Do(c, start, acts).value.w == Delivered(c, id) && Do(c, start, acts).value.handling == {}
    ensures var b := Do(c, start, acts).value;
            var r := Rec(NACK, id, true);
            Do(c, start, acts + FrameOf(r, Nack(id, [], 0), |b.log|)) ==
            Some(b.(w := Failed(c, id), log := b.log + [r]))
  {
    hide Conserved, Sound, Nacked, Failed, Do;
    var b := Do(c, start, acts).value;
    FailOne(c, id);
    FailedSent(c, id);
    FrameActs(c, start, acts, Nack(id, [], 0));
    assert b.w.sent[1..] == [];
    assert NewlySent(b.w, Failed(c, id)) == multiset{};
    assert b.leases + multiset{} == b.leases;
  }

  lemma FailedSent(c: Config, id: Bytes)
    ensures Failed(c, id).sent == Delivered(c, id).sent
  {
  }

  lemma RetryActs(c: Config, b: Broker, id: Bytes)
    requires Usable(c) && b.w == Failed(c, id) && Sound(c, b.w.g)
    ensures var a := Engine(TryDispatch(Again(c, id).scheduledAt, []));
            && CanAct(c, b, a)
            && var r := Acted(c, b, a); r.w == Retried(c, id) && r.log == b.log && r.handling == b.handling
  {
    hide Sound, Tried, Expired, Retried, Failed;
    RetryOne(c, id);
  }

  lemma AckEnds(c: Config, id: Bytes)
    requires Usable(c) && Sound(c, Retried(c, id).g)
    ensures Gone(Step(c, Retried(c, id), Ack(id)), id)
    ensures RecordOf(c, Retried(c, id).g, Ack(id)) == Some(Rec(ACK, id, true))
  {
    hide Sound, Again;
    var m := Retried(c, id).g.processing[id].(state := Done);
    assert m.id == id by { AgainKeepsId(c, id); }
    InIds([], m, id);
    assert [] + [m] == [m];
  }

  lemma AgainKeepsId(c: Config, id: Bytes)
    ensures Again(c, id).id == id
  {
  }

  /** Publish and deliver; append the LEASE and fail the message, in either order. */
  function FailedRun(id: Bytes, nackFirst: bool): seq<Act> {
    if nackFirst then Prelude(id) + FrameOf(Rec(NACK, id, true), Nack(id, [], 0), 1) + [AppendLease(id)]
    else Prelude(id) + [AppendLease(id)] + FrameOf(Rec(NACK, id, true), Nack(id, [], 0), 2)
  }

  /** Deliver it again; acknowledge it. */
  function RetriedRun(c: Config, id: Bytes, nackFirst: bool): seq<Act> {
    FailedRun(id, nackFirst) + [Engine(TryDispatch(Again(c, id).scheduledAt, []))] +
    FrameOf(Rec(ACK, id, true), Ack(id), 3)
  }

  function FailedLog(id: Bytes, nackFirst: bool): seq<Rec> {
    var publish, nack, lease := Rec(PUBLISH, id, true), Rec(NACK, id, true), Rec(LEASE, id, true);
    if nackFirst then [publish] + [nack] + [lease] else [publish] + [lease] + [nack]
  }

  lemma FailedIsReached(c: Config, id: Bytes, nackFirst: bool)
    requires Usable(c) && c.maxAttempts > 1
    ensures var r := Do(c, NewBroker(c, None), FailedRun(id, nackFirst));
            && r.Some? && r.value.w == Failed(c, id) && r.value.log == FailedLog(id, nackFirst)
            && r.value.handling == {}
  {
    hide Conserved, Do, Sound, Delivered, Failed, FrameOf, Prelude;
    var start, nack := NewBroker(c, None), FrameOf(Rec(NACK, id, true), Nack(id, [], 0), 1);
    if nackFirst {
      DeliveredIsReached(c, id);
      NackActs(c, start, Prelude(id), id);
      var b := Do(c, start, Prelude(id) + nack).value;
      ConservedSound(c, b.w);
      DoMore(c, start, Prelude(id) + nack, AppendLease(id));
    } else {
      LeasedIsReached(c, id);
      NackActs(c, start, Prelude(id) + [AppendLease(id)], id);
    }
  }

  /** Whether a message that failed once and was then acknowledged comes back depends on
      whether its NACK was appended behind its LEASE: if so it does, if not it does not. */
  lemma AcknowledgedMessageComesBack(c: Config, id: Bytes, nackFirst: bool)
    requires Usable(c) && c.maxAttempts > 1
    ensures var r := Do(c, NewBroker(c, None), RetriedRun(c, id, nackFirst));
            && r.Some? && Gone(r.value.w, id)
            && (Present(ReplayAfter(c, KindsOf(About(r.value.log, id)))) <==> !nackFirst)
  {
    hide Conserved, Do, Sound, Failed, Retried, Gone, ReplayAfter, Again, Acted, CanAct, FailedRun, FrameOf, Step,
      NewlySent;
    var start, again := NewBroker(c, None), Engine(TryDispatch(Again(c, id).scheduledAt, []));
    FailedIsReached(c, id, nackFirst);
    var b := Do(c, start, FailedRun(id, nackFirst)).value;
    ConservedSound(c, b.w);
    RetryActs(c, b, id);
    DoMore(c, start, FailedRun(id, nackFirst), again);
    var m := Do(c, start, FailedRun(id, nackFirst) + [again]).value;
    ConservedSound(c, m.w);
    AckEnds(c, id);
    FrameActs(c, start, FailedRun(id, nackFirst) + [again], Ack(id));
    FailedOutcome(c, id, nackFirst);
  }

  lemma FailedOutcome(c: Config, id: Bytes, nackFirst: bool)
    requires c.maxAttempts > 1
    ensures Present(ReplayAfter(c, KindsOf(About(FailedLog(id, nackFirst) + [Rec(ACK, id, true)], id)))) <==> !nackFirst
  {
    var log := FailedLog(id, nackFirst) + [Rec(ACK, id, true)];
    hide About, ReplayAfter;
    AboutAll(log, id);
    var kinds := KindsOf(log);
    assert kinds == [PUBLISH, if nackFirst then NACK else LEASE, if nackFirst then LEASE else NACK, ACK];
    FourRecords(c, kinds, nackFirst);
  }

  lemma FourRecords(c: Config, kinds: seq<Byte>, nackFirst: bool)
    requires c.maxAttempts > 1
    requires kinds == [PUBLISH, if nackFirst then NACK else LEASE, if nackFirst then LEASE else NACK, ACK]
    ensures ReplayAfter(c, kinds) == if nackFirst then Fate.Ended else Fate.Retrying
  {
    var k3, k2, k1 := kinds[..3], kinds[..2], kinds[..1];
    assert k3[..2] == k2 && k2[..1] == k1 && k1[..0] == [];
    assert ReplayAfter(c, k1) == Waiting;
    assert ReplayAfter(c, k2) == if nackFirst then Waiting else Out;
    assert ReplayAfter(c, k3) == if nackFirst then Out else Retrying;
  }
}
