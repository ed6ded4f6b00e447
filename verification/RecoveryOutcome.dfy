/** What recovery guarantees: which messages are there after replay, how that
    compares with the live queue, and durability from acknowledgement to queue. */
module RecoveryOutcome {
  import opened Bytes
  import opened Messages
  import opened RateLimiter
  import opened Record
  import opened GroupSpec
  import opened GroupConservation
  import opened Recovery
  import opened RecoveryContents
  import opened WriteAheadLog

  predicate Present(f: Fate) {
    f == Waiting || f == Out || f == Retrying
  }

  /** The record is about this message and of this kind. */
  predicate Says(e: Event, key: Bytes, id: Bytes, kind: Byte) {
    IsFor(e, key, id) && e.kind == kind
  }

  ghost predicate Never(es: seq<Event>, key: Bytes, id: Bytes, kind: Byte) {
    forall i :: 0 <= i < |es| ==> !Says(es[i], key, id, kind)
  }

  // ---------------------------------------------------------------------------
  // One message's records decide its fate
  // ---------------------------------------------------------------------------

  /** Replay of the kinds of one message's records. */
  function ReplayAfter(c: Config, kinds: seq<Byte>): Fate {
    if kinds == [] then Unpublished
    else Next(c, ReplayAfter(c, kinds[..|kinds| - 1]), kinds[|kinds| - 1])
  }

  /** The kinds of a message's own records. */
  function Own(es: seq<Event>, key: Bytes, id: Bytes): seq<Byte> {
    if es == [] then []
    else
      var e := es[|es| - 1];
      Own(es[..|es| - 1], key, id) + (if IsFor(e, key, id) then [e.kind] else [])
  }

  /** A message's fate is that of its own records, whatever is between them. */
  lemma {:induction false} FateByOwnRecords(c: Config, es: seq<Event>, key: Bytes, id: Bytes)
    ensures FateOf(c, es, key, id) == ReplayAfter(c, Own(es, key, id))
  {
    if es != [] {
      var front, e := es[..|es| - 1], es[|es| - 1];
      FateByOwnRecords(c, front, key, id);
      var own := Own(front, key, id);
      assert (own + [e.kind])[..|own|] == own;
      assert own + [] == own;
    }
  }

  /** A LEASE stands somewhere behind a PUBLISH. */
  predicate LeaseSeen(kinds: seq<Byte>) {
    exists i, j | 0 <= i < j < |kinds| :: kinds[i] == PUBLISH && kinds[j] == LEASE
  }

  /** A record replay acts on if nothing was acted on before: an ACK behind the PUBLISH,
      a NACK or EXPIRE behind PUBLISH and LEASE. */
  predicate Effective(kinds: seq<Byte>, a: nat)
    requires a < |kinds|
  {
    (kinds[a] == ACK && PUBLISH in kinds[..a])
    || ((kinds[a] == NACK || kinds[a] == EXPIRE) && LeaseSeen(kinds[..a]))
  }

  ghost predicate NoneEffective(kinds: seq<Byte>, n: nat)
    requires n <= |kinds|
  {
    forall i: nat | i < n :: !Effective(kinds, i)
  }

  /** The first effective record. */
  ghost predicate FirstAt(kinds: seq<Byte>, a: nat) {
    a < |kinds| && Effective(kinds, a) && NoneEffective(kinds, a)
  }

  lemma EffectivePrefix(kinds: seq<Byte>, n: nat, a: nat)
    requires a < n <= |kinds|
    ensures Effective(kinds[..n], a) == Effective(kinds, a)
  {
    assert kinds[..n][..a] == kinds[..a];
  }

  lemma NonePrefix(kinds: seq<Byte>, n: nat, a: nat)
    requires a <= n <= |kinds|
    ensures NoneEffective(kinds[..n], a) == NoneEffective(kinds, a)
  {
    hide Effective;
    forall i: nat | i < a ensures Effective(kinds[..n], i) == Effective(kinds, i) {
      EffectivePrefix(kinds, n, i);
    }
  }

  lemma LeaseSeenSnoc(kinds: seq<Byte>)
    requires kinds != []
    ensures var n := |kinds| - 1;
            LeaseSeen(kinds) <==> LeaseSeen(kinds[..n]) || (kinds[n] == LEASE && PUBLISH in kinds[..n])
    ensures PUBLISH in kinds <==> PUBLISH in kinds[..|kinds| - 1] || kinds[|kinds| - 1] == PUBLISH
  {
    var n := |kinds| - 1;
    var front := kinds[..n];
    assert kinds == front + [kinds[n]];
    if LeaseSeen(front) {
      var i, j :| 0 <= i < j < |front| && front[i] == PUBLISH && front[j] == LEASE;
      assert kinds[i] == PUBLISH && kinds[j] == LEASE;
    }
    if kinds[n] == LEASE && PUBLISH in front {
      var i :| 0 <= i < n && front[i] == PUBLISH;
      assert kinds[i] == PUBLISH && kinds[n] == LEASE;
    }
    if LeaseSeen(kinds) {
      var i, j :| 0 <= i < j < |kinds| && kinds[i] == PUBLISH && kinds[j] == LEASE;
      assert front[i] == PUBLISH;
      if j < n {
        assert front[j] == LEASE;
      }
    }
  }

  /** While no record is effective, the message waits from its PUBLISH on and is out
      from the first LEASE behind that. */
  lemma {:induction false} ReplayUntouched(c: Config, kinds: seq<Byte>)
    requires NoneEffective(kinds, |kinds|)
    ensures ReplayAfter(c, kinds)
         == if LeaseSeen(kinds) then Out else if PUBLISH in kinds then Waiting else Unpublished
  {
    hide LeaseSeen;
    if kinds != [] {
      var n := |kinds| - 1;
      NonePrefix(kinds, n, n);
      ReplayUntouched(c, kinds[..n]);
      LeaseSeenSnoc(kinds);
      LeaseSeenPublished(kinds[..n]);
      assert !Effective(kinds, n);
    } else {
      assert !LeaseSeen(kinds) by { NoLeaseSeen(kinds); }
    }
  }

  lemma LeaseSeenPublished(kinds: seq<Byte>)
    ensures LeaseSeen(kinds) ==> PUBLISH in kinds
  {
  }

  lemma NoLeaseSeen(kinds: seq<Byte>)
    requires |kinds| <= 1
    ensures !LeaseSeen(kinds)
  {
  }

  /** The first effective record decides: a NACK that leaves an attempt puts the message
      into the retry heap, where replay never finds it again, and anything else ends it. */
  lemma {:induction false} ReplayByFirst(c: Config, kinds: seq<Byte>, a: nat)
    requires FirstAt(kinds, a)
    ensures ReplayAfter(c, kinds) == if kinds[a] == NACK && c.maxAttempts > 1 then Retrying else Ended
    decreases |kinds|
  {
    hide LeaseSeen;
    var n := |kinds| - 1;
    if a == n {
      NonePrefix(kinds, n, n);
      ReplayUntouched(c, kinds[..n]);
    } else {
      EffectivePrefix(kinds, n, a);
      NonePrefix(kinds, n, a);
      ReplayByFirst(c, kinds[..n], a);
    }
  }

  lemma {:induction false} FirstExists(kinds: seq<Byte>, n: nat) returns (a: nat)
    requires n <= |kinds| && !NoneEffective(kinds, n)
    ensures FirstAt(kinds, a) && a < n
  {
    hide Effective;
    if NoneEffective(kinds, n - 1) {
      a := n - 1;
    } else {
      a := FirstExists(kinds, n - 1);
    }
  }

  /** The first effective record is a NACK: one behind the LEASE, with no ACK and no
      EXPIRE taking effect before it. */
  ghost predicate FailedFirst(kinds: seq<Byte>) {
    exists a: nat :: FirstAt(kinds, a) && kinds[a] == NACK
  }

  lemma FirstIsOne(kinds: seq<Byte>, a: nat, b: nat)
    requires FirstAt(kinds, a) && FirstAt(kinds, b)
    ensures a == b
  {
    hide Effective;
  }

  /** A message with an ACK behind its PUBLISH is gone after replay if and only if its
      first effective record is not a NACK that leaves an attempt; its LEASE may be
      logged after the ACK. */
  lemma AckedIsGoneIff(c: Config, kinds: seq<Byte>, a: nat)
    requires a < |kinds| && kinds[a] == ACK && PUBLISH in kinds[..a]
    ensures ReplayAfter(c, kinds) == Ended <==> !(c.maxAttempts > 1 && FailedFirst(kinds))
  {
    hide ReplayAfter, LeaseSeen, FirstAt;
    assert Effective(kinds, a);
    var f := FirstExists(kinds, |kinds|);
    FailedFirstIs(c, kinds, f);
  }

  /** What the first effective record says of the outcome. */
  lemma FailedFirstIs(c: Config, kinds: seq<Byte>, f: nat)
    requires FirstAt(kinds, f)
    ensures FailedFirst(kinds) <==> kinds[f] == NACK
    ensures ReplayAfter(c, kinds) == if c.maxAttempts > 1 && FailedFirst(kinds) then Retrying else Ended
  {
    hide Effective, ReplayAfter, NoneEffective;
    ReplayByFirst(c, kinds, f);
    if FailedFirst(kinds) {
      var b: nat :| FirstAt(kinds, b) && kinds[b] == NACK;
      FirstIsOne(kinds, f, b);
    }
  }

  lemma {:induction false} NoNackNoRetry(c: Config, es: seq<Event>, key: Bytes, id: Bytes)
    requires Never(es, key, id, NACK)
    ensures FateOf(c, es, key, id) != Retrying
  {
    if es != [] {
      NeverPrefix(es, key, id, NACK);
      NoNackNoRetry(c, es[..|es| - 1], key, id);
    }
  }

  /** A message that was published, never acknowledged and never expired is there after
      replay, however often it failed if more than one attempt is allowed, and if it
      never failed otherwise. */
  lemma {:induction false} UnsettledIsPresent(c: Config, es: seq<Event>, key: Bytes, id: Bytes, p: nat)
    requires c.maxAttempts > 1 || Never(es, key, id, NACK)
    requires p < |es| && Says(es[p], key, id, PUBLISH)
    requires Never(es, key, id, ACK) && Never(es, key, id, EXPIRE)
    ensures Present(FateOf(c, es, key, id))
    decreases |es|
  {
    hide Never;
    var m := |es| - 1;
    NeverLast(c, es, key, id);
    if p < m {
      assert es[..m][p] == es[p];
      UnsettledIsPresent(c, es[..m], key, id, p);
    } else {
      NotEnded(c, es[..m], key, id);
    }
  }

  lemma NeverPrefix(es: seq<Event>, key: Bytes, id: Bytes, kind: Byte)
    requires Never(es, key, id, kind) && es != []
    ensures Never(es[..|es| - 1], key, id, kind) && !Says(es[|es| - 1], key, id, kind)
  {
  }

  /** What the hypotheses say of the last record and the ones before it. */
  lemma NeverLast(c: Config, es: seq<Event>, key: Bytes, id: Bytes)
    requires es != [] && (c.maxAttempts > 1 || Never(es, key, id, NACK))
    requires Never(es, key, id, ACK) && Never(es, key, id, EXPIRE)
    ensures var front, e := es[..|es| - 1], es[|es| - 1];
            && (c.maxAttempts > 1 || Never(front, key, id, NACK))
            && Never(front, key, id, ACK) && Never(front, key, id, EXPIRE)
            && !Says(e, key, id, ACK) && !Says(e, key, id, EXPIRE)
            && (c.maxAttempts > 1 || !Says(e, key, id, NACK))
  {
    hide Never;
    NeverPrefix(es, key, id, ACK);
    NeverPrefix(es, key, id, EXPIRE);
    if c.maxAttempts <= 1 {
      NeverPrefix(es, key, id, NACK);
    }
  }

  lemma {:induction false} NotEnded(c: Config, es: seq<Event>, key: Bytes, id: Bytes)
    requires c.maxAttempts > 1 || Never(es, key, id, NACK)
    requires Never(es, key, id, ACK) && Never(es, key, id, EXPIRE)
    ensures FateOf(c, es, key, id) != Ended
  {
    hide Never;
    if es != [] {
      NeverLast(c, es, key, id);
      NotEnded(c, es[..|es| - 1], key, id);
    }
  }

  // ---------------------------------------------------------------------------
  // The depth limit during replay
  // ---------------------------------------------------------------------------

  /** Replay of one group's records looks at that group's configuration only. */
  lemma {:induction false} OneKey(s: Setup, r: Setup, key: Bytes, es: seq<Event>, clock: seq<int>)
    requires |clock| == |es| && forall i | 0 <= i < |es| :: es[i].group == key
    requires s.config(key) == r.config(key) && s.limiter(key) == r.limiter(key)
    ensures ReplayAll(s, es, clock) == ReplayAll(r, es, clock)
    decreases |es|
  {
    hide HasRoom, ReplayLease, RemoveMessage, Fail, Complete, Enqueue;
    if es != [] {
      var n := |es| - 1;
      OneKey(s, r, key, es[..n], clock[..n]);
      assert es[n].group == key;
    }
  }

  /** A record of the group without payload. */
  function Bare(kind: Byte, key: Bytes, id: Bytes): Event {
    Event(kind, [], [], key, id, [], 0, 0)
  }

  /** Two messages, the first acknowledged before the second is published. */
  function TwoPublishes(key: Bytes, a: Bytes, b: Bytes): seq<Event> {
    [Bare(PUBLISH, key, a), Bare(ACK, key, a), Bare(PUBLISH, key, b)]
  }

  lemma SecondHasNoRoom(s: Setup, key: Bytes, a: Bytes, b: Bytes)
    requires a != b && s.config(key).maxPending == 1
    ensures var es := TwoPublishes(key, a, b);
            Fits(s, es[..2]) && !RoomAt(s, es, 2) && DistinctPublishes(es)
            && FateOf(s.config(key), es[..2], key, a) == Ended
  {
    var es, c := TwoPublishes(key, a, b), s.config(key);
    assert es[..2][..1] == es[..1] && es[..1][..0] == [] && es[..2][..0] == [];
    assert CountOf(es[..1], key, PUBLISH) == 1 && CountOf(es[..2], key, PUBLISH) == 1;
    assert FateOf(c, es[..1], key, a) == Waiting;
    assert RetryingIds(c, [], key) == {};
    assert RoomAt(s, es[..2], 0) && RoomAt(s, es[..2], 1);
  }

  /** Cleared slots count against the depth limit, so a log the live queue accepted
      can be refused: with a limit of one, the second message is lost although the
      first had been acknowledged before it was published. */
  lemma DepthLimitDropsDurableMessage(s: Setup, key: Bytes, a: Bytes, b: Bytes, t: int)
    requires a != b && s.config(key).maxPending == 1 && Usable(s.config(key))
    ensures var q := ReplayAll(s, TwoPublishes(key, a, b), [t, t, t]);
            SpotOf(q, key, b) == AtNowhere && SpotOf(q, key, a) == AtNowhere
  {
    var es, one := TwoPublishes(key, a, b), Setup(_ => s.config(key), s.limiter);
    hide RoomAt, ReplayAll, SpotOf, FateOf, Fits, DistinctPublishes;
    OneKey(s, one, key, es, [t, t, t]);
    SecondHasNoRoom(one, key, a, b);
    RefusedIsNowhere(one, es, [t, t, t]);
  }

  // ---------------------------------------------------------------------------
  // From acknowledgement to queue
  // ---------------------------------------------------------------------------

  /** The broker's durability promise, end to end.  Let the writer be in any state it
      can reach, crash, replay what the crash left, and hand it to the recovery
      handlers: a message whose PUBLISH was acknowledged to its publisher, with no ACK
      or EXPIRE of it in what is left (and no NACK, if one attempt is all it has), is
      held by its group, exactly once and with its payload, if and only if the depth
      limit does not refuse it; and it refuses none if all fit. */
  lemma AcknowledgedPublishIsRecovered(w: Wal, powerLoss: bool, left: seq<Bytes>, s: Setup, clock: seq<int>, e: Event)
    requires Inv(w) && Crash(w, powerLoss, left) && (powerLoss ==> w.durable)
    requires e in w.acked && e.kind == PUBLISH
    requires var es := Replay(left);
             && Never(es, e.group, e.msgID, ACK) && Never(es, e.group, e.msgID, EXPIRE)
             && (s.config(e.group).maxAttempts > 1 || Never(es, e.group, e.msgID, NACK))
             && |clock| == |es|
    requires AllUsable(s) && DistinctPublishes(Log(w))
    ensures var es := Replay(left);
            var q := ReplayAll(s, es, clock);
            && (HeldIn(s, q, e) <==> !Refused(s, es, e.group, e.msgID))
            && (Fits(s, es) ==> HeldIn(s, q, e))
  {
    hide Inv, Crash, WriteAheadLog.Replay, Log, ReplayAll, Rebuilt, Fits, Never, Refused, HeldIn, AllRebuilt,
      Placed, Fitting, OnlyPayload;
    var es, c := Replay(left), s.config(e.group);
    CrashReplay(w, powerLoss, left);
    DistinctTo(Log(w), |es|);
    assert Log(w)[..|es|] == es;
    var p :| 0 <= p < |es| && es[p] == e;
    UnsettledIsPresent(c, es, e.group, e.msgID, p);
    ReplayWithLimit(s, es, clock);
    ReplayPlaces(s, es, clock, e.group, e.msgID);
    PayloadIsRecovered(s, es, clock, p);
    SpotIsHeld(s, ReplayAll(s, es, clock), e);
    if Fits(s, es) {
      FitsRefusesNone(s, es, e.group, e.msgID);
    }
  }

  /** The message is held by its group, which is sound, exactly once, with its payload. */
  ghost predicate HeldIn(s: Setup, q: Queue, e: Event) {
    && e.group in q && Sound(s.config(e.group), q[e.group]) && Holdings(q[e.group])[e.msgID] == 1
    && OnlyPayload(q[e.group], e.msgID, e.payload)
  }

  lemma SpotIsHeld(s: Setup, q: Queue, e: Event)
    requires AllRebuilt(s, q) && (e.group in q ==> OnlyPayload(q[e.group], e.msgID, e.payload))
    ensures HeldIn(s, q, e) <==> SpotOf(q, e.group, e.msgID) != AtNowhere
  {
    hide Sound, Holdings, SpotIn, OnlyPayload;
    if e.group in q {
      var g := q[e.group];
      SpotHeld(g, e.msgID);
      if SpotIn(g, e.msgID) != AtNowhere {
        HeldOnce(s.config(e.group), g, e.msgID);
      }
    }
  }

  lemma HeldOnce(c: Config, g: Group, id: Bytes)
    requires Rebuilt(c, g) && SpotIn(g, id) != AtNowhere
    ensures Sound(c, g) && Holdings(g)[id] == 1
  {
    SpotHeld(g, id);
  }
}
