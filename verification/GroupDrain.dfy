/** The drain round: the loop's steps against the closed form, soundness, and the
    promise that a group with work left is not stranded. */
module GroupDrain {
  import opened Bytes
  import opened Messages
  import opened RateLimiter
  import opened GroupSpec
  import opened GroupConservation

  // ---------------------------------------------------------------------------
  // The loop, step by step
  // ---------------------------------------------------------------------------

  /** The group when j messages of the round have been sent. */
  function Partial(c: Config, g: Group, now: int, j: nat): Group
    requires j <= |Backlog(g)|
  {
    Dispatch(c, g, now, j).(
      deficit := Credit(c, g) - j,
      limiter := if g.limiter.None? then None else Some(CalledTimes(g.limiter.value, now, j)))
  }

  lemma {:induction false} DispatchSnoc(c: Config, g: Group, now: int, n: nat)
    requires n < |Backlog(g)|
    ensures Backlog(Dispatch(c, g, now, n)) == Backlog(g)[n..]
    ensures Dispatch(c, g, now, n + 1) == DispatchOne(c, Dispatch(c, g, now, n), now)
    decreases n
  {
    hide Backlog, DispatchOne;
    if n > 0 {
      BacklogAfterOne(c, g, now);
      DispatchSnoc(c, DispatchOne(c, g, now), now, n - 1);
      assert Backlog(g)[1..][n - 1..] == Backlog(g)[n..];
    } else {
      assert Dispatch(c, DispatchOne(c, g, now), now, 0) == DispatchOne(c, g, now);
    }
  }

  lemma {:induction false} BacklogAfter(c: Config, g: Group, now: int, n: nat)
    requires n <= |Backlog(g)|
    ensures Backlog(Dispatch(c, g, now, n)) == Backlog(g)[n..]
    decreases n
  {
    hide Backlog, DispatchOne;
    if n > 0 {
      BacklogAfterOne(c, g, now);
      BacklogAfter(c, DispatchOne(c, g, now), now, n - 1);
      assert Backlog(g)[1..][n - 1..] == Backlog(g)[n..];
    }
  }

  /** What limits the round, seen from a point within it. */
  lemma PartialView(c: Config, g: Group, now: int, j: nat)
    requires Sound(c, g) && j <= |Backlog(g)|
    ensures var p := Partial(c, g, now, j);
            Backlog(p) == Backlog(g)[j..] && |p.processing| == |g.processing| + j &&
            p.delayed == g.delayed && p.limiter.Some? == g.limiter.Some? &&
            (g.limiter.Some? ==>
               p.limiter.value.max == g.limiter.value.max &&
               Tokens(p.limiter.value, now) == if j <= Tokens(g.limiter.value, now) then Tokens(g.limiter.value, now) - j else 0)
  {
    hide Sound, LiveSlots, Tokens;
    DispatchSound(c, g, now, j);
    DispatchFrame(c, g, now, j);
    if g.limiter.Some? {
      CallsTakeTokens(g.limiter.value, now, j);
    }
  }

  lemma AskView(g: Group, now: int)
    ensures g.limiter.Some? ==> (Allows(g.limiter.value, now) <==> Tokens(g.limiter.value, now) > 0)
  {
    if g.limiter.Some? {
      CallTakesToken(g.limiter.value, now);
    }
  }

  /** While the batch is short of its size nothing blocks, and one more send leads
      to the next partial state. */
  lemma RoundGoesOn(c: Config, g: Group, now: int, j: nat)
    requires Sound(c, g) && Credit(c, g) >= 0 && j < BatchSize(c, g, now)
    ensures var p := Partial(c, g, now, j);
            Blocked(c, p, now) == None && Backlog(p)[0] == Backlog(g)[j] &&
            var q := NextDispatchable(c, p, now);
            q.(deficit := q.deficit - 1) == Partial(c, g, now, j + 1)
  {
    var p := Partial(c, g, now, j);
    PartialView(c, g, now, j);
    AskView(p, now);
    hide Sound, Tokens, Called;
    assert Blocked(c, p, now) == None;
    DispatchSnoc(c, g, now, j);
    DispatchFrame(c, g, now, j);
    hide Dispatch;
    var d := Dispatch(c, g, now, j);
    OneFromSame(c, d, AskLimiter(p, now), now);
  }

  /** Sending one message depends only on the queues and the messages in flight. */
  lemma OneFromSame(c: Config, d: Group, e: Group, now: int)
    requires Backlog(d) != [] && e == d.(deficit := e.deficit, limiter := e.limiter)
    ensures Backlog(e) == Backlog(d)
    ensures DispatchOne(c, e, now) == DispatchOne(c, d, now).(deficit := e.deficit, limiter := e.limiter)
  {
  }

  /** When the batch is complete and credit remains, the stop reason is the one of the
      closed form, and the last look leaves the drained group. */
  lemma RoundStops(c: Config, g: Group, now: int)
    requires Sound(c, g) && Credit(c, g) >= 0
    ensures var k := BatchSize(c, g, now);
            var p := Partial(c, g, now, k);
            (k == Credit(c, g) ==> Drained(c, g, now) == p && RoundStop(c, g, now) == None) &&
            (k < Credit(c, g) ==>
               Blocked(c, p, now) == RoundStop(c, g, now) != None &&
               Drained(c, g, now) == NextDispatchable(c, p, now))
  {
    hide Sound, Tokens, Called, Dispatch, Blocked, RoundStop, BatchSize, Drained, Partial, NextDispatchable;
    StopReason(c, g, now);
    if BatchSize(c, g, now) == Credit(c, g) {
      SpentRound(c, g, now);
    } else {
      StoppedRound(c, g, now);
    }
  }

  /** A round that spends its credit leaves the last partial state. */
  lemma SpentRound(c: Config, g: Group, now: int)
    requires Credit(c, g) >= 0 && RoundStop(c, g, now) == None
    ensures Drained(c, g, now) == Partial(c, g, now, BatchSize(c, g, now))
  {
    hide Tokens, Dispatch, RoundStop, BatchSize, CalledTimes;
  }

  /** A round that is stopped leaves what the last look makes of it. */
  lemma StoppedRound(c: Config, g: Group, now: int)
    requires Credit(c, g) >= 0 && RoundStop(c, g, now) != None
    requires Blocked(c, Partial(c, g, now, BatchSize(c, g, now)), now) == RoundStop(c, g, now)
    ensures Drained(c, g, now) == NextDispatchable(c, Partial(c, g, now, BatchSize(c, g, now)), now)
  {
    hide Tokens, Dispatch, RoundStop, BatchSize, Blocked, Called;
    var k := BatchSize(c, g, now);
    if g.limiter.Some? {
      OneMoreCall(g.limiter.value, now, k);
    }
    hide CalledTimes;
  }

  lemma OneMoreCall(l: Limiter, now: int, k: nat)
    ensures CalledTimes(l, now, k + 1) == Called(CalledTimes(l, now, k), now)
  {
  }

  lemma StopReason(c: Config, g: Group, now: int)
    requires Sound(c, g) && Credit(c, g) >= 0
    ensures var k := BatchSize(c, g, now);
            var p := Partial(c, g, now, k);
            (k == Credit(c, g) <==> RoundStop(c, g, now) == None) && k <= Credit(c, g) &&
            (k < Credit(c, g) ==> Blocked(c, p, now) == RoundStop(c, g, now))
  {
    var k := BatchSize(c, g, now);
    PartialView(c, g, now, k);
    AskView(Partial(c, g, now, k), now);
    hide Sound, Tokens, Partial;
  }

  // ---------------------------------------------------------------------------
  // Soundness
  // ---------------------------------------------------------------------------

  lemma ClearSound(c: Config, g: Group)
    requires Sound(c, g) && Backlog(g) == []
    ensures Sound(c, g.(urgent := [], ready := [])) && Holdings(g.(urgent := [], ready := [])) == Holdings(g)
  {
    assert Backlog(g.(urgent := [], ready := [])) == [];
  }

  lemma ReLimitSound(c: Config, g: Group, deficit: nat, limiter: Option<Limiter>)
    requires Sound(c, g)
    ensures Sound(c, g.(deficit := deficit, limiter := limiter))
    ensures Holdings(g.(deficit := deficit, limiter := limiter)) == Holdings(g)
    ensures Backlog(g.(deficit := deficit, limiter := limiter)) == Backlog(g)
  {
  }

  /** A round keeps the invariant, loses and duplicates nothing, never takes the
      group over its parallelism, and never lets the credit go negative. */
  lemma DrainedSound(c: Config, g: Group, now: int)
    requires Sound(c, g) && Usable(c)
    ensures var r := Drained(c, g, now);
            Sound(c, r) && Holdings(r) == Holdings(g) &&
            |r.processing| == |g.processing| + BatchSize(c, g, now) &&
            (|g.processing| <= c.parallelism ==> |r.processing| <= c.parallelism)
  {
    assert Credit(c, g) >= 1;
    var k := BatchSize(c, g, now);
    var d := Dispatch(c, g, now, k);
    DispatchSound(c, g, now, k);
    DispatchFrame(c, g, now, k);
    var r := Drained(c, g, now);
    var sent := d.(deficit := Credit(c, g) - k, limiter := r.limiter);
    ReLimitSound(c, d, Credit(c, g) - k, r.limiter);
    hide Sound, Holdings, LiveSlots, Tokens, CalledTimes;
    if RoundStop(c, g, now) == Some(Empty) {
      assert k == |Backlog(g)|;
      assert Backlog(sent) == [];
      ClearSound(c, sent);
    }
  }

  lemma DrainRoundSound(c: Config, g: Group, now: int)
    requires Sound(c, g) && Usable(c)
    ensures var r := DrainRound(c, g, now);
            Sound(c, r) && Holdings(r) == Holdings(g) &&
            (|g.processing| <= c.parallelism ==> |r.processing| <= c.parallelism)
  {
    assert Credit(c, g) >= 1;
    hide Sound, Holdings, Drained;
    DrainedSound(c, g, now);
  }

  // ---------------------------------------------------------------------------
  // The batch
  // ---------------------------------------------------------------------------

  lemma OneInFlight(c: Config, g: Group, now: int)
    requires Sound(c, g) && Backlog(g) != []
    ensures var m := Backlog(g)[0];
            m.id !in g.processing && DispatchOne(c, g, now).processing == g.processing[m.id := Lease(c, m, now)]
  {
    DispatchOneHolds(c, g, now);
  }

  /** Every message of the batch is in flight afterwards, leased at now, and nothing
      else in flight has changed. */
  lemma {:induction false} DispatchInFlight(c: Config, g: Group, now: int, n: nat)
    requires Sound(c, g) && n <= |Backlog(g)|
    ensures var r, b := Dispatch(c, g, now, n), Backlog(g);
            (forall i :: 0 <= i < n ==> b[i].id in r.processing && r.processing[b[i].id] == Lease(c, b[i], now)) &&
            (forall id :: id in g.processing ==> id in r.processing && r.processing[id] == g.processing[id])
    decreases n
  {
    hide Sound, Backlog, DispatchOne, Lease;
    if n > 0 {
      var one, b := DispatchOne(c, g, now), Backlog(g);
      BacklogAfterOne(c, g, now);
      DispatchOneSound(c, g, now);
      OneInFlight(c, g, now);
      DispatchInFlight(c, one, now, n - 1);
      assert forall i :: 1 <= i < n ==> b[1..][i - 1] == b[i];
    }
  }

  /** The message handed out is the one now in flight, for the lease timeout from t. */
  lemma SentLeaseLasts(c: Config, g: Group, t: int, now: int)
    requires Blocked(c, g, t).None?
    ensures var r, m, sent := NextDispatchable(c, g, t), Backlog(g)[0], Sent(c, g, t);
            && m.id in r.processing && sent == Some(r.processing[m.id])
            && sent.value == m.(state := Processing, scheduledAt := t + c.leaseTimeout)
            && (m.id in Expired(r, now) <==> now > t + c.leaseTimeout)
  {
    hide LiveSlots, Skip, Called, Allows;
    assert Backlog(AskLimiter(g, t)) == Backlog(g);
  }

  /** So for each message of a drained batch. */
  lemma BatchLeasesLast(c: Config, g: Group, t: int, now: int, i: nat)
    requires Sound(c, g) && Credit(c, g) >= 0 && i < BatchSize(c, g, t)
    ensures var r, m := Drained(c, g, t), Backlog(g)[i];
            && m.id in r.processing
            && r.processing[m.id] == m.(state := Processing, scheduledAt := t + c.leaseTimeout)
            && (m.id in Expired(r, now) <==> now > t + c.leaseTimeout)
  {
    DispatchInFlight(c, g, t, BatchSize(c, g, t));
    hide Dispatch, BatchSize, RoundStop, CalledTimes, Backlog, Sound;
  }

  /** And for a lease in replay. */
  lemma ReplayedLeaseLasts(c: Config, g: Group, id: Bytes, t: int, now: int)
    requires InSlots(g, id)
    ensures var r := ReplayLease(c, g, id, t);
            && id in r.processing && r.processing[id].id == id && r.processing[id].scheduledAt == t + c.leaseTimeout
            && (id in Expired(r, now) <==> now > t + c.leaseTimeout)
  {
    hide Find;
  }

  /** The messages in flight under these ids, pending again, in the order of the ids. */
  function Returned(p: map<Bytes, Message>, order: seq<Bytes>): seq<Message>
    requires forall id <- order :: id in p
  {
    seq(|order|, i requires 0 <= i < |order| => p[order[i]].(state := Pending))
  }

  lemma ReturnedBacklog(g: Group, id: Bytes)
    requires id in g.processing
    ensures LiveSlots(ReturnToPending(g, id).urgent) == LiveSlots(g.urgent) + [g.processing[id].(state := Pending)]
  {
    LiveSnoc(g.urgent, g.processing[id].(state := Pending));
  }

  /** Leases that end put their messages behind those returned before. */
  lemma {:induction false} ReturnedInOrder(g: Group, order: seq<Bytes>)
    requires forall id <- order :: id in g.processing
    requires forall i, j | 0 <= i < j < |order| :: order[i] != order[j]
    ensures var r := ReturnAll(g, order);
            && LiveSlots(r.urgent) == LiveSlots(g.urgent) + Returned(g.processing, order)
            && r.ready == g.ready && r.delayed == g.delayed
            && forall id :: id in r.processing <==> id in g.processing && id !in order
    ensures forall id <- ReturnAll(g, order).processing :: ReturnAll(g, order).processing[id] == g.processing[id]
  {
    hide LiveSlots;
    if order != [] {
      var n := |order| - 1;
      var front, id := order[..n], order[n];
      assert order == front + [id];
      ReturnedInOrder(g, front);
      assert id !in front;
      ReturnedBacklog(ReturnAll(g, front), id);
      assert Returned(g.processing, order) == Returned(g.processing, front) + [g.processing[id].(state := Pending)];
    }
  }

  /** What a round works through after promotion, in this order: messages returned before,
      those whose lease has just ended, those ready, and the retries now due, earliest
      first and by id at the same time. */
  lemma PromotedBacklog(c: Config, g: Group, now: int, order: seq<Bytes>)
    requires Sound(c, g) && Lists(order, Expired(g, now))
    ensures forall id <- order :: id in g.processing
    ensures var due := g.delayed[..Due(g.delayed, now)];
            && Backlog(Promote(g, now, order))
               == LiveSlots(g.urgent) + Returned(g.processing, order) + LiveSlots(g.ready) + due
            && Ascending(due) && (forall m <- due :: m.scheduledAt <= now)
            && (forall m <- g.delayed[|due|..] :: m.scheduledAt > now)
  {
    assert forall id <- order :: id in Expired(g, now);
    ReturnedInOrder(g, order);
    PromoteDueBacklog(ReturnAll(g, order), now);
    DueSplits(g.delayed, now);
    AscendingFirst(c, g);
    assert Ascending(g.delayed);
    hide Sound, LiveSlots, Due;
  }

  // ---------------------------------------------------------------------------
  // Nothing is stranded
  // ---------------------------------------------------------------------------

  lemma {:induction false} DueSplits(delayed: seq<Message>, now: int)
    ensures var n := Due(delayed, now);
            (forall i :: 0 <= i < n ==> delayed[i].scheduledAt <= now) &&
            (n < |delayed| ==> delayed[n].scheduledAt > now)
  {
    if delayed != [] && delayed[0].scheduledAt <= now {
      DueSplits(delayed[1..], now);
    }
  }

  /** No group is stranded by a drain.  g is the group when the round starts, p the
      promoted group, r the group afterwards.  If anything at all is pending after
      the round, the round reports more work, or a wake-up, or the group is at its
      parallelism; and if a retry is still waiting, a wake-up is reported that comes
      no later than it. */
  lemma NotStranded(c: Config, g: Group, now: int, order: seq<Bytes>, wake: Option<int>)
    requires Sound(c, g) && Usable(c) && Lists(order, Expired(g, now))
    requires (g.limiter.Some? ==> g.limiter.value.max >= 1) && IsEarliest(wake, WakeTimes(g, now))
    ensures var p := Promote(g, now, order);
            Sound(c, p) && (p.limiter.Some? ==> p.limiter.value.max >= 1) &&
            var r, report := DrainRound(c, p, now), RoundReport(c, p, now, wake);
            (PendingCount(r) > 0 ==>
               report.stillPending || report.wakeAt.Some? || |r.processing| >= c.parallelism) &&
            (forall i :: 0 <= i < |r.delayed| ==>
               report.wakeAt.Some? && report.wakeAt.value <= r.delayed[i].scheduledAt)
  {
    hide Sound, Promote, DrainRound, RoundReport, WakeTimes;
    var p := Promote(g, now, order);
    PromoteSound(c, g, now, order);
    PromotedDelayed(c, g, now, order);
    assert Sound(c, p) && Credit(c, p) >= 1 by { SoundCredit(c, p); }
    var r, report := DrainRound(c, p, now), RoundReport(c, p, now, wake);
    var n := Due(g.delayed, now);
    DrainRoundDelayed(c, p, now);
    WakeCovers(g, now, wake);
    ReportCovers(c, p, now, wake);
    if r.delayed != [] {
      AscendingFirst(c, g);
      assert forall i :: 0 <= i < |r.delayed| ==> r.delayed[i] == g.delayed[n + i];
    }
  }

  /** The wake-up a drain reports: no later than the end of any lease that runs, and not
      before now. */
  lemma WakesForLeases(c: Config, g: Group, now: int, order: seq<Bytes>, wake: Option<int>)
    requires Sound(c, g) && Usable(c) && Lists(order, Expired(g, now))
    requires (g.limiter.Some? ==> g.limiter.value.max >= 1) && IsEarliest(wake, WakeTimes(g, now))
    ensures var p := Promote(g, now, order);
            Sound(c, p) && (p.limiter.Some? ==> p.limiter.value.max >= 1) &&
            var at := RoundReport(c, p, now, wake).wakeAt;
            (forall id <- g.processing | now <= g.processing[id].scheduledAt ::
               at.Some? && at.value <= g.processing[id].scheduledAt) &&
            (at.Some? ==> now <= at.value)
  {
    hide Sound, Promote, RoundReport;
    NotStranded(c, g, now, order, wake);
    var p := Promote(g, now, order);
    assert Credit(c, p) >= 1 by { SoundCredit(c, p); }
    forall id <- g.processing | now <= g.processing[id].scheduledAt
      ensures wake.Some? && wake.value <= g.processing[id].scheduledAt
    {
      assert g.processing[id].scheduledAt in WakeTimes(g, now);
    }
    DueSplits(g.delayed, now);
    hide WakeTimes;
    if wake.Some? {
      ReportKeepsWake(c, p, now, wake);
    }
    ReportNotEarly(c, p, now, wake);
  }

  lemma ReportNotEarly(c: Config, p: Group, now: int, wake: Option<int>)
    requires Credit(c, p) >= 0 && (p.limiter.Some? ==> p.limiter.value.max >= 1) && (wake.Some? ==> now <= wake.value)
    ensures var at := RoundReport(c, p, now, wake).wakeAt; at.Some? ==> now <= at.value
  {
    var k := BatchSize(c, p, now);
    if PendingCount(p) > 0 && RoundStop(c, p, now) == Some(RateLimited) {
      TokensRunOut(p.limiter.value, now, k);
      RefusedUntil(CalledTimes(p.limiter.value, now, k), now);
    }
    hide Drained, BatchSize, RetryAt, CalledTimes, Tokens, RoundStop;
  }

  lemma RefusedUntil(l: Limiter, now: int)
    requires l.max >= 1 && !Allows(l, now)
    ensures now <= RetryAt(l, now)
  {
  }

  lemma SoundCredit(c: Config, g: Group)
    requires Sound(c, g) && Usable(c)
    ensures Credit(c, g) >= 1
  {
  }

  lemma PromotedDelayed(c: Config, g: Group, now: int, order: seq<Bytes>)
    requires Sound(c, g)
    ensures Promote(g, now, order).delayed == g.delayed[Due(g.delayed, now)..]
  {
    ReturnAllSound(c, g, order);
  }

  lemma DrainRoundDelayed(c: Config, g: Group, now: int)
    requires Sound(c, g) && Usable(c)
    ensures DrainRound(c, g, now).delayed == g.delayed
  {
    if PendingCount(g) > 0 {
      DispatchFrame(c, g, now, BatchSize(c, g, now));
    }
  }

  lemma AscendingFirst(c: Config, g: Group)
    requires Sound(c, g)
    ensures forall i, j :: 0 <= i < j < |g.delayed| ==> g.delayed[i].scheduledAt <= g.delayed[j].scheduledAt
  {
    forall i, j | 0 <= i < j < |g.delayed| ensures g.delayed[i].scheduledAt <= g.delayed[j].scheduledAt {
      assert Before(g.delayed[i], g.delayed[j]);
    }
  }

  /** The wake time covers the retries that are not due yet. */
  lemma WakeCovers(g: Group, now: int, wake: Option<int>)
    requires IsEarliest(wake, WakeTimes(g, now))
    ensures var n := Due(g.delayed, now);
            n < |g.delayed| ==> wake.Some? && wake.value <= g.delayed[n].scheduledAt
  {
    var n := Due(g.delayed, now);
    if n < |g.delayed| {
      assert g.delayed[n..][0].scheduledAt in WakeTimes(g, now);
    }
  }

  lemma ReportKeepsWake(c: Config, p: Group, now: int, wake: Option<int>)
    requires Credit(c, p) >= 0 && (p.limiter.Some? ==> p.limiter.value.max >= 1) && wake.Some?
    ensures var report := RoundReport(c, p, now, wake);
            report.wakeAt.Some? && report.wakeAt.value <= wake.value
  {
    hide Drained, BatchSize, RetryAt, CalledTimes, Tokens, RoundStop;
  }

  lemma FullWhenCapacity(c: Config, p: Group, now: int)
    requires Sound(c, p) && Usable(c) && RoundStop(c, p, now) == Some(Capacity)
    ensures |Drained(c, p, now).processing| >= c.parallelism
  {
    hide Sound, Drained, Tokens;
    DrainedSound(c, p, now);
  }

  lemma NothingWhenEmpty(c: Config, p: Group, now: int)
    requires Sound(c, p) && Usable(c) && RoundStop(c, p, now) == Some(Empty)
    ensures PendingCount(Drained(c, p, now)) == |p.delayed|
  {
    hide Sound, Tokens, CalledTimes, Dispatch;
    DispatchFrame(c, p, now, BatchSize(c, p, now));
  }

  /** The report says so when work is left. */
  lemma ReportCovers(c: Config, p: Group, now: int, wake: Option<int>)
    requires Sound(c, p) && Usable(c) && (p.limiter.Some? ==> p.limiter.value.max >= 1)
    ensures var r, report := DrainRound(c, p, now), RoundReport(c, p, now, wake);
            (wake.Some? ==> report.wakeAt.Some? && report.wakeAt.value <= wake.value) &&
            (PendingCount(r) > 0 && p.delayed == [] ==>
               report.stillPending || report.wakeAt.Some? || |r.processing| >= c.parallelism)
  {
    assert Credit(c, p) >= 1;
    if wake.Some? {
      ReportKeepsWake(c, p, now, wake);
    }
    hide Sound, Drained, BatchSize, RetryAt, CalledTimes, Tokens, RoundStop;
    if RoundStop(c, p, now) == Some(Capacity) {
      FullWhenCapacity(c, p, now);
    } else if RoundStop(c, p, now) == Some(Empty) {
      NothingWhenEmpty(c, p, now);
    }
  }

  /** Looking for a message where there is none still costs the limiter a token. */
  lemma EmptyLookSpendsToken(c: Config, g: Group, now: int)
    requires g.limiter.Some? && Blocked(c, g, now) == Some(Empty)
    ensures var r := NextDispatchable(c, g, now);
            r.limiter.Some? && r.processing == g.processing &&
            Tokens(r.limiter.value, now) == Tokens(g.limiter.value, now) - 1
  {
    CallTakesToken(g.limiter.value, now);
  }
}
