/** The group object: head-indexed slices, a heap, a map and a limiter, updated in
    place.  Each method is proved to perform the corresponding step of GroupSpec and
    to keep the group sound. */
module ConsumerGroup {
  import opened Bytes
  import opened Messages
  import opened DelayedHeap
  import opened RateLimiter
  import opened GroupSpec
  import opened GroupConservation
  import opened GroupDrain
  import GroupRuns

  /** A slice consumed from the front through a head index. */
  datatype Fifo = Fifo(slots: Slots, head: nat)

  function Rest(f: Fifo): Slots {
    if f.head <= |f.slots| then f.slots[f.head..] else []
  }

  function Append(f: Fifo, m: Message): Fifo {
    f.(slots := f.slots + [Some(m)])
  }

  lemma AppendRest(f: Fifo, m: Message)
    requires f.head <= |f.slots|
    ensures Rest(Append(f, m)) == Rest(f) + [Some(m)]
  {
  }

  /** Clears the slot at the head and advances. */
  function Advance(f: Fifo): Fifo
    requires f.head < |f.slots|
  {
    Fifo(f.slots[f.head := None], f.head + 1)
  }

  lemma AdvanceRest(f: Fifo)
    requires f.head < |f.slots|
    ensures Rest(Advance(f)) == Rest(f)[1..] && Rest(f)[0] == f.slots[f.head]
  {
  }

  /** The slot i places behind the head, cleared. */
  function ClearAt(f: Fifo, i: nat): Fifo
    requires f.head + i < |f.slots|
  {
    f.(slots := f.slots[f.head + i := None])
  }

  lemma ClearRest(f: Fifo, i: nat)
    requires f.head + i < |f.slots|
    ensures Rest(ClearAt(f, i)) == Rest(f)[i := None]
  {
  }

  /** The first slot from the head on that holds the message. */
  method FindSlot(f: Fifo, id: Bytes) returns (i: nat)
    requires f.head <= |f.slots|
    ensures i == Find(Rest(f), id)
  {
    var s := Rest(f);
    i := 0;
    while i < |s|
      invariant i <= |s| && Find(s, id) == i + Find(s[i..], id)
    {
      if s[i].Some? && s[i].value.id == id {
        return;
      }
      assert s[i..][1..] == s[i + 1..];
      i := i + 1;
    }
  }

  /** What taking the first message of the two queues leaves. */
  ghost predicate Taken(u: Slots, r: Slots, msg: Option<Message>, u': Slots, r': Slots) {
    if LiveSlots(u) != [] then msg == Some(LiveSlots(u)[0]) && u' == Skip(u) && r' == r
    else if LiveSlots(r) != [] then msg == Some(LiveSlots(r)[0]) && u' == [] && r' == Skip(r)
    else msg == None && u' == [] && r' == []
  }

  lemma SoundHasNoHoles(c: Config, g: GroupSpec.Group)
    requires Sound(c, g)
    ensures NoHoles(g.urgent)
  {
  }

  lemma NextWhenBlocked(c: Config, g: GroupSpec.Group, now: int)
    ensures |g.processing| >= c.parallelism ==>
      Blocked(c, g, now) == Some(Capacity) && Sent(c, g, now) == None && NextDispatchable(c, g, now) == g
    ensures |g.processing| < c.parallelism && g.limiter.Some? && !Allows(g.limiter.value, now) ==>
      Blocked(c, g, now) == Some(RateLimited) && Sent(c, g, now) == None &&
      NextDispatchable(c, g, now) == g.(limiter := Some(Called(g.limiter.value, now)))
  {
  }

  lemma NextWhenTaken(c: Config, g: GroupSpec.Group, now: int, msg: Option<Message>, u: Slots, r: Slots)
    requires |g.processing| < c.parallelism && (g.limiter.Some? ==> Allows(g.limiter.value, now))
    requires Taken(g.urgent, g.ready, msg, u, r)
    ensures var a := AskLimiter(g, now);
            if msg.Some? then
              Sent(c, g, now) == Some(Lease(c, msg.value, now)) &&
              NextDispatchable(c, g, now)
                == a.(urgent := u, ready := r, processing := g.processing[msg.value.id := Lease(c, msg.value, now)])
            else
              Blocked(c, g, now) == Some(Empty) && Sent(c, g, now) == None &&
              NextDispatchable(c, g, now) == a.(urgent := u, ready := r)
  {
    hide Called, Allows, Skip;
    assert Backlog(AskLimiter(g, now)) == Backlog(g);
  }

  class Group {
    const cfg: Config
    const limiter: SlidingWindowLimiter?
    var urgent: Fifo
    var ready: Fifo
    var delayed: seq<Message>
    var processing: map<Bytes, Message>
    var deficit: int

    /** The value this object stands for. */
    ghost function Abs(): GroupSpec.Group
      reads this, limiter
    {
      GroupSpec.Group(Rest(urgent), Rest(ready), Order(delayed), processing,
                      if limiter == null then None else Some(limiter.Abs()), deficit)
    }

    ghost predicate Shaped()
      reads this
    {
      urgent.head <= |urgent.slots| && ready.head <= |ready.slots| &&
      IsHeap(delayed) && DistinctIds(delayed) &&
      Usable(cfg) && (limiter != null ==> limiter.max >= 1)
    }

    ghost predicate Valid()
      reads this, limiter
    {
      Shaped() && Sound(cfg, Abs())
    }

    constructor (cfg: Config, limiter: SlidingWindowLimiter?)
      requires WithDefaults(cfg).maxAttempts >= 1 && (limiter != null ==> limiter.max >= 1)
      ensures Valid() && this.cfg == WithDefaults(cfg) && this.limiter == limiter
      ensures Abs() == NewGroup(if limiter == null then None else Some(limiter.Abs()))
    {
      this.cfg, this.limiter := WithDefaults(cfg), limiter;
      urgent, ready, delayed, processing, deficit := Fifo([], 0), Fifo([], 0), [], map[], 0;
    }

    /** The depth check and enqueue of PublishWithID. */
    method Publish(m: Message) returns (ok: bool)
      requires Valid() && Waits(cfg, m) && m.id !in Holdings(Abs())
      modifies this`ready
      ensures Valid()
      ensures ok == HasRoom(cfg, old(Abs()))
      ensures Abs() == if ok then Enqueue(old(Abs()), m) else old(Abs())
    {
      hide Sound, Holdings, Order, IsHeap, DistinctIds;
      ghost var g := Abs();
      var pending := |urgent.slots| - urgent.head + |ready.slots| - ready.head + |delayed|;
      if cfg.maxPending > 0 && pending >= cfg.maxPending {
        return false;
      }
      AppendRest(ready, m);
      ready := Append(ready, m);
      EnqueueSound(cfg, g, m);
      ok := true;
    }

    /** complete: the message as done, or None if it is not in flight. */
    method Complete(id: Bytes) returns (done: Option<Message>)
      requires Valid()
      modifies this`processing
      ensures Valid() && Abs() == GroupSpec.Complete(old(Abs()), id)
      ensures done == if id in old(processing) then Some(old(processing)[id].(state := Done)) else None
    {
      hide Sound, Order, IsHeap, DistinctIds;
      CompleteSound(cfg, Abs(), id);
      done := None;
      if id in processing {
        done := Some(processing[id].(state := Done));
        processing := processing - {id};
      } else {
        assert processing - {id} == processing;
      }
    }

    /** returnToPending. */
    method ReturnToPending(id: Bytes) returns (found: bool)
      requires Valid()
      modifies this`processing, this`urgent
      ensures Valid() && Abs() == GroupSpec.ReturnToPending(old(Abs()), id)
      ensures found == (id in old(processing))
    {
      hide Sound, Order, IsHeap, DistinctIds;
      ReturnSound(cfg, Abs(), id);
      found := id in processing;
      if found {
        var m := processing[id].(state := Pending);
        AppendRest(urgent, m);
        processing := processing - {id};
        urgent := Append(urgent, m);
      }
    }

    /** fail: a retry with backoff, or the message as it leaves. */
    method Fail(id: Bytes, error: Bytes, now: int) returns (left: Option<Message>)
      requires Valid()
      modifies this`processing, this`delayed
      ensures Valid() && Abs() == GroupSpec.Fail(cfg, old(Abs()), id, error, now)
      ensures left == if id in old(processing) && !Retries(cfg, old(processing)[id])
                      then Some(Exhausted(cfg, old(processing)[id], error)) else None
    {
      hide Sound, Order, IsHeap, DistinctIds, RetryDelay, Insert;
      ghost var g := Abs();
      FailSound(cfg, g, id, error, now);
      left := None;
      if id !in processing {
        return;
      }
      var m := processing[id].(lastError := error, attempts := processing[id].attempts + 1);
      if m.attempts < cfg.maxAttempts {
        var again := m.(scheduledAt := now + RetryDelay(cfg, m.attempts), state := Pending);
        RetryIsNew(cfg, g, delayed, id, again);
        var h := Push(delayed, again);
        PushOrder(delayed, again, h);
        delayed := h;
      } else {
        left := Some(m.(state := if cfg.dlq then DLQ else Failed));
      }
      processing := processing - {id};
    }

    /** Asks the limiter, if there is one. */
    method Ask(now: int) returns (allowed: bool, retryAt: Option<int>)
      requires limiter != null ==> limiter.max >= 1
      modifies limiter
      ensures limiter != null ==> limiter.Abs() == Called(old(limiter.Abs()), now)
      ensures allowed == (limiter == null || Allows(old(limiter.Abs()), now))
      ensures allowed ==> retryAt == None
      ensures !allowed ==> retryAt == Some(RetryAt(old(limiter.Abs()), now))
    {
      allowed, retryAt := true, None;
      if limiter != null {
        var ok, t := limiter.Allow(now);
        if !ok {
          allowed, retryAt := false, Some(t);
        }
      }
    }

    /** The first message of the ready list, if any; cleared slots are skipped. */
    method TakeReady() returns (msg: Option<Message>)
      requires Shaped()
      modifies this`ready
      ensures Shaped()
      ensures var r := old(Rest(ready));
              if LiveSlots(r) == [] then msg == None && Rest(ready) == []
              else msg == Some(LiveSlots(r)[0]) && Rest(ready) == Skip(r)
    {
      hide IsHeap, DistinctIds;
      ghost var r := Rest(ready);
      while ready.head < |ready.slots|
        invariant Shaped()
        invariant LiveSlots(Rest(ready)) == LiveSlots(r)
        invariant LiveSlots(r) != [] ==> Skip(Rest(ready)) == Skip(r)
        decreases |ready.slots| - ready.head
      {
        AdvanceRest(ready);
        msg := ready.slots[ready.head];
        ready := Advance(ready);
        if msg.Some? {
          return;
        }
      }
      ready := Fifo([], 0);
      msg := None;
    }

    /** The first message of the two queues, if any. */
    method TakeFirst() returns (msg: Option<Message>)
      requires Shaped() && NoHoles(Rest(urgent))
      modifies this`urgent, this`ready
      ensures Shaped()
      ensures Taken(old(Rest(urgent)), old(Rest(ready)), msg, Rest(urgent), Rest(ready))
    {
      hide IsHeap, DistinctIds;
      if urgent.head < |urgent.slots| {
        AdvanceRest(urgent);
        assert Rest(urgent)[0].Some?;
        msg := urgent.slots[urgent.head];
        urgent := Advance(urgent);
        return;
      }
      urgent := Fifo([], 0);
      hide Skip;
      msg := TakeReady();
    }

    /** nextDispatchable. */
    method NextDispatchable(now: int) returns (msg: Option<Message>, stop: Stop, wake: Option<int>)
      requires Valid()
      modifies this`urgent, this`ready, this`processing, limiter
      ensures Shaped() && Abs() == GroupSpec.NextDispatchable(cfg, old(Abs()), now)
      ensures msg == Sent(cfg, old(Abs()), now)
      ensures msg == None ==> Blocked(cfg, old(Abs()), now) == Some(stop) && wake == StopWake(old(Abs()), now, stop)
      ensures msg.Some? ==>
        var m := msg.value;
        m.id in processing && processing[m.id] == m && m.state == Processing && m.scheduledAt == now + cfg.leaseTimeout
    {
      hide Sound, Order, IsHeap, DistinctIds, Called, Allows, RetryAt, Taken, Sent, Blocked, GroupSpec.NextDispatchable;
      ghost var g := Abs();
      SoundHasNoHoles(cfg, g);
      NextWhenBlocked(cfg, g, now);
      msg, stop, wake := None, Empty, None;
      if |processing| >= cfg.parallelism {
        stop := Capacity;
        return;
      }
      var allowed, retryAt := Ask(now);
      if !allowed {
        stop, wake := RateLimited, retryAt;
        return;
      }
      var first := TakeFirst();
      NextWhenTaken(cfg, g, now, first, Rest(urgent), Rest(ready));
      if first.Some? {
        var m := first.value.(state := Processing, scheduledAt := now + cfg.leaseTimeout);
        processing := processing[m.id := m];
        msg := Some(m);
        return;
      }
      wake := HeapHead();
    }

    /** Expires the leases whose deadline has passed; the map gives them in any order. */
    method ExpireLeases(now: int) returns (wake: Option<int>, ghost order: seq<Bytes>)
      requires Valid()
      modifies this`processing, this`urgent
      ensures Valid() && Abs() == ReturnAll(old(Abs()), order)
      ensures Lists(order, Expired(old(Abs()), now))
      ensures IsEarliest(wake, LeaseTimes(old(processing), old(processing).Keys, now))
    {
      hide Order, IsHeap, DistinctIds, Sound, ExpiredAmong, LeaseTimes, Lists, IsEarliest, ReturnAll;
      ghost var g, all := Abs(), processing;
      var todo := processing.Keys;
      wake, order := None, [];
      SeeNone(g, now);
      while todo != {}
        invariant Valid() && Abs() == ReturnAll(g, order) && todo <= all.Keys
        invariant Lists(order, ExpiredAmong(all, all.Keys - todo, now))
        invariant processing == all - ExpiredAmong(all, all.Keys - todo, now)
        invariant IsEarliest(wake, LeaseTimes(all, all.Keys - todo, now))
        decreases todo
      {
        var id :| id in todo;
        ghost var seen := all.Keys - todo;
        todo := todo - {id};
        assert all.Keys - todo == seen + {id};
        SeeOne(all, seen, id, now, wake, order);
        if now > processing[id].scheduledAt {
          var found := ReturnToPending(id);
          ReturnAllSnoc(g, order, id);
          order := order + [id];
        } else if wake.None? || processing[id].scheduledAt < wake.value {
          wake := Some(processing[id].scheduledAt);
        }
      }
      assert all.Keys - {} == all.Keys;
      AllAreExpired(g, now);
    }

    /** Moves the due retries, in order, to the back of the ready list. */
    method PromoteRetries(now: int)
      requires Valid()
      modifies this`ready, this`delayed
      ensures Valid() && Abs() == PromoteDue(old(Abs()), now)
    {
      hide Order, IsHeap, DistinctIds, Sound, PromoteN;
      ghost var g, i := Abs(), 0;
      PromoteNone(g);
      while |delayed| > 0 && delayed[0].scheduledAt <= now
        invariant Shaped() && i <= Due(g.delayed, now) && Abs() == PromoteN(g, i)
        decreases |delayed|
      {
        HeadOfOrder(delayed);
        PromoteMore(g, i, now);
        var m, rest := Pop(delayed);
        PopOrder(delayed, m, rest);
        PoppedLength(delayed, m, rest);
        AppendRest(ready, m);
        ready := Append(ready, m);
        delayed := rest;
        i := i + 1;
      }
      if |delayed| > 0 {
        HeadOfOrder(delayed);
      }
      PromoteAll(g, i, now);
      PromoteDueSound(cfg, g, now);
    }

    /** promoteDelayed: the time of the next wake-up, if any. */
    method PromoteDelayed(now: int) returns (wake: Option<int>, ghost order: seq<Bytes>)
      requires Valid()
      modifies this`processing, this`urgent, this`ready, this`delayed
      ensures Valid() && Abs() == Promote(old(Abs()), now, order)
      ensures Lists(order, Expired(old(Abs()), now)) && IsEarliest(wake, WakeTimes(old(Abs()), now))
    {
      hide Order, IsHeap, DistinctIds, Sound, Lists, IsEarliest, WakeTimes, LeaseTimes, ReturnAll, PromoteDue;
      ghost var g := Abs();
      wake, order := ExpireLeases(now);
      ReturnAllFrame(cfg, g, order);
      PromoteRetries(now);
      PromoteDueRest(ReturnAll(g, order), now);
      var next := HeapHead();
      WakeOfBoth(g, now, wake, next);
      if next.Some? && (wake.None? || next.value < wake.value) {
        wake := next;
      }
    }

    /** drainRound. */
    method DrainRound(now: int)
      returns (batch: Option<seq<Message>>, wakeAt: Option<int>, stillPending: bool,
               ghost order: seq<Bytes>, ghost wake: Option<int>)
      requires Valid()
      modifies this, limiter
      ensures Valid()
      ensures Lists(order, Expired(old(Abs()), now)) && IsEarliest(wake, WakeTimes(old(Abs()), now))
      ensures var p := Promote(old(Abs()), now, order);
              Sound(cfg, p) && (p.limiter.Some? ==> p.limiter.value.max >= 1) &&
              Abs() == GroupSpec.DrainRound(cfg, p, now) &&
              Round(batch, wakeAt, stillPending) == RoundReport(cfg, p, now, wake)
      ensures batch.Some? ==> forall m <- batch.value :: m.state == Processing && m.scheduledAt == now + cfg.leaseTimeout
    {
      hide Order, IsHeap, DistinctIds, Lists, IsEarliest, WakeTimes, Expired, Promote, Sound, Partial, BatchSize,
           Drained, RoundStop, Blocked, Sent, GroupSpec.NextDispatchable, Backlog, Leased, RoundReport, StopWake, Covers;
      wakeAt, order := PromoteDelayed(now);
      wake := wakeAt;
      ghost var p := Abs();
      SoundCredit(cfg, p);
      WakeCoversRest(cfg, old(Abs()), now, order, wake);
      batch, stillPending := None, false;
      if PendingNow() == 0 {
        ReportNothing(cfg, p, now, wake);
        return;
      }
      deficit := deficit + cfg.quantum;
      var sent := [];
      ghost var k := BatchSize(cfg, p, now);
      RoundStart(cfg, p, now);
      BatchWithin(cfg, p, now);
      while deficit > 0
        invariant Shaped() && |sent| <= k && Abs() == Partial(cfg, p, now, |sent|)
        invariant deficit == Credit(cfg, p) - |sent| >= 0
        invariant sent == Leased(cfg, Backlog(p)[..|sent|], now)
        invariant forall m <- sent :: m.state == Processing && m.scheduledAt == now + cfg.leaseTimeout
        invariant Sound(cfg, Abs())
        decreases deficit
      {
        ghost var j := |sent|;
        if j < k {
          RoundSends(cfg, p, now, j);
        } else {
          RoundEnds(cfg, p, now, wake);
        }
        var msg, stop, stopWake := NextDispatchable(now);
        if msg.Some? {
          sent := sent + [msg.value];
          deficit := deficit - 1;
          PartialSound(cfg, p, now, j + 1);
          continue;
        }
        DrainedIsSound(cfg, p, now);
        batch := Some(sent);
        if stop != Capacity && stopWake.Some? && (wakeAt.None? || stopWake.value < wakeAt.value) {
          wakeAt := stopWake;
        }
        return;
      }
      RoundSpent(cfg, p, now, |sent|, wake);
      DrainedIsSound(cfg, p, now);
      batch := Some(sent);
      if wakeAt.None? {
        var left := PendingNow();
        stillPending := left > 0;
      }
    }

    /** TryDispatchOne: promote, then the next eligible message. */
    method TryDispatchOne(now: int) returns (msg: Option<Message>, ghost order: seq<Bytes>)
      requires Valid()
      modifies this, limiter
      ensures Valid() && Lists(order, Expired(old(Abs()), now))
      ensures var p := Promote(old(Abs()), now, order);
              Abs() == GroupSpec.NextDispatchable(cfg, p, now) && msg == Sent(cfg, p, now)
    {
      hide Order, IsHeap, DistinctIds, Sound, Promote, Lists, IsEarliest, WakeTimes, Expired, GroupSpec.NextDispatchable, Sent, Blocked;
      var wake, stop, stopWake;
      wake, order := PromoteDelayed(now);
      GroupRuns.NextSound(cfg, Abs(), now);
      msg, stop, stopWake := NextDispatchable(now);
    }

    /** CompleteAndNext: settle one message, then the next eligible one. */
    method CompleteAndNext(id: Bytes, now: int) returns (msg: Option<Message>, ghost order: seq<Bytes>)
      requires Valid()
      modifies this, limiter
      ensures Valid() && Lists(order, Expired(GroupSpec.Complete(old(Abs()), id), now))
      ensures var p := Promote(GroupSpec.Complete(old(Abs()), id), now, order);
              Abs() == GroupSpec.NextDispatchable(cfg, p, now) && msg == Sent(cfg, p, now)
    {
      hide Order, IsHeap, DistinctIds, Sound, Promote, Lists, Expired, GroupSpec.NextDispatchable, Sent, Blocked;
      var done := Complete(id);
      msg, order := TryDispatchOne(now);
    }

    /** FailAndNext: fail one message, then the next eligible one. */
    method FailAndNext(id: Bytes, error: Bytes, now: int)
      returns (left: Option<Message>, msg: Option<Message>, ghost order: seq<Bytes>)
      requires Valid()
      modifies this, limiter
      ensures Valid() && Lists(order, Expired(GroupSpec.Fail(cfg, old(Abs()), id, error, now), now))
      ensures var p := Promote(GroupSpec.Fail(cfg, old(Abs()), id, error, now), now, order);
              Abs() == GroupSpec.NextDispatchable(cfg, p, now) && msg == Sent(cfg, p, now)
      ensures left == if id in old(processing) && !Retries(cfg, old(processing)[id])
                      then Some(Exhausted(cfg, old(processing)[id], error)) else None
    {
      hide Order, IsHeap, DistinctIds, Sound, Promote, Lists, Expired, GroupSpec.NextDispatchable, Sent, Blocked, GroupSpec.Fail;
      left := Fail(id, error, now);
      msg, order := TryDispatchOne(now);
    }

    /** The sweep of one group: expired ids are collected first, then returned. */
    method SweepExpired(now: int) returns (expired: seq<Bytes>)
      requires Valid()
      modifies this`processing, this`urgent
      ensures Valid() && Lists(expired, Expired(old(Abs()), now))
      ensures Abs() == ReturnAll(old(Abs()), expired)
    {
      hide Order, IsHeap, DistinctIds, Sound, ReturnAll, ExpiredAmong, LeaseTimes, Lists, IsEarliest, Expired;
      ghost var g := Abs();
      expired := CollectExpired(now);
      SeeNone(g, now);
      assert expired[..0] == [];
      for i := 0 to |expired|
        invariant Valid() && Abs() == ReturnAll(g, expired[..i])
      {
        var found := ReturnToPending(expired[i]);
        ReturnAllSnoc(g, expired[..i], expired[i]);
        assert expired[..i + 1] == expired[..i] + [expired[i]];
      }
      assert expired[..|expired|] == expired;
    }

    method CollectExpired(now: int) returns (expired: seq<Bytes>)
      ensures Lists(expired, Expired(Abs(), now))
    {
      hide Order, ExpiredAmong, LeaseTimes, Lists, IsEarliest, Expired;
      var todo := processing.Keys;
      expired := [];
      ghost var wake: Option<int> := None;
      SeeNone(Abs(), now);
      while todo != {}
        invariant todo <= processing.Keys
        invariant Lists(expired, ExpiredAmong(processing, processing.Keys - todo, now))
        invariant IsEarliest(wake, LeaseTimes(processing, processing.Keys - todo, now))
        decreases todo
      {
        var id :| id in todo;
        ghost var seen := processing.Keys - todo;
        todo := todo - {id};
        assert processing.Keys - todo == seen + {id};
        SeeOne(processing, seen, id, now, wake, expired);
        if now > processing[id].scheduledAt {
          expired := expired + [id];
        } else {
          wake := Earlier(wake, processing[id].scheduledAt);
        }
      }
      assert processing.Keys - {} == processing.Keys;
      AllAreExpired(Abs(), now);
    }

    /** ReplayLease: into flight from the urgent or the ready list. */
    method ReplayLease(id: Bytes, now: int) returns (found: bool)
      requires Shaped()
      modifies this`urgent, this`ready, this`processing
      ensures Shaped() && Abs() == GroupSpec.ReplayLease(cfg, old(Abs()), id, now)
      ensures found <==> InSlots(old(Abs()), id)
      ensures found ==> id in processing && processing[id].scheduledAt == now + cfg.leaseTimeout
    {
      hide Order, IsHeap, DistinctIds, Find;
      var u := FindSlot(urgent, id);
      if u < |urgent.slots| - urgent.head {
        var m := urgent.slots[urgent.head + u].value;
        ClearRest(urgent, u);
        urgent := ClearAt(urgent, u);
        processing := processing[id := m.(state := Processing, scheduledAt := now + cfg.leaseTimeout)];
        return true;
      }
      var r := FindSlot(ready, id);
      if r < |ready.slots| - ready.head {
        var m := ready.slots[ready.head + r].value;
        ClearRest(ready, r);
        ready := ClearAt(ready, r);
        processing := processing[id := m.(state := Processing, scheduledAt := now + cfg.leaseTimeout)];
        return true;
      }
      found := false;
    }

    /** RemoveMessage: out of the urgent list, the ready list or flight, in that order. */
    method RemoveMessage(id: Bytes) returns (found: bool)
      requires Shaped()
      modifies this`urgent, this`ready, this`processing
      ensures Shaped() && Abs() == GroupSpec.RemoveMessage(old(Abs()), id)
      ensures found <==> InSlots(old(Abs()), id) || id in old(processing)
    {
      hide Order, IsHeap, DistinctIds, Find;
      var u := FindSlot(urgent, id);
      if u < |urgent.slots| - urgent.head {
        ClearRest(urgent, u);
        urgent := ClearAt(urgent, u);
        return true;
      }
      var r := FindSlot(ready, id);
      if r < |ready.slots| - ready.head {
        ClearRest(ready, r);
        ready := ClearAt(ready, r);
        return true;
      }
      found := id in processing;
      processing := processing - {id};
    }

    /** pendingCount. */
    function PendingNow(): (n: int)
      reads this, limiter
      requires Shaped()
      ensures n == PendingCount(Abs())
    {
      |urgent.slots| - urgent.head + |ready.slots| - ready.head + |delayed|
    }

    /** nextDelayedAt. */
    method HeapHead() returns (at: Option<int>)
      requires IsHeap(delayed) && DistinctIds(delayed)
      ensures at == if Order(delayed) == [] then None else Some(Order(delayed)[0].scheduledAt)
    {
      if |delayed| == 0 {
        return None;
      }
      at := Some(delayed[0].scheduledAt);
      HeadOfOrder(delayed);
    }
  }

  /** Expired ids among those seen. */
  ghost function ExpiredAmong(p: map<Bytes, Message>, seen: set<Bytes>, now: int): set<Bytes> {
    set id | id in seen && id in p && now > p[id].scheduledAt
  }

  /** Deadlines still ahead among the leases seen. */
  ghost function LeaseTimes(p: map<Bytes, Message>, seen: set<Bytes>, now: int): set<int> {
    set id | id in seen && id in p && !(now > p[id].scheduledAt) :: p[id].scheduledAt
  }

  lemma SeeNone(g: GroupSpec.Group, now: int)
    ensures var p := g.processing;
            ReturnAll(g, []) == g && p.Keys - p.Keys == {} && ExpiredAmong(p, {}, now) == {} && p - {} == p &&
            Lists([], ExpiredAmong(p, {}, now)) && IsEarliest(None, LeaseTimes(p, {}, now))
  {
  }

  lemma SeeOne(p: map<Bytes, Message>, seen: set<Bytes>, id: Bytes, now: int, wake: Option<int>, order: seq<Bytes>)
    requires id in p && id !in seen && IsEarliest(wake, LeaseTimes(p, seen, now))
    requires Lists(order, ExpiredAmong(p, seen, now))
    ensures id in p - ExpiredAmong(p, seen, now)
    ensures now > p[id].scheduledAt ==>
      p - ExpiredAmong(p, seen + {id}, now) == p - ExpiredAmong(p, seen, now) - {id} &&
      LeaseTimes(p, seen + {id}, now) == LeaseTimes(p, seen, now) &&
      Lists(order + [id], ExpiredAmong(p, seen + {id}, now))
    ensures !(now > p[id].scheduledAt) ==>
      ExpiredAmong(p, seen + {id}, now) == ExpiredAmong(p, seen, now) &&
      LeaseTimes(p, seen + {id}, now) == LeaseTimes(p, seen, now) + {p[id].scheduledAt} &&
      IsEarliest(Earlier(wake, p[id].scheduledAt), LeaseTimes(p, seen + {id}, now))
  {
    if now > p[id].scheduledAt {
      assert ExpiredAmong(p, seen + {id}, now) == ExpiredAmong(p, seen, now) + {id};
      assert id !in order;
    }
  }

  lemma ReturnAllSnoc(g: GroupSpec.Group, order: seq<Bytes>, id: Bytes)
    ensures ReturnAll(g, order + [id]) == GroupSpec.ReturnToPending(ReturnAll(g, order), id)
  {
    assert (order + [id])[..|order|] == order;
  }

  lemma AllAreExpired(g: GroupSpec.Group, now: int)
    ensures ExpiredAmong(g.processing, g.processing.Keys, now) == Expired(g, now)
  {
  }

  lemma HeadOfOrder(h: seq<Message>)
    requires IsHeap(h) && DistinctIds(h) && h != []
    ensures Order(h) != [] && Order(h)[0] == h[0]
  {
    var rest := h[1..];
    assert h == [h[0]] + rest;
    PopOrder(h, h[0], rest);
  }

  lemma RetryIsNew(c: Config, g: GroupSpec.Group, heap: seq<Message>, id: Bytes, m: Message)
    requires Sound(c, g) && id in g.processing && m.id == g.processing[id].id
    requires g.delayed == Order(heap) && DistinctIds(heap)
    ensures DistinctIds(heap + [m])
  {
    InFlightOnly(g, id);
    InFlightKeyed(c, g, id);
    OrderIn(heap);
    hide Sound;
    forall i | 0 <= i < |heap| ensures heap[i].id != id {
      assert heap[i] in heap;
    }
  }

  // ---------------------------------------------------------------------------
  // Promotion, one retry at a time
  // ---------------------------------------------------------------------------

  /** The group when n due retries have been moved. */
  ghost function PromoteN(g: GroupSpec.Group, n: nat): GroupSpec.Group
    requires n <= |g.delayed|
  {
    g.(ready := g.ready + SlotsOf(g.delayed[..n]), delayed := g.delayed[n..])
  }

  lemma PromoteNone(g: GroupSpec.Group)
    ensures PromoteN(g, 0) == g
  {
    assert g.ready + SlotsOf(g.delayed[..0]) == g.ready && g.delayed[0..] == g.delayed;
  }

  lemma PromoteMore(g: GroupSpec.Group, n: nat, now: int)
    requires n <= Due(g.delayed, now) && PromoteN(g, n).delayed != []
    requires PromoteN(g, n).delayed[0].scheduledAt <= now
    ensures n < Due(g.delayed, now)
    ensures var a, b := PromoteN(g, n), PromoteN(g, n + 1);
            b == a.(ready := a.ready + [Some(a.delayed[0])], delayed := a.delayed[1..])
  {
    hide Due;
    DueSplits(g.delayed, now);
    var d := g.delayed;
    assert d[n..][0] == d[n];
    assert d[..n + 1] == d[..n] + [d[n]];
    assert SlotsOf(d[..n + 1]) == SlotsOf(d[..n]) + [Some(d[n])];
    assert d[n..][1..] == d[n + 1..];
    assert g.ready + SlotsOf(d[..n + 1]) == g.ready + SlotsOf(d[..n]) + [Some(d[n])];
  }

  lemma PromoteAll(g: GroupSpec.Group, n: nat, now: int)
    requires n <= Due(g.delayed, now)
    requires PromoteN(g, n).delayed == [] || PromoteN(g, n).delayed[0].scheduledAt > now
    ensures PromoteN(g, n) == PromoteDue(g, now)
  {
    DueSplits(g.delayed, now);
    assert n < |g.delayed| ==> g.delayed[n..][0] == g.delayed[n];
  }

  lemma PoppedLength(h: seq<Message>, m: Message, rest: seq<Message>)
    requires multiset(h) == multiset(rest) + multiset{m}
    ensures |rest| < |h|
  {
    assert |multiset(h)| == |h| && |multiset(rest)| == |rest|;
  }

  lemma ReturnAllFrame(c: Config, g: GroupSpec.Group, order: seq<Bytes>)
    requires Sound(c, g)
    ensures ReturnAll(g, order).delayed == g.delayed
  {
    ReturnAllSound(c, g, order);
  }

  lemma PromoteDueRest(g: GroupSpec.Group, now: int)
    ensures PromoteDue(g, now).delayed == g.delayed[Due(g.delayed, now)..]
  {
  }

  /** The earliest of the leases' deadlines and the next retry. */
  lemma WakeOfBoth(g: GroupSpec.Group, now: int, wake: Option<int>, next: Option<int>)
    requires IsEarliest(wake, LeaseTimes(g.processing, g.processing.Keys, now))
    requires var rest := g.delayed[Due(g.delayed, now)..];
             next == if rest == [] then None else Some(rest[0].scheduledAt)
    ensures IsEarliest(if next.Some? && (wake.None? || next.value < wake.value) then next else wake, WakeTimes(g, now))
  {
    var leases := LeaseTimes(g.processing, g.processing.Keys, now);
    var rest := g.delayed[Due(g.delayed, now)..];
    assert WakeTimes(g, now) == leases + (if rest == [] then {} else {rest[0].scheduledAt});
  }

  // ---------------------------------------------------------------------------
  // The drain loop
  // ---------------------------------------------------------------------------

  lemma ReportNothing(c: Config, p: GroupSpec.Group, now: int, wake: Option<int>)
    requires Credit(c, p) >= 0 && (p.limiter.Some? ==> p.limiter.value.max >= 1) && PendingCount(p) == 0
    ensures RoundReport(c, p, now, wake) == Round(None, wake, false)
  {
  }

  lemma RoundStart(c: Config, p: GroupSpec.Group, now: int)
    requires Sound(c, p)
    ensures Partial(c, p, now, 0) == p.(deficit := Credit(c, p))
    ensures Leased(c, Backlog(p)[..0], now) == []
    ensures Sound(c, p.(deficit := Credit(c, p))) || Credit(c, p) < 0
  {
    if Credit(c, p) >= 0 {
      ReLimitSound(c, p, Credit(c, p), p.limiter);
    }
  }

  lemma PartialSound(c: Config, p: GroupSpec.Group, now: int, j: nat)
    requires Sound(c, p) && j <= |Backlog(p)| && j <= Credit(c, p)
    ensures Sound(c, Partial(c, p, now, j))
  {
    DispatchSound(c, p, now, j);
    ReLimitSound(c, Dispatch(c, p, now, j), Credit(c, p) - j, Partial(c, p, now, j).limiter);
  }

  lemma DrainedIsSound(c: Config, p: GroupSpec.Group, now: int)
    requires Sound(c, p) && Usable(c)
    ensures Credit(c, p) >= 0 && Sound(c, Drained(c, p, now))
  {
    SoundCredit(c, p);
    DrainedSound(c, p, now);
  }

  lemma BatchWithin(c: Config, p: GroupSpec.Group, now: int)
    requires Credit(c, p) >= 0
    ensures BatchSize(c, p, now) <= Credit(c, p)
  {
    hide Tokens, LiveSlots;
  }

  /** A turn of the loop that sends one more message. */
  lemma RoundSends(c: Config, p: GroupSpec.Group, now: int, j: nat)
    requires Sound(c, p) && Credit(c, p) >= 0 && j < BatchSize(c, p, now)
    ensures var q := Partial(c, p, now, j);
            Sent(c, q, now).Some? &&
            Leased(c, Backlog(p)[..j + 1], now) == Leased(c, Backlog(p)[..j], now) + [Sent(c, q, now).value] &&
            var n := NextDispatchable(c, q, now);
            n.(deficit := n.deficit - 1) == Partial(c, p, now, j + 1)
  {
    hide Sound, Partial, Blocked, NextDispatchable, Backlog, BatchSize, Lease;
    RoundGoesOn(c, p, now, j);
    assert Backlog(p)[..j + 1] == Backlog(p)[..j] + [Backlog(p)[j]];
  }

  /** The wake time is no later than the next retry. */
  predicate Covers(wake: Option<int>, delayed: seq<Message>) {
    delayed != [] ==> wake.Some? && wake.value <= delayed[0].scheduledAt
  }

  lemma WakeCoversRest(c: Config, g: GroupSpec.Group, now: int, order: seq<Bytes>, wake: Option<int>)
    requires Sound(c, g) && IsEarliest(wake, WakeTimes(g, now))
    ensures Covers(wake, Promote(g, now, order).delayed)
  {
    hide Sound, Promote, IsEarliest;
    WakeCovers(g, now, wake);
    PromotedDelayed(c, g, now, order);
  }

  /** The turn that finds nothing more to send, and what the round then reports. */
  lemma RoundEnds(c: Config, p: GroupSpec.Group, now: int, wake: Option<int>)
    requires Sound(c, p) && Credit(c, p) >= 0 && PendingCount(p) > 0 && Covers(wake, p.delayed)
    requires p.limiter.Some? ==> p.limiter.value.max >= 1
    requires BatchSize(c, p, now) < Credit(c, p)
    ensures var k := BatchSize(c, p, now);
            var q := Partial(c, p, now, k);
            Sent(c, q, now) == None && NextDispatchable(c, q, now) == Drained(c, p, now) &&
            Blocked(c, q, now).Some? &&
            var stop := Blocked(c, q, now).value;
            var w := StopWake(q, now, stop);
            RoundReport(c, p, now, wake)
              == Round(Some(Leased(c, Backlog(p)[..k], now)),
                       if stop != Capacity && w.Some? && (wake.None? || w.value < wake.value) then w else wake, false)
  {
    var k := BatchSize(c, p, now);
    var q := Partial(c, p, now, k);
    RoundStops(c, p, now);
    DispatchFrame(c, p, now, k);
    BlockedByLimiter(c, q, now);
    hide Sound, Blocked, NextDispatchable, Backlog, BatchSize, Drained, RoundStop, RetryAt, Allows, CalledTimes, Dispatch;
    if RoundStop(c, p, now) == Some(RateLimited) {
      LimitedHasLimiter(c, p, now);
      TokensRunOut(p.limiter.value, now, k);
    }
  }

  lemma BlockedByLimiter(c: Config, q: GroupSpec.Group, now: int)
    ensures Sent(c, q, now).Some? <==> Blocked(c, q, now) == None
  {
  }

  lemma LimitedHasLimiter(c: Config, p: GroupSpec.Group, now: int)
    requires Credit(c, p) >= 0 && RoundStop(c, p, now) == Some(RateLimited)
    ensures p.limiter.Some? && BatchSize(c, p, now) == Tokens(p.limiter.value, now)
  {
  }

  /** The credit is spent: the batch is complete. */
  lemma RoundSpent(c: Config, p: GroupSpec.Group, now: int, j: nat, wake: Option<int>)
    requires Sound(c, p) && Credit(c, p) >= 0 && PendingCount(p) > 0
    requires p.limiter.Some? ==> p.limiter.value.max >= 1
    requires j <= BatchSize(c, p, now) && j == Credit(c, p)
    ensures j == BatchSize(c, p, now) && Drained(c, p, now) == Partial(c, p, now, j)
    ensures RoundReport(c, p, now, wake)
         == Round(Some(Leased(c, Backlog(p)[..j], now)), wake, wake.None? && PendingCount(Drained(c, p, now)) > 0)
  {
    BatchWithin(c, p, now);
    RoundStops(c, p, now);
    hide Sound, Backlog, BatchSize, Drained, RoundStop, Partial;
  }
}
