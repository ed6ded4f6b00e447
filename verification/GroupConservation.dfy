/** What every engine operation keeps: each message is held in exactly one place,
    its state field says where, and nothing is lost or duplicated. */
module GroupConservation {
  import opened Bytes
  import opened Messages
  import opened RateLimiter
  import opened GroupSpec

  /** The ids a group holds, with multiplicity, over all four places. */
  ghost function Holdings(g: Group): multiset<Bytes> {
    multiset(Ids(Backlog(g))) + multiset(Ids(g.delayed)) + multiset(g.processing.Keys)
  }

  ghost predicate Unique(ids: multiset<Bytes>) {
    forall id :: ids[id] <= 1
  }

  predicate Waits(c: Config, m: Message) {
    m.state == Pending && m.attempts < c.maxAttempts
  }

  predicate InFlight(c: Config, id: Bytes, m: Message) {
    m.id == id && m.state == Processing && m.attempts < c.maxAttempts
  }

  ghost predicate AllWait(c: Config, ms: seq<Message>) {
    forall i :: 0 <= i < |ms| ==> Waits(c, ms[i])
  }

  ghost predicate AllInFlight(c: Config, p: map<Bytes, Message>) {
    forall id :: id in p ==> InFlight(c, id, p[id])
  }

  predicate NoHoles(s: Slots) {
    forall i :: 0 <= i < |s| ==> s[i].Some?
  }

  /** The group invariant. */
  ghost predicate Sound(c: Config, g: Group) {
    Unique(Holdings(g)) && Ascending(g.delayed) &&
    AllWait(c, Backlog(g)) && AllWait(c, g.delayed) && AllInFlight(c, g.processing) &&
    NoHoles(g.urgent) && g.deficit >= 0
  }

  // ---------------------------------------------------------------------------
  // Slots and ids
  // ---------------------------------------------------------------------------

  lemma {:induction false} LiveAppend(a: Slots, b: Slots)
    ensures LiveSlots(a + b) == LiveSlots(a) + LiveSlots(b)
  {
    if a == [] {
      assert a + b == b;
    } else {
      assert (a + b)[1..] == a[1..] + b;
      LiveAppend(a[1..], b);
    }
  }

  lemma {:induction false} LiveOfSlots(ms: seq<Message>)
    ensures LiveSlots(SlotsOf(ms)) == ms
  {
    if ms != [] {
      assert SlotsOf(ms)[1..] == SlotsOf(ms[1..]);
      LiveOfSlots(ms[1..]);
    }
  }

  lemma LiveSnoc(s: Slots, m: Message)
    ensures LiveSlots(s + [Some(m)]) == LiveSlots(s) + [m]
  {
    LiveAppend(s, [Some(m)]);
    assert [Some(m)][1..] == [];
  }

  lemma IdsAppend(a: seq<Message>, b: seq<Message>)
    ensures Ids(a + b) == Ids(a) + Ids(b)
  {
  }

  lemma IdsOne(m: Message)
    ensures Ids([m]) == [m.id]
  {
  }

  lemma {:induction false} InsertIds(ms: seq<Message>, m: Message)
    ensures multiset(Ids(Insert(ms, m))) == multiset(Ids(ms)) + multiset{m.id}
  {
    hide Before;
    if ms == [] || Before(m, ms[0]) {
      assert Insert(ms, m) == [m] + ms;
      IdsAppend([m], ms);
      IdsOne(m);
    } else {
      InsertIds(ms[1..], m);
      IdsAppend([ms[0]], Insert(ms[1..], m));
      IdsAppend([ms[0]], ms[1..]);
      IdsOne(ms[0]);
      assert ms == [ms[0]] + ms[1..];
    }
  }

  lemma AllWaitIn(c: Config, ms: seq<Message>)
    ensures AllWait(c, ms) <==> forall m :: m in ms ==> Waits(c, m)
  {
  }

  lemma AllWaitOne(c: Config, m: Message)
    ensures AllWait(c, [m]) <==> Waits(c, m)
  {
    assert AllWait(c, [m]) ==> Waits(c, [m][0]);
  }

  lemma AllWaitAppend(c: Config, a: seq<Message>, b: seq<Message>)
    ensures AllWait(c, a + b) <==> AllWait(c, a) && AllWait(c, b)
  {
    hide Waits;
    if AllWait(c, a + b) {
      forall i | 0 <= i < |a| ensures Waits(c, a[i]) { assert (a + b)[i] == a[i]; }
      forall i | 0 <= i < |b| ensures Waits(c, b[i]) { assert (a + b)[|a| + i] == b[i]; }
    }
  }

  /** An id held in flight is held nowhere else. */
  lemma InFlightOnly(g: Group, id: Bytes)
    requires Unique(Holdings(g)) && id in g.processing
    ensures id !in Ids(Backlog(g)) && id !in Ids(g.delayed)
    ensures forall m :: m in g.delayed ==> m.id != id
  {
    var a, b, p := multiset(Ids(Backlog(g))), multiset(Ids(g.delayed)), multiset(g.processing.Keys);
    assert Holdings(g)[id] == a[id] + b[id] + p[id];
    assert p[id] == 1;
    forall m | m in g.delayed ensures m.id != id {
      var i :| 0 <= i < |g.delayed| && g.delayed[i] == m;
      assert Ids(g.delayed)[i] == m.id;
    }
  }

  lemma BacklogNotInFlight(g: Group, i: nat)
    requires Unique(Holdings(g)) && i < |Backlog(g)|
    ensures Backlog(g)[i].id !in g.processing
    ensures forall m :: m in g.delayed ==> m.id != Backlog(g)[i].id
  {
    var id := Backlog(g)[i].id;
    var a, b, p := multiset(Ids(Backlog(g))), multiset(Ids(g.delayed)), multiset(g.processing.Keys);
    assert Ids(Backlog(g))[i] == id && id in a;
    assert Holdings(g)[id] == a[id] + b[id] + p[id];
    assert id !in b && id !in p;
    forall m | m in g.delayed ensures m.id != id {
      var j :| 0 <= j < |g.delayed| && g.delayed[j] == m;
      assert Ids(g.delayed)[j] == m.id;
    }
  }

  // ---------------------------------------------------------------------------
  // One lemma per operation: what it does to the holdings, and that it is sound
  // ---------------------------------------------------------------------------

  lemma EnqueueHolds(c: Config, g: Group, m: Message)
    ensures Backlog(Enqueue(g, m)) == Backlog(g) + [m]
    ensures Holdings(Enqueue(g, m)) == Holdings(g) + multiset{m.id}
  {
    LiveSnoc(g.ready, m);
    IdsAppend(Backlog(g), [m]);
    IdsOne(m);
    assert Backlog(Enqueue(g, m)) == Backlog(g) + [m];
  }

  lemma EnqueueSound(c: Config, g: Group, m: Message)
    requires Sound(c, g) && Waits(c, m) && m.id !in Holdings(g)
    ensures Sound(c, Enqueue(g, m))
  {
    hide Backlog, Holdings, Ascending;
    EnqueueHolds(c, g, m);
    var h := Holdings(g);
    assert forall id :: (h + multiset{m.id})[id] == h[id] + (if id == m.id then 1 else 0);
  }

  lemma DropInFlight(g: Group, id: Bytes)
    requires id in g.processing
    ensures Holdings(g.(processing := g.processing - {id})) == Holdings(g) - multiset{id}
    ensures multiset((g.processing - {id}).Keys) == multiset(g.processing.Keys) - multiset{id}
  {
    var p := g.processing;
    assert (p - {id}).Keys == p.Keys - {id};
    assert multiset(p.Keys - {id}) == multiset(p.Keys) - multiset{id};
    var out := g.(processing := p - {id});
    assert Backlog(out) == Backlog(g);
    assert id in multiset(p.Keys);
  }

  lemma UniqueLess(a: multiset<Bytes>, id: Bytes)
    requires Unique(a)
    ensures Unique(a - multiset{id})
  {
  }

  lemma CompleteHolds(g: Group, id: Bytes)
    ensures Holdings(Complete(g, id)) == if id in g.processing then Holdings(g) - multiset{id} else Holdings(g)
  {
    if id in g.processing {
      DropInFlight(g, id);
    } else {
      assert g.processing - {id} == g.processing;
    }
  }

  lemma CompleteSound(c: Config, g: Group, id: Bytes)
    requires Sound(c, g)
    ensures Sound(c, Complete(g, id))
  {
    hide Holdings, Ascending;
    CompleteHolds(g, id);
    UniqueLess(Holdings(g), id);
    assert Backlog(Complete(g, id)) == Backlog(g);
  }

  lemma ReturnHolds(g: Group, id: Bytes)
    requires id in g.processing ==> g.processing[id].id == id
    ensures Holdings(ReturnToPending(g, id)) == Holdings(g)
    ensures id in g.processing ==>
      LiveSlots(ReturnToPending(g, id).urgent) == LiveSlots(g.urgent) + [g.processing[id].(state := Pending)]
  {
    if id in g.processing {
      var r, m := ReturnToPending(g, id), g.processing[id].(state := Pending);
      DropInFlight(g, id);
      LiveSnoc(g.urgent, m);
      var u, v := LiveSlots(g.urgent), LiveSlots(g.ready);
      IdsAppend(u, v);
      IdsAppend(u, [m]);
      IdsAppend(u + [m], v);
      IdsOne(m);
      assert id in multiset(g.processing.Keys);
    }
  }

  lemma ReturnSound(c: Config, g: Group, id: Bytes)
    requires Sound(c, g)
    ensures Sound(c, ReturnToPending(g, id))
  {
    if id in g.processing {
      hide Holdings, Ascending, LiveSlots, AllWait;
      var m := g.processing[id].(state := Pending);
      assert InFlight(c, id, g.processing[id]);
      ReturnHolds(g, id);
      var u, v := LiveSlots(g.urgent), LiveSlots(g.ready);
      AllWaitAppend(c, u, v);
      AllWaitOne(c, m);
      AllWaitAppend(c, u, [m]);
      AllWaitAppend(c, u + [m], v);
    }
  }

  lemma FailHolds(c: Config, g: Group, id: Bytes, error: Bytes, now: int)
    requires id in g.processing && g.processing[id].id == id
    ensures Holdings(Fail(c, g, id, error, now))
         == if Retries(c, g.processing[id]) then Holdings(g) else Holdings(g) - multiset{id}
  {
    var m := g.processing[id];
    DropInFlight(g, id);
    if Retries(c, m) {
      InsertIds(g.delayed, Rescheduled(c, m, error, now));
      assert Backlog(Fail(c, g, id, error, now)) == Backlog(g);
      assert id in multiset(g.processing.Keys);
    }
  }

  lemma FailSound(c: Config, g: Group, id: Bytes, error: Bytes, now: int)
    requires Sound(c, g)
    ensures Sound(c, Fail(c, g, id, error, now))
  {
    if id in g.processing {
      var r, m := Fail(c, g, id, error, now), g.processing[id];
      InFlightOnly(g, id);
      assert InFlight(c, id, m);
      FailHolds(c, g, id, error, now);
      UniqueLess(Holdings(g), id);
      assert Backlog(r) == Backlog(g);
      if Retries(c, m) {
        var again := Rescheduled(c, m, error, now);
        InsertAscending(g.delayed, again);
        InsertIn(g.delayed, again);
        hide Holdings, Ascending, Insert, Rescheduled;
        AllWaitIn(c, g.delayed);
        AllWaitIn(c, Insert(g.delayed, again));
      }
    }
  }

  lemma {:induction false} ReturnAllSound(c: Config, g: Group, order: seq<Bytes>)
    requires Sound(c, g)
    ensures Sound(c, ReturnAll(g, order)) && Holdings(ReturnAll(g, order)) == Holdings(g)
    ensures ReturnAll(g, order).ready == g.ready && ReturnAll(g, order).delayed == g.delayed
    ensures ReturnAll(g, order).limiter == g.limiter && ReturnAll(g, order).deficit == g.deficit
  {
    if order != [] {
      var front, id := order[..|order| - 1], order[|order| - 1];
      ReturnAllSound(c, g, front);
      ReturnSound(c, ReturnAll(g, front), id);
      InFlightKeyed(c, ReturnAll(g, front), id);
      hide Holdings, Sound;
      ReturnHolds(ReturnAll(g, front), id);
    }
  }

  lemma InFlightKeyed(c: Config, g: Group, id: Bytes)
    requires Sound(c, g)
    ensures id in g.processing ==> InFlight(c, id, g.processing[id])
  {
  }

  lemma PromoteDueBacklog(g: Group, now: int)
    ensures Backlog(PromoteDue(g, now)) == Backlog(g) + g.delayed[..Due(g.delayed, now)]
  {
    hide LiveSlots;
    var due := g.delayed[..Due(g.delayed, now)];
    LiveAppend(g.ready, SlotsOf(due));
    LiveOfSlots(due);
  }

  lemma PromoteDueHolds(g: Group, now: int)
    ensures Holdings(PromoteDue(g, now)) == Holdings(g)
  {
    hide Backlog;
    PromoteDueBacklog(g, now);
    var n := Due(g.delayed, now);
    var due, rest := g.delayed[..n], g.delayed[n..];
    IdsAppend(Backlog(g), due);
    IdsAppend(due, rest);
    assert g.delayed == due + rest;
  }

  lemma PromoteDueSound(c: Config, g: Group, now: int)
    requires Sound(c, g)
    ensures Sound(c, PromoteDue(g, now))
  {
    hide Holdings, Backlog, Before;
    PromoteDueHolds(g, now);
    PromoteDueBacklog(g, now);
  }

  lemma PromoteSound(c: Config, g: Group, now: int, order: seq<Bytes>)
    requires Sound(c, g)
    ensures Sound(c, Promote(g, now, order)) && Holdings(Promote(g, now, order)) == Holdings(g)
    ensures Promote(g, now, order).limiter == g.limiter && Promote(g, now, order).deficit == g.deficit
  {
    hide Holdings, Sound;
    ReturnAllSound(c, g, order);
    PromoteDueSound(c, ReturnAll(g, order), now);
    PromoteDueHolds(ReturnAll(g, order), now);
  }

  lemma DispatchOneHolds(c: Config, g: Group, now: int)
    requires Backlog(g) != [] && Unique(Holdings(g))
    ensures Holdings(DispatchOne(c, g, now)) == Holdings(g)
    ensures Backlog(g)[0].id !in g.processing
  {
    var r, m := DispatchOne(c, g, now), Backlog(g)[0];
    BacklogAfterOne(c, g, now);
    BacklogNotInFlight(g, 0);
    assert r.processing.Keys == g.processing.Keys + {m.id};
    assert multiset(r.processing.Keys) == multiset(g.processing.Keys) + multiset{m.id};
    assert Backlog(g) == [m] + Backlog(g)[1..];
    IdsAppend([m], Backlog(g)[1..]);
    IdsOne(m);
  }

  lemma DispatchOneSound(c: Config, g: Group, now: int)
    requires Sound(c, g) && Backlog(g) != []
    ensures Sound(c, DispatchOne(c, g, now))
    ensures |DispatchOne(c, g, now).processing| == |g.processing| + 1
  {
    var r, m := DispatchOne(c, g, now), Backlog(g)[0];
    DispatchOneHolds(c, g, now);
    BacklogAfterOne(c, g, now);
    hide Holdings, Ascending, Backlog, LiveSlots;
    assert Waits(c, m);
    assert r.processing.Keys == g.processing.Keys + {m.id};
    assert |r.processing| == |r.processing.Keys| && |g.processing| == |g.processing.Keys|;
    SkipKeeps(g.urgent);
  }

  lemma {:induction false} SkipKeeps(s: Slots)
    requires NoHoles(s)
    ensures NoHoles(Skip(s))
  {
  }

  lemma {:induction false} DispatchSound(c: Config, g: Group, now: int, n: nat)
    requires Sound(c, g) && n <= |Backlog(g)|
    ensures Sound(c, Dispatch(c, g, now, n)) && Holdings(Dispatch(c, g, now, n)) == Holdings(g)
    ensures |Dispatch(c, g, now, n).processing| == |g.processing| + n
    ensures Backlog(Dispatch(c, g, now, n)) == Backlog(g)[n..]
    decreases n
  {
    hide Sound, Holdings, Backlog, DispatchOne;
    if n > 0 {
      var one := DispatchOne(c, g, now);
      BacklogAfterOne(c, g, now);
      DispatchOneSound(c, g, now);
      SoundIsUnique(c, g);
      DispatchOneHolds(c, g, now);
      DispatchSound(c, one, now, n - 1);
      assert Backlog(g)[1..][n - 1..] == Backlog(g)[n..];
    }
  }

  lemma SoundIsUnique(c: Config, g: Group)
    requires Sound(c, g)
    ensures Unique(Holdings(g))
  {
  }

  /** Dispatching touches only the queues and the messages in flight. */
  lemma {:induction false} DispatchFrame(c: Config, g: Group, now: int, n: nat)
    requires n <= |Backlog(g)|
    ensures var r := Dispatch(c, g, now, n);
            r.delayed == g.delayed && r.limiter == g.limiter && r.deficit == g.deficit
    decreases n
  {
    if n > 0 {
      BacklogAfterOne(c, g, now);
      DispatchFrame(c, DispatchOne(c, g, now), now, n - 1);
    }
  }
}
