/** What the messages of a rebuilt queue carry: payload, attempts, error and times, told
    from the records alone. */
module RecoveryContents {
  import opened Bytes
  import opened Messages
  import opened RateLimiter
  import opened Record
  import opened GroupSpec
  import opened GroupConservation
  import opened GroupLives
  import opened Recovery

  /** A record of the message, at the time it is replayed: its publication, a LEASE that
      finds it waiting, or a NACK that finds it out. */
  function Said(l: Life, f: Fate, e: Event, now: int): Life {
    if e.kind == PUBLISH && f == Unpublished then Born(e.payload, now)
    else if e.kind == LEASE && f == Waiting then SentLife(l, now)
    else if e.kind == NACK && f == Out then FailedLife(l, REPLAYED_NACK, now)
    else l
  }

  /** What the records say happened to a message. */
  function LifeIn(c: Config, es: seq<Event>, clock: seq<int>, key: Bytes, id: Bytes): Life
    requires |clock| == |es|
  {
    if es == [] then Born([], 0)
    else
      var n := |es| - 1;
      var l := LifeIn(c, es[..n], clock[..n], key, id);
      if IsFor(es[n], key, id) then Said(l, FateOf(c, es[..n], key, id), es[n], clock[n]) else l
  }

  // ---------------------------------------------------------------------------
  // The handlers
  // ---------------------------------------------------------------------------

  /** Losing messages does no harm. */
  lemma FewerBears(c: Config, g: Group, r: Group, id: Bytes, l: Life)
    requires Bears(c, g, id, l) && r.delayed == g.delayed
    requires forall m <- Backlog(r) :: m in Backlog(g)
    requires forall x <- r.processing :: x in g.processing && r.processing[x] == g.processing[x]
    ensures Bears(c, r, id, l)
  {
    hide Backlog;
  }

  lemma ClearedBacklog(s: Slots, i: nat)
    requires i < |s| && s[i].Some?
    ensures s[i].value in LiveSlots(s) && forall m <- LiveSlots(s[i := None]) :: m in LiveSlots(s)
  {
    hide LiveSlots;
    var a, b := ClearSlot(s, i);
  }

  lemma RemoveBears(c: Config, g: Group, x: Bytes, id: Bytes, l: Life)
    requires Bears(c, g, id, l)
    ensures Bears(c, RemoveMessage(g, x), id, l)
  {
    hide LiveSlots, Bears, Find;
    var u, i := Find(g.urgent, x), Find(g.ready, x);
    if u < |g.urgent| {
      ClearedBacklog(g.urgent, u);
    } else if i < |g.ready| {
      ClearedBacklog(g.ready, i);
    }
    FewerBears(c, g, RemoveMessage(g, x), id, l);
  }

  lemma LeaseBears(c: Config, g: Group, x: Bytes, now: int, id: Bytes, l: Life)
    requires Bears(c, g, id, l)
    ensures Bears(c, ReplayLease(c, g, x, now), id, if x == id && InSlots(g, x) then SentLife(l, now) else l)
  {
    hide LiveSlots, Find;
    var u, i := Find(g.urgent, x), Find(g.ready, x);
    if u < |g.urgent| {
      ClearedBacklog(g.urgent, u);
      assert g.urgent[u].value in Backlog(g);
    } else if i < |g.ready| {
      ClearedBacklog(g.ready, i);
      assert g.ready[i].value in Backlog(g);
    }
  }

  lemma InSlotsIffReady(g: Group, id: Bytes)
    requires g.urgent == []
    ensures InSlots(g, id) <==> id in ReadyIds(g)
  {
    FindLive(g.ready, id);
    hide LiveSlots;
  }

  // ---------------------------------------------------------------------------
  // One record
  // ---------------------------------------------------------------------------

  /** The group is where the records so far have put the message, or does not hold it. */
  ghost predicate AsRecorded(g: Group, id: Bytes, f: Fate) {
    SpotIn(g, id) == AtNowhere || SpotIn(g, id) == Expected(f)
  }

  lemma ReadySpot(c: Config, g: Group, id: Bytes)
    requires Rebuilt(c, g)
    ensures InSlots(g, id) ==> SpotIn(g, id) == AtReady
    ensures SpotIn(g, id) == AtReady ==> InSlots(g, id)
    ensures id in g.processing <==> SpotIn(g, id) == AtFlight
    ensures SpotIn(g, id) == AtNowhere <==> id !in Holdings(g)
    ensures id in g.processing ==> g.processing[id].id == id
  {
    InSlotsIffReady(g, id);
    OneSpot(c, g, id);
    SpotHeld(g, id);
    InFlightKeyed(c, g, id);
    hide Sound, Holdings, ReadyIds, DelayedIds, InSlots;
  }

  /** A record of the message itself, applied to its group. */
  lemma OwnBears(s: Setup, q: Queue, e: Event, now: int, l: Life, f: Fate)
    requires e.group in q && Rebuilt(s.config(e.group), q[e.group])
    requires AsRecorded(q[e.group], e.msgID, f) && (e.kind == PUBLISH ==> f == Unpublished)
    requires Bears(s.config(e.group), q[e.group], e.msgID, l)
    ensures var r := Apply(s, q, e, now);
            e.group in r && Bears(s.config(e.group), r[e.group], e.msgID, Said(l, f, e, now))
  {
    hide Rebuilt, Bears, Fail, ReplayLease, RemoveMessage, Complete, HasRoom, SpotIn, Enqueue, NewMessage, Holdings;
    var key, id := e.group, e.msgID;
    var c, g := s.config(key), q[key];
    ReadySpot(c, g, id);
    if SpotIn(g, id) == AtNowhere {
      NothingHeld(c, g, id, Said(l, f, e, now));
    }
    if e.kind == PUBLISH {
      EnqueueBears(c, g, id, e.payload, now, id, l);
    } else if e.kind == LEASE {
      LeaseBears(c, g, id, now, id, l);
      if SpotIn(g, id) == AtNowhere {
        LeaseBears(c, g, id, now, id, Said(l, f, e, now));
      }
    } else if e.kind == ACK {
      CompleteBears(c, g, id, id, l);
      RemoveBears(c, g, id, id, l);
    } else if e.kind == NACK {
      RebuiltSound(c, g);
      FailBears(c, g, id, REPLAYED_NACK, now, id, l);
      if SpotIn(g, id) == AtNowhere {
        FailBears(c, g, id, REPLAYED_NACK, now, id, Said(l, f, e, now));
      }
    } else if e.kind == EXPIRE {
      CompleteBears(c, g, id, id, l);
    }
  }

  lemma RebuiltSound(c: Config, g: Group)
    requires Rebuilt(c, g)
    ensures Sound(c, g)
  {
  }

  /** A record of another message. */
  lemma OtherBears(s: Setup, q: Queue, e: Event, now: int, key: Bytes, id: Bytes, l: Life)
    requires key in q && Rebuilt(s.config(key), q[key]) && !IsFor(e, key, id)
    requires Bears(s.config(key), q[key], id, l)
    ensures var r := Apply(s, q, e, now); key in r && Bears(s.config(key), r[key], id, l)
  {
    hide Rebuilt, Bears, Fail, ReplayLease, RemoveMessage, Complete, HasRoom, Enqueue, NewMessage, InSlots;
    if e.group == key {
      var c, g, x := s.config(key), q[key], e.msgID;
      RebuiltSound(c, g);
      if e.kind == PUBLISH {
        EnqueueBears(c, g, x, e.payload, now, id, l);
      } else if e.kind == LEASE {
        LeaseBears(c, g, x, now, id, l);
      } else if e.kind == ACK {
        CompleteBears(c, g, x, id, l);
        RemoveBears(c, g, x, id, l);
      } else if e.kind == NACK {
        FailBears(c, g, x, REPLAYED_NACK, now, id, l);
      } else if e.kind == EXPIRE {
        CompleteBears(c, g, x, id, l);
      }
    }
  }

  // ---------------------------------------------------------------------------
  // Replay
  // ---------------------------------------------------------------------------

  /** The group of a first record, before it is applied. */
  lemma FreshBears(s: Setup, key: Bytes, id: Bytes, l: Life)
    ensures Bears(s.config(key), NewGroup(s.limiter(key)), id, l) && Rebuilt(s.config(key), NewGroup(s.limiter(key)))
    ensures SpotIn(NewGroup(s.limiter(key)), id) == AtNowhere
  {
    NoSlots();
    NewGroupRebuilt(s.config(key), s.limiter(key), id);
  }

  ghost predicate QueueBears(s: Setup, q: Queue, key: Bytes, id: Bytes, l: Life) {
    key in q ==> Bears(s.config(key), q[key], id, l)
  }

  /** The group is created on demand: a publish meets it as if it had been there. */
  lemma OnDemand(s: Setup, q: Queue, e: Event, now: int)
    requires e.kind == PUBLISH && e.group !in q
    ensures Apply(s, q, e, now) == Apply(s, q[e.group := NewGroup(s.limiter(e.group))], e, now)
  {
    hide HasRoom, Enqueue, NewMessage;
    var key, g := e.group, NewGroup(s.limiter(e.group));
    var q' := q[key := g];
    assert GroupOr(s, q, key) == g == GroupOr(s, q', key);
    var x := if HasRoom(s.config(key), g) then Enqueue(g, NewMessage(e.msgID, e.payload, now)) else g;
    assert q'[key := x] == q[key := x];
  }

  lemma OneBears(s: Setup, q: Queue, e: Event, now: int, key: Bytes, id: Bytes, l: Life, f: Fate)
    requires AllRebuilt(s, q) && QueueBears(s, q, key, id, l)
    requires key in q ==> AsRecorded(q[key], id, f)
    requires IsFor(e, key, id) && e.kind == PUBLISH ==> f == Unpublished
    ensures QueueBears(s, Apply(s, q, e, now), key, id, if IsFor(e, key, id) then Said(l, f, e, now) else l)
  {
    hide Bears, Apply, AllRebuilt, AsRecorded;
    if key in q {
      RebuiltAt(s, q, key);
      if IsFor(e, key, id) {
        OwnBears(s, q, e, now, l, f);
      } else {
        OtherBears(s, q, e, now, key, id, l);
      }
    } else if e.group == key && e.kind == PUBLISH {
      var q' := q[key := NewGroup(s.limiter(key))];
      OnDemand(s, q, e, now);
      FreshBears(s, key, id, l);
      FreshRecorded(s, key, id, f);
      if IsFor(e, key, id) {
        OwnBears(s, q', e, now, l, f);
      } else {
        OtherBears(s, q', e, now, key, id, l);
      }
    } else {
      StillAbsent(s, q, e, now, key);
    }
  }

  lemma RebuiltAt(s: Setup, q: Queue, key: Bytes)
    requires AllRebuilt(s, q) && key in q
    ensures Rebuilt(s.config(key), q[key])
  {
  }

  lemma FreshRecorded(s: Setup, key: Bytes, id: Bytes, f: Fate)
    ensures AsRecorded(NewGroup(s.limiter(key)), id, f)
  {
    FreshBears(s, key, id, Born([], 0));
  }

  lemma StillAbsent(s: Setup, q: Queue, e: Event, now: int, key: Bytes)
    requires key !in q && !(e.group == key && e.kind == PUBLISH)
    ensures key !in Apply(s, q, e, now)
  {
    hide HasRoom, Enqueue, Fail, ReplayLease, RemoveMessage, Complete;
  }

  /** Whatever the rebuilt queue holds under (key, id) bears what the records say. */
  lemma {:induction false} ReplayBears(s: Setup, es: seq<Event>, clock: seq<int>, key: Bytes, id: Bytes)
    requires |clock| == |es| && AllUsable(s) && DistinctPublishes(es)
    ensures QueueBears(s, ReplayAll(s, es, clock), key, id, LifeIn(s.config(key), es, clock, key, id))
    decreases |es|
  {
    hide AllUsable, DistinctPublishes, QueueBears, Apply, AllRebuilt, AsRecorded, Placed, Fitting, Refused, FateOf;
    if es == [] {
      NoneBears(s, key, id, LifeIn(s.config(key), es, clock, key, id));
    } else {
      var n := |es| - 1;
      var c, front, t := s.config(key), es[..n], clock[..n];
      var q := ReplayAll(s, front, t);
      DistinctTo(es, n);
      ReplayBears(s, front, t, key, id);
      ReplayWithLimit(s, front, t);
      ReplayPlaces(s, front, t, key, id);
      PlacedAsRecorded(s, q, key, id, FateOf(c, front, key, id));
      if IsFor(es[n], key, id) && es[n].kind == PUBLISH {
        NotPublishedBefore(c, es);
      }
      OneBears(s, q, es[n], clock[n], key, id, LifeIn(c, front, t, key, id), FateOf(c, front, key, id));
    }
  }

  lemma NoneBears(s: Setup, key: Bytes, id: Bytes, l: Life)
    ensures QueueBears(s, map[], key, id, l)
  {
  }

  lemma PlacedAsRecorded(s: Setup, q: Queue, key: Bytes, id: Bytes, f: Fate)
    requires SpotOf(q, key, id) == AtNowhere || SpotOf(q, key, id) == Expected(f)
    ensures key in q ==> AsRecorded(q[key], id, f)
  {
    hide SpotIn;
  }

  // ---------------------------------------------------------------------------
  // Payloads
  // ---------------------------------------------------------------------------

  /** All the group holds under the id has this payload. */
  ghost predicate OnlyPayload(g: Group, id: Bytes, payload: Bytes) {
    && (forall m <- Backlog(g) | m.id == id :: m.payload == payload)
    && (forall m <- g.delayed | m.id == id :: m.payload == payload)
    && (id in g.processing ==> g.processing[id].payload == payload)
  }

  lemma BearsPayload(c: Config, g: Group, id: Bytes, l: Life)
    requires Bears(c, g, id, l)
    ensures OnlyPayload(g, id, l.payload)
  {
    hide Backlog, RetryDelay;
  }

  /** The payload in the records is that of the PUBLISH. */
  lemma {:induction false} RecordedPayload(c: Config, es: seq<Event>, clock: seq<int>, p: nat)
    requires |clock| == |es| && DistinctPublishes(es) && p < |es| && es[p].kind == PUBLISH
    ensures LifeIn(c, es, clock, es[p].group, es[p].msgID).payload == es[p].payload
    decreases |es|
  {
    var n := |es| - 1;
    var key, id := es[p].group, es[p].msgID;
    DistinctTo(es, n);
    if p < n {
      RecordedPayload(c, es[..n], clock[..n], p);
      assert !(IsFor(es[n], key, id) && es[n].kind == PUBLISH);
    } else {
      NotPublishedBefore(c, es);
    }
  }

  /** A recovered message has the payload it was published with: for every PUBLISH of the
      log, all the rebuilt queue holds under its group and id has its payload. */
  lemma PayloadIsRecovered(s: Setup, es: seq<Event>, clock: seq<int>, p: nat)
    requires |clock| == |es| && AllUsable(s) && DistinctPublishes(es) && p < |es| && es[p].kind == PUBLISH
    ensures var q, e := ReplayAll(s, es, clock), es[p];
            e.group in q ==> OnlyPayload(q[e.group], e.msgID, e.payload)
  {
    hide AllUsable, DistinctPublishes, ReplayAll, Bears, OnlyPayload, LifeIn;
    var q, e := ReplayAll(s, es, clock), es[p];
    ReplayBears(s, es, clock, e.group, e.msgID);
    RecordedPayload(s.config(e.group), es, clock, p);
    if e.group in q {
      BearsPayload(s.config(e.group), q[e.group], e.msgID, LifeIn(s.config(e.group), es, clock, e.group, e.msgID));
    }
  }
}
