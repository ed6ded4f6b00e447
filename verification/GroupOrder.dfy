/** Two promises over whole runs: a sequential group delivers and completes in
    publication order, and Deficit Round Robin pays out exactly its credit. */
module GroupOrder {
  import opened Bytes
  import opened Messages
  import opened RateLimiter
  import opened GroupSpec
  import opened GroupConservation
  import opened GroupDrain
  import opened GroupRuns

  // ---------------------------------------------------------------------------
  // Sequential order
  // ---------------------------------------------------------------------------

  /** The id in flight, as a list of at most one. */
  ghost function Flight(ids: set<Bytes>): seq<Bytes> {
    if ids == {} then [] else (var id :| id in ids; [id])
  }

  lemma FlightOf(p: map<Bytes, Message>, id: Bytes)
    requires |p| <= 1 && id in p
    ensures Flight(p.Keys) == [id] && (p - {id}).Keys == {}
  {
    assert |p.Keys| == |p|;
    forall k | k in p ensures k == id {
      if k != id {
        Subset({k, id}, p.Keys);
      }
    }
  }

  lemma Subset(a: set<Bytes>, b: set<Bytes>)
    requires a <= b
    ensures |a| <= |b|
  {
    assert b == a + (b - a);
    assert |b| == |a| + |b - a|;
  }

  lemma FlightNone(p: map<Bytes, Message>)
    requires |p| == 0
    ensures Flight(p.Keys) == []
  {
    assert |p.Keys| == 0;
  }

  ghost predicate Delivered(accepted: seq<Bytes>, sent: seq<Delivery>) {
    forall i :: 0 <= i < |sent| ==> sent[i].after < |accepted| && accepted[sent[i].after] == sent[i].id
  }

  /** Nothing is delayed, and at most one message is in flight or given back. */
  predicate OneAtATime(g: Group) {
    g.delayed == [] && |LiveSlots(g.urgent)| + |g.processing| <= 1
  }

  /** The ids the group holds, in the order it will deliver them. */
  ghost function Line(g: Group): seq<Bytes> {
    Flight(g.processing.Keys) + Ids(Backlog(g))
  }

  /** What left, then what is in flight, then what waits, is what was published, in
      order; and each delivery was of the oldest message that had not left. */
  ghost predicate InLine(w: World) {
    OneAtATime(w.g) && w.accepted == Ids(w.gone) + Line(w.g) &&
    (forall i :: 0 <= i < |w.gone| ==> w.gone[i].state == Done) &&
    Delivered(w.accepted, w.sent)
  }

  ghost predicate InOrder(c: Config, w: World) {
    Conserved(c, w) && InLine(w)
  }

  lemma ConservedParts(c: Config, w: World)
    requires Conserved(c, w)
    ensures Sound(c, w.g)
    ensures forall id :: id in w.g.processing ==> w.g.processing[id].id == id
  {
    assert forall id :: id in w.g.processing ==> InFlight(c, id, w.g.processing[id]);
  }

  // One lemma per operation

  lemma EnqueueLine(g: Group, m: Message)
    ensures Line(Enqueue(g, m)) == Line(g) + [m.id]
    ensures OneAtATime(g) ==> OneAtATime(Enqueue(g, m))
  {
    LiveSnoc(g.ready, m);
    assert Backlog(Enqueue(g, m)) == Backlog(g) + [m];
    IdsAppend(Backlog(g), [m]);
    IdsOne(m);
  }

  lemma DeliveredStill(accepted: seq<Bytes>, sent: seq<Delivery>, id: Bytes)
    requires Delivered(accepted, sent)
    ensures Delivered(accepted + [id], sent)
  {
  }

  lemma PublishInOrder(c: Config, w: World, id: Bytes, payload: Bytes, now: int)
    requires Usable(c) && InOrder(c, w) && id !in w.accepted
    ensures InOrder(c, Step(c, w, Publish(id, payload, now)))
  {
    hide Conserved, OneAtATime, Line, Sound, HasRoom, Enqueue, Delivered;
    ConservedParts(c, w);
    PublishConserves(c, w, id, payload, now);
    EnqueueLine(w.g, NewMessage(id, payload, now));
    DeliveredStill(w.accepted, w.sent, id);
  }

  lemma CompleteLine(g: Group, id: Bytes)
    requires OneAtATime(g)
    ensures OneAtATime(Complete(g, id))
    ensures if id in g.processing then Line(g) == [id] + Line(Complete(g, id)) else Line(Complete(g, id)) == Line(g)
  {
    hide LiveSlots, Ids, Flight;
    var r := Complete(g, id);
    Fewer(g.processing, id);
    if id in g.processing {
      FlightOf(g.processing, id);
      FlightNone(r.processing);
      assert Line(g) == [id] + Ids(Backlog(g)) == [id] + Line(r);
    } else {
      assert g.processing - {id} == g.processing;
    }
  }

  lemma AckInOrder(c: Config, w: World, id: Bytes)
    requires InOrder(c, w)
    ensures InOrder(c, Acked(w, id))
  {
    hide Conserved, OneAtATime, Line, Sound, Complete, Delivered;
    ConservedParts(c, w);
    AckConserves(c, w, id);
    CompleteLine(w.g, id);
    if id in w.g.processing {
      var m := w.g.processing[id].(state := Done);
      IdsAppend(w.gone, [m]);
      IdsOne(m);
    }
  }

  lemma ReturnLine(g: Group, id: Bytes)
    requires OneAtATime(g) && (id in g.processing ==> g.processing[id].id == id)
    ensures OneAtATime(ReturnToPending(g, id)) && Line(ReturnToPending(g, id)) == Line(g)
  {
    if id in g.processing {
      var r, m := ReturnToPending(g, id), g.processing[id].(state := Pending);
      ReturnHolds(g, id);
      FlightOf(g.processing, id);
      Fewer(g.processing, id);
      assert LiveSlots(g.urgent) == [];
      assert LiveSlots(r.urgent) == [m];
      hide LiveSlots;
      assert LiveSlots(g.urgent) + LiveSlots(g.ready) == LiveSlots(g.ready);
      IdsAppend([m], LiveSlots(g.ready));
      IdsOne(m);
      FlightNone(r.processing);
    }
  }

  lemma GiveBackInOrder(c: Config, w: World, id: Bytes)
    requires InOrder(c, w)
    ensures InOrder(c, w.(g := ReturnToPending(w.g, id)))
  {
    hide Conserved, OneAtATime, Line, Sound, ReturnToPending, Delivered;
    ConservedParts(c, w);
    GiveBackConserves(c, w, id);
    ReturnLine(w.g, id);
  }

  lemma {:induction false} ReturnAllInOrder(c: Config, w: World, order: seq<Bytes>)
    requires InOrder(c, w)
    ensures InOrder(c, w.(g := ReturnAll(w.g, order)))
  {
    hide InOrder;
    if order != [] {
      var front := order[..|order| - 1];
      ReturnAllInOrder(c, w, front);
      GiveBackInOrder(c, w.(g := ReturnAll(w.g, front)), order[|order| - 1]);
    }
  }

  lemma NothingDue(g: Group, now: int)
    requires OneAtATime(g)
    ensures PromoteDue(g, now) == g
  {
    assert g.ready + SlotsOf(g.delayed[..0]) == g.ready;
  }

  lemma PromoteInOrder(c: Config, w: World, now: int, order: seq<Bytes>)
    requires InOrder(c, w)
    ensures InOrder(c, w.(g := Promote(w.g, now, order)))
  {
    hide Conserved, OneAtATime, Line, Delivered, PromoteDue, ReturnAll;
    ReturnAllInOrder(c, w, order);
    NothingDue(ReturnAll(w.g, order), now);
  }

  /** Sending the first message of the backlog sends the first of the line. */
  lemma SendLine(c: Config, g: Group, now: int)
    requires Sound(c, g) && OneAtATime(g) && Backlog(g) != [] && |g.processing| == 0
    ensures OneAtATime(DispatchOne(c, g, now)) && Line(DispatchOne(c, g, now)) == Line(g)
    ensures Line(g) != [] && Line(g)[0] == Backlog(g)[0].id
  {
    UrgentAfterOne(c, g, now);
    OneInFlight(c, g, now);
    hide Sound, Backlog, LiveSlots, DispatchOne;
    var r, m := DispatchOne(c, g, now), Backlog(g)[0];
    FlightNone(g.processing);
    BacklogAfterOne(c, g, now);
    DispatchOneSound(c, g, now);
    FlightOf(r.processing, m.id);
    assert Backlog(g) == [m] + Backlog(g)[1..];
    IdsAppend([m], Backlog(g)[1..]);
    IdsOne(m);
    assert Ids(Backlog(g))[0] == m.id;
  }

  lemma UrgentAfterOne(c: Config, g: Group, now: int)
    requires Backlog(g) != [] && |LiveSlots(g.urgent)| <= 1
    ensures LiveSlots(DispatchOne(c, g, now).urgent) == [] && DispatchOne(c, g, now).delayed == g.delayed
  {
    if LiveSlots(g.urgent) != [] {
      SkipDropsFirst(g.urgent);
    }
  }

  /** The limiter and the credit are not part of the line. */
  lemma SameLine(g: Group, h: Group)
    requires OneAtATime(g) && h == g.(limiter := h.limiter, deficit := h.deficit)
    ensures OneAtATime(h) && Line(h) == Line(g) && Backlog(h) == Backlog(g)
  {
  }

  lemma ClearedLine(g: Group, h: Group)
    requires OneAtATime(g) && Backlog(g) == []
    requires h == g.(limiter := h.limiter, deficit := h.deficit, urgent := [], ready := [])
    ensures OneAtATime(h) && Line(h) == Line(g)
  {
    assert Backlog(h) == [];
  }

  lemma NextLine(c: Config, g: Group, now: int)
    requires c.parallelism == 1 && Sound(c, g) && OneAtATime(g)
    ensures OneAtATime(NextDispatchable(c, g, now)) && Line(NextDispatchable(c, g, now)) == Line(g)
    ensures Blocked(c, g, now) == None ==> Line(g) != [] && Line(g)[0] == Backlog(g)[0].id
  {
    hide Sound, OneAtATime, Line, Backlog, DispatchOne, Called, Allows;
    var a := AskLimiter(g, now);
    AskSound(c, g, now);
    SameLine(g, a);
    if Blocked(c, g, now) == None {
      SendLine(c, a, now);
    } else if Blocked(c, g, now) == Some(Empty) {
      ClearedLine(g, NextDispatchable(c, g, now));
    }
  }

  lemma TriedInLine(c: Config, w: World, now: int, order: seq<Bytes>)
    requires c.parallelism == 1 && Sound(c, Promote(w.g, now, order))
    requires InLine(w.(g := Promote(w.g, now, order)))
    ensures InLine(Tried(c, w, now, order))
  {
    hide OneAtATime, Line, Sound, NextDispatchable, Promote, Blocked, Backlog, Ids;
    NextLine(c, Promote(w.g, now, order), now);
  }

  lemma TriedInOrder(c: Config, w: World, now: int, order: seq<Bytes>)
    requires c.parallelism == 1 && InOrder(c, w)
    ensures InOrder(c, Tried(c, w, now, order))
  {
    hide Conserved, OneAtATime, Line, Sound, NextDispatchable, Promote, Blocked, Backlog, InLine;
    PromoteInOrder(c, w, now, order);
    TriedConserves(c, w, now, order);
    ConservedParts(c, w.(g := Promote(w.g, now, order)));
    TriedInLine(c, w, now, order);
  }

  /** With one slot, a round sends at most one message, the first of the line. */
  lemma DrainedLine(c: Config, g: Group, now: int)
    requires c.parallelism == 1 && Usable(c) && Sound(c, g) && OneAtATime(g) && Credit(c, g) >= 0
    ensures OneAtATime(Drained(c, g, now)) && Line(Drained(c, g, now)) == Line(g)
    ensures BatchSize(c, g, now) <= 1
    ensures BatchSize(c, g, now) == 1 ==> Line(g) != [] && Line(g)[0] == Backlog(g)[0].id
  {
    var k := BatchSize(c, g, now);
    var d := Dispatch(c, g, now, k);
    if k > 0 {
      SendLine(c, g, now);
      BacklogAfterOne(c, g, now);
      assert Dispatch(c, DispatchOne(c, g, now), now, 0) == DispatchOne(c, g, now);
    }
    DispatchSound(c, g, now, k);
    hide Sound, OneAtATime, Line, LiveSlots, Dispatch, Tokens, CalledTimes;
    var r := Drained(c, g, now);
    var sent := d.(limiter := r.limiter, deficit := r.deficit);
    SameLine(d, sent);
    if RoundStop(c, g, now) == Some(Empty) {
      assert k == |Backlog(g)|;
      ClearedLine(d, r);
    }
  }

  lemma DrainInOrder(c: Config, w: World, now: int, order: seq<Bytes>)
    requires c.parallelism == 1 && Usable(c) && InOrder(c, w)
    ensures InOrder(c, Step(c, w, Drain(now, order)))
  {
    hide Conserved, OneAtATime, Line, Sound, Drained, Promote, BatchSize, Backlog, Credit, Delivered;
    ConservedParts(c, w);
    var p := Promote(w.g, now, order);
    PromoteInOrder(c, w, now, order);
    DrainConserves(c, w, now, order);
    PromoteSound(c, w.g, now, order);
    SoundCredit(c, p);
    if PendingCount(p) > 0 {
      DrainedLine(c, p, now);
      FirstOnly(Backlog(p), BatchSize(c, p, now), |w.gone|);
      if BatchSize(c, p, now) == 1 {
        DeliverFirst(w.accepted, w.gone, Line(p), w.sent);
      } else {
        assert w.sent + [] == w.sent;
      }
    }
  }

  lemma FirstOnly(b: seq<Message>, k: nat, after: nat)
    requires k <= 1 && k <= |b|
    ensures Deliveries(b[..k], after) == if k == 0 then [] else [Delivery(b[0].id, after)]
  {
  }

  lemma DeliverFirst(accepted: seq<Bytes>, gone: seq<Message>, line: seq<Bytes>, sent: seq<Delivery>)
    requires accepted == Ids(gone) + line && line != [] && Delivered(accepted, sent)
    ensures Delivered(accepted, sent + [Delivery(line[0], |gone|)])
  {
  }

  // ---------------------------------------------------------------------------
  // Whole runs
  // ---------------------------------------------------------------------------

  predicate IsNack(op: Op) {
    op.Nack? || op.NackAndNext?
  }

  lemma StepInOrder(c: Config, w: World, op: Op)
    requires c.parallelism == 1 && Usable(c) && InOrder(c, w) && Enabled(c, w, op) && !IsNack(op)
    ensures InOrder(c, Step(c, w, op))
  {
    match op
    case Publish(id, payload, now) => PublishInOrder(c, w, id, payload, now);
    case Drain(now, order) => DrainInOrder(c, w, now, order);
    case TryDispatch(now, order) => TriedInOrder(c, w, now, order);
    case Ack(id) => AckInOrder(c, w, id);
    case AckAndNext(id, now, order) =>
      AckInOrder(c, w, id);
      TriedInOrder(c, Acked(w, id), now, order);
    case GiveBack(id) => GiveBackInOrder(c, w, id);
    case Sweep(now, order) => ReturnAllInOrder(c, w, order);
  }

  lemma {:induction false} RunInOrder(c: Config, w: World, ops: seq<Op>)
    requires c.parallelism == 1 && Usable(c) && InOrder(c, w) && CanRun(c, w, ops)
    requires forall i :: 0 <= i < |ops| ==> !IsNack(ops[i])
    ensures InOrder(c, Run(c, w, ops))
    decreases |ops|
  {
    hide InLine, Conserved, Step, Enabled, Sound;
    if ops != [] {
      ConservedParts(c, w);
      StepInOrder(c, w, ops[0]);
      forall i | 0 <= i < |ops[1..]| ensures !IsNack(ops[1..][i]) {
        assert ops[1..][i] == ops[i + 1];
      }
      RunInOrder(c, Step(c, w, ops[0]), ops[1..]);
    }
  }

  /** Sequential order.  With parallelism 1 and no NACKs, over every run that mixes
      publishes, dispatches, acknowledgements, returns and lease expiries: messages
      complete in publication order, and every delivery is of the oldest message not
      yet completed (its first delivery or a redelivery). */
  lemma SequentialOrder(c: Config, limiter: Option<Limiter>, ops: seq<Op>)
    requires c.parallelism == 1 && Usable(c) && CanRun(c, NewWorld(c, limiter), ops)
    requires forall i :: 0 <= i < |ops| ==> !IsNack(ops[i])
    ensures var w := Run(c, NewWorld(c, limiter), ops);
            Ids(w.gone) <= w.accepted &&
            (forall i :: 0 <= i < |w.gone| ==> w.gone[i].state == Done) &&
            (forall i :: 0 <= i < |w.sent| ==>
               w.sent[i].after < |w.accepted| && w.sent[i].id == w.accepted[w.sent[i].after])
  {
    hide Conserved, NewWorld, Line, OneAtATime, CanRun, Run, Ids;
    StartInOrder(c, limiter);
    RunInOrder(c, NewWorld(c, limiter), ops);
  }

  lemma StartInOrder(c: Config, limiter: Option<Limiter>)
    requires Usable(c)
    ensures InOrder(c, NewWorld(c, limiter))
  {
    hide Conserved;
    FlightNone(map[]);
  }

  // ---------------------------------------------------------------------------
  // Deficit Round Robin
  // ---------------------------------------------------------------------------

  /** Credit is neither created nor lost: what the rounds sent plus what is left over
      is what was left over at the start plus a quantum for every credited round. */
  ghost predicate Balanced(c: Config, w: World, start: int) {
    w.drained + w.g.deficit == start + Pay(c, w.credited)
  }

  /** The credit of n rounds. */
  function Pay(c: Config, n: nat): int {
    c.quantum * n
  }

  lemma PayOneMore(c: Config, n: nat)
    ensures Pay(c, n + 1) == Pay(c, n) + c.quantum
    ensures Pay(c, 0) == 0
  {
  }

  lemma StepBalances(c: Config, w: World, op: Op, start: int)
    requires Usable(c) && Conserved(c, w) && Enabled(c, w, op) && Balanced(c, w, start)
    ensures Balanced(c, Step(c, w, op), start)
    ensures Step(c, w, op).g.deficit >= 0
  {
    hide Sound, Conserved, Step, Enabled, Pay;
    ConservedParts(c, w);
    StepConserves(c, w, op);
    StepCredit(c, w, op);
    PayOneMore(c, w.credited);
    ConservedDeficit(c, Step(c, w, op));
  }

  lemma ConservedDeficit(c: Config, w: World)
    requires Conserved(c, w)
    ensures w.g.deficit >= 0
  {
  }

  /** Only a drain round that finds work is given credit, and it accounts for it. */
  lemma StepCredit(c: Config, w: World, op: Op)
    requires Usable(c) && Conserved(c, w) && Enabled(c, w, op)
    ensures var r := Step(c, w, op);
            (r.credited == w.credited && r.drained == w.drained && r.g.deficit == w.g.deficit) ||
            (op.Drain? && r.credited == w.credited + 1 && r.drained >= w.drained &&
             r.drained - w.drained + r.g.deficit == w.g.deficit + c.quantum)
  {
    hide Conserved, Sound, Tried, DrainedWorld, Insert, Rescheduled, HasRoom, ReturnAll;
    ConservedParts(c, w);
    match op
    case Drain(now, order) => DrainCredit(c, w, now, order);
    case TryDispatch(now, order) => TriedCredit(c, w, now, order);
    case AckAndNext(id, now, order) =>
      AckConserves(c, w, id);
      TriedCredit(c, Acked(w, id), now, order);
    case NackAndNext(id, error, now, order) =>
      NackConserves(c, w, id, error, now);
      TriedCredit(c, Nacked(c, w, id, error, now), now, order);
    case Sweep(now, order) => ReturnAllSound(c, w.g, order);
    case _ =>
  }

  lemma DrainCredit(c: Config, w: World, now: int, order: seq<Bytes>)
    requires Usable(c) && Sound(c, w.g)
    ensures var r, p := Step(c, w, Drain(now, order)), Promote(w.g, now, order);
            if PendingCount(p) == 0
            then r.credited == w.credited && r.drained == w.drained && r.g.deficit == w.g.deficit
            else
              Credit(c, p) >= 0 &&
              r.credited == w.credited + 1 && r.drained == w.drained + BatchSize(c, p, now) &&
              r.drained - w.drained + r.g.deficit == w.g.deficit + c.quantum
  {
    PromoteSound(c, w.g, now, order);
    hide Sound, Promote, Dispatch, BatchSize, RoundStop, CalledTimes;
  }

  lemma TriedCredit(c: Config, w: World, now: int, order: seq<Bytes>)
    requires Conserved(c, w)
    ensures var r := Tried(c, w, now, order);
            r.credited == w.credited && r.drained == w.drained && r.g.deficit == w.g.deficit
  {
    hide Sound, Promote, Called, Allows, Conserved, LiveSlots;
    ConservedParts(c, w);
    PromoteSound(c, w.g, now, order);
  }

  /** Weighted fairness over every run: sent plus leftover is the initial leftover
      plus quantum times credited rounds, and the leftover is never negative. */
  lemma {:induction false} RunBalances(c: Config, w: World, ops: seq<Op>, start: int)
    requires Usable(c) && Conserved(c, w) && CanRun(c, w, ops) && Balanced(c, w, start)
    ensures var r := Run(c, w, ops);
            r.drained + r.g.deficit == start + Pay(c, r.credited) && r.g.deficit >= 0
    decreases |ops|
  {
    hide Conserved, Step, Enabled, Pay, Sound;
    if ops == [] {
      ConservedDeficit(c, w);
    } else {
      ConservedParts(c, w);
      StepBalances(c, w, ops[0], start);
      StepConserves(c, w, ops[0]);
      RunBalances(c, Step(c, w, ops[0]), ops[1..], start);
    }
  }

  /** A drain round that neither parallelism, nor limiter, nor backlog cuts short. */
  ghost predicate Unblocked(c: Config, w: World, op: Op) {
    op.Drain? ==>
      var p := Promote(w.g, op.now, op.order);
      Credit(c, p) >= 0 && PendingCount(p) > 0 && BatchSize(c, p, op.now) == Credit(c, p)
  }

  ghost predicate AlwaysUnblocked(c: Config, w: World, ops: seq<Op>)
    requires Usable(c) && Conserved(c, w) && CanRun(c, w, ops)
    decreases |ops|
  {
    ops == [] ||
    (Unblocked(c, w, ops[0]) &&
     (StepConserves(c, w, ops[0]); AlwaysUnblocked(c, Step(c, w, ops[0]), ops[1..])))
  }

  function Drains(ops: seq<Op>): nat {
    if ops == [] then 0 else (if ops[0].Drain? then 1 else 0) + Drains(ops[1..])
  }

  /** A group that stays backlogged and unblocked is sent exactly what it had left over
      plus its quantum for each of its rounds, whatever else happens in between. */
  lemma {:induction false} BackloggedGetsItsShare(c: Config, w: World, ops: seq<Op>)
    requires Usable(c) && Conserved(c, w) && CanRun(c, w, ops) && AlwaysUnblocked(c, w, ops)
    ensures var r := Run(c, w, ops);
            if Drains(ops) == 0 then r.drained == w.drained && r.g.deficit == w.g.deficit
            else r.drained - w.drained == w.g.deficit + Pay(c, Drains(ops)) && r.g.deficit == 0
    decreases |ops|
  {
    hide Conserved, Step, Enabled, Unblocked, Pay, Sound;
    if ops != [] {
      ConservedParts(c, w);
      StepConserves(c, w, ops[0]);
      UnblockedStep(c, w, ops[0]);
      BackloggedGetsItsShare(c, Step(c, w, ops[0]), ops[1..]);
      PayOneMore(c, Drains(ops[1..]));
    }
  }

  lemma UnblockedStep(c: Config, w: World, op: Op)
    requires Usable(c) && Conserved(c, w) && Enabled(c, w, op) && Unblocked(c, w, op)
    ensures var r := Step(c, w, op);
            if op.Drain? then r.g.deficit == 0 && r.drained - w.drained == w.g.deficit + c.quantum
            else r.drained == w.drained && r.g.deficit == w.g.deficit
  {
    hide Conserved, Step, Enabled, Sound, Promote, BatchSize;
    ConservedParts(c, w);
    PromoteKeepsCredit(c, w.g, op);
    if op.Drain? {
      DrainCredit(c, w, op.now, op.order);
    } else {
      StepCredit(c, w, op);
    }
  }

  lemma PromoteKeepsCredit(c: Config, g: Group, op: Op)
    requires Sound(c, g)
    ensures op.Drain? ==> Promote(g, op.now, op.order).deficit == g.deficit
  {
    if op.Drain? {
      PromoteSound(c, g, op.now, op.order);
    }
  }
}
