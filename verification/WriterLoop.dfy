/** The goroutine that owns all writes of one queue: events arrive on a channel,
    are gathered into a batch, flushed, and their waiters are answered. */
module WriterLoop {
  import opened Bytes
  import opened Record
  import opened WriteAheadLog

  const CHANNEL_CAPACITY: nat := 8192

  datatype Reply = Reply(request: Request, ok: bool)

  datatype Loop = Loop(
    wal: Wal,
    start: nat,                  // events the log held when it was opened
    flushMax: nat,
    ch: seq<Request>,            // the append channel
    batch: seq<Request>,         // received, not yet flushed
    stopping: bool,              // the stop signal was taken: draining the channel
    stopped: bool,
    submitted: seq<Request>,     // everything ever sent, in order
    flushed: seq<Request>,       // everything handed to flushBatch, in order
    discarded: seq<Request>,     // drained after a permanent failure
    replies: seq<Reply>          // answers sent on done channels, in order
  )

  /** What the file system will do if this step flushes. */
  datatype Disk = Disk(spills: seq<Spill>, outcome: Outcome)

  datatype Step =
    | Submit(request: Request)   // Append or AppendSync finds room in the channel
    | Receive(disk: Disk)
    | Tick(disk: Disk)           // the flush timer
    | BeginStop                  // the stop signal
    | Stop(disk: Disk)           // the append channel is drained: last flush
    | DrainFailed                // the log has failed permanently

  predicate DiskFits(l: Loop, batch: seq<Request>, d: Disk) {
    |d.spills| == |batch| && Possible(WriteAll(l.wal, batch, d.spills), d.outcome)
  }

  predicate Looping(l: Loop) {
    !l.stopped && !l.stopping
  }

  /** The loop looks at the permanent failure before each turn, but the drain after the
      stop signal does not: it goes on flushing. */
  ghost predicate Enabled(l: Loop, s: Step) {
    match s
    case Submit(r) => |l.ch| < CHANNEL_CAPACITY && WellSized(r.event)
    case Receive(d) => !l.stopped && (l.stopping || !l.wal.failed) && l.ch != [] &&
                       (|l.batch| + 1 >= l.flushMax ==> DiskFits(l, l.batch + [l.ch[0]], d))
    case Tick(d) => Looping(l) && !l.wal.failed && DiskFits(l, l.batch, d)
    case BeginStop => Looping(l) && !l.wal.failed
    case Stop(d) => !l.stopped && l.stopping && l.ch == [] && DiskFits(l, l.batch, d)
    case DrainFailed => Looping(l) && l.wal.failed
  }

  function Answers(batch: seq<Request>, ok: bool): seq<Reply> {
    if batch == [] then []
    else
      var r := batch[|batch| - 1];
      Answers(batch[..|batch| - 1], ok) + (if r.waiting then [Reply(r, ok)] else [])
  }

  function DoFlush(l: Loop, batch: seq<Request>, d: Disk): Loop
    requires DiskFits(l, batch, d)
  {
    if batch == [] then l.(batch := [])
    else l.(wal := FlushBatch(l.wal, batch, d.spills, d.outcome),
            batch := [],
            flushed := l.flushed + batch,
            replies := l.replies + Answers(batch, d.outcome.Confirmed?))
  }

  function Next(l: Loop, s: Step): Loop
    requires Enabled(l, s)
  {
    match s
    case Submit(r) => l.(ch := l.ch + [r], submitted := l.submitted + [r])
    case Receive(d) =>
      var batch := l.batch + [l.ch[0]];
      var got := l.(ch := l.ch[1..], batch := batch);
      if |batch| >= l.flushMax then DoFlush(got, batch, d) else got
    case Tick(d) => DoFlush(l, l.batch, d)
    case BeginStop => l.(stopping := true)
    case Stop(d) => DoFlush(l, l.batch, d).(stopped := true)
    case DrainFailed =>
      l.(ch := [], discarded := l.discarded + l.ch, replies := l.replies + Answers(l.ch, false), stopped := true)
  }

  // ---------------------------------------------------------------------------
  // Invariants of every interleaving
  // ---------------------------------------------------------------------------

  ghost predicate AllSized(rs: seq<Request>) {
    forall i :: 0 <= i < |rs| ==> WellSized(rs[i].event)
  }

  /** The requests that were told nil, in order. */
  function Told(replies: seq<Reply>): seq<Request> {
    if replies == [] then []
    else
      var r := replies[|replies| - 1];
      Told(replies[..|replies| - 1]) + (if r.ok then [r.request] else [])
  }

  /** The events are those of the requests, one for one, with numbers of their own. */
  ghost predicate NumberedLike(es: seq<Event>, rs: seq<Request>) {
    |es| == |rs| && forall i :: 0 <= i < |es| ==> es[i] == rs[i].event.(seqNo := es[i].seqNo)
  }

  /** The acknowledged events are exactly the events of the requests told nil, in order. */
  ghost predicate AcksMatch(l: Loop) {
    NumberedLike(l.wal.acked, Told(l.replies))
  }

  /** The log holds the flushed events, in the order they were submitted. */
  ghost predicate LogMatches(l: Loop) {
    var log := Log(l.wal);
    |log| == l.start + |l.flushed| &&
    forall i :: 0 <= i < |l.flushed| ==>
      log[l.start + i] == l.flushed[i].event.(seqNo := log[l.start + i].seqNo)
  }

  ghost predicate LoopInv(l: Loop) {
    Inv(l.wal) && Ordered(l.wal) && AcksMatch(l) && LogMatches(l) &&
    l.submitted == l.flushed + l.discarded + l.batch + l.ch &&
    (l.wal.failed && !l.stopping ==> l.batch == []) &&
    (l.discarded != [] ==> l.stopped) && (l.stopped ==> l.batch == []) &&
    AllSized(l.batch) && AllSized(l.ch) &&
    |l.ch| <= CHANNEL_CAPACITY && (|l.batch| < l.flushMax || l.batch == [])
  }

  /** Every waiter among the requests dealt with has been answered exactly once:
      the waiting requests, in order, are the requests of the replies, in order. */
  ghost predicate AnsweredOnce(l: Loop) {
    Waiting(l.flushed + l.discarded) == Answered(l.replies)
  }

  function Waiting(rs: seq<Request>): seq<Request> {
    if rs == [] then []
    else Waiting(rs[..|rs| - 1]) + (if rs[|rs| - 1].waiting then [rs[|rs| - 1]] else [])
  }

  function Answered(replies: seq<Reply>): seq<Request> {
    if replies == [] then [] else Answered(replies[..|replies| - 1]) + [replies[|replies| - 1].request]
  }

  lemma {:induction false} WaitingAppend(a: seq<Request>, b: seq<Request>)
    ensures Waiting(a + b) == Waiting(a) + Waiting(b)
  {
    if b == [] {
      assert a + b == a;
    } else {
      assert (a + b)[..|a + b| - 1] == a + b[..|b| - 1];
      WaitingAppend(a, b[..|b| - 1]);
    }
  }

  lemma {:induction false} AnsweredAppend(a: seq<Reply>, b: seq<Reply>)
    ensures Answered(a + b) == Answered(a) + Answered(b)
  {
    if b == [] {
      assert a + b == a;
    } else {
      assert (a + b)[..|a + b| - 1] == a + b[..|b| - 1];
      AnsweredAppend(a, b[..|b| - 1]);
    }
  }

  lemma {:induction false} AnswersAreWaiters(batch: seq<Request>, ok: bool)
    ensures Answered(Answers(batch, ok)) == Waiting(batch)
  {
    if batch != [] {
      var front, r := batch[..|batch| - 1], batch[|batch| - 1];
      AnswersAreWaiters(front, ok);
      if r.waiting {
        var a := Answers(front, ok);
        assert (a + [Reply(r, ok)])[..|a|] == a;
      } else {
        assert Answers(batch, ok) == Answers(front, ok);
      }
    }
  }

  lemma {:induction false} ToldAppend(a: seq<Reply>, b: seq<Reply>)
    ensures Told(a + b) == Told(a) + Told(b)
  {
    if b == [] {
      assert a + b == a;
    } else {
      assert (a + b)[..|a + b| - 1] == a + b[..|b| - 1];
      ToldAppend(a, b[..|b| - 1]);
    }
  }

  /** A confirmed batch tells nil to all its waiters, a failed one to none. */
  lemma {:induction false} AnswersTell(batch: seq<Request>, ok: bool)
    ensures Told(Answers(batch, ok)) == if ok then Waiting(batch) else []
  {
    if batch != [] {
      var front, r := batch[..|batch| - 1], batch[|batch| - 1];
      AnswersTell(front, ok);
      var a := Answers(front, ok);
      assert (a + [Reply(r, ok)])[..|a|] == a && a + [] == a;
    }
  }

  lemma {:induction false} AnswersAre(batch: seq<Request>, ok: bool)
    ensures forall a <- Answers(batch, ok) :: a.ok == ok
  {
    if batch != [] {
      AnswersAre(batch[..|batch| - 1], ok);
    }
  }

  /** The waiters' events of a batch are those of its waiting requests, numbered. */
  lemma {:induction false} WaitersAreNumbered(w: Wal, batch: seq<Request>)
    ensures NumberedLike(Waiters(batch, Written(w, batch)), Waiting(batch))
  {
    if batch != [] {
      var n := |batch| - 1;
      WaitersAreNumbered(w, batch[..n]);
      assert Written(w, batch)[..n] == Written(w, batch[..n]);
    }
  }

  /** Who was told nil finds its event, as numbered, among those acknowledged. */
  lemma {:induction false} ToldHas(replies: seq<Reply>, i: nat)
    requires i < |replies| && replies[i].ok
    ensures replies[i].request in Told(replies)
  {
    if i < |replies| - 1 {
      ToldHas(replies[..|replies| - 1], i);
    }
  }

  lemma ToldIsAcked(l: Loop, i: nat)
    requires AcksMatch(l) && i < |l.replies| && l.replies[i].ok
    ensures exists e :: e in l.wal.acked && e == l.replies[i].request.event.(seqNo := e.seqNo)
  {
    hide Told;
    ToldHas(l.replies, i);
    var k :| 0 <= k < |Told(l.replies)| && Told(l.replies)[k] == l.replies[i].request;
    assert l.wal.acked[k] in l.wal.acked;
  }

  lemma DoFlushKeepsInv(l: Loop, batch: seq<Request>, d: Disk)
    requires Inv(l.wal) && Ordered(l.wal) && AcksMatch(l) && LogMatches(l)
    requires AllSized(batch) && DiskFits(l, batch, d)
    ensures var r := DoFlush(l, batch, d);
            Inv(r.wal) && Ordered(r.wal) && AcksMatch(r) && LogMatches(r)
  {
    hide Inv, Ordered, WriteAll, FlushBatch, Answers, WellSized, Written, Log, Told, Waiting, Waiters;
    if batch != [] {
      var r := DoFlush(l, batch, d);
      assert BatchWellSized(batch);
      FlushBatchKeepsInv(l.wal, batch, d.spills, d.outcome);
      FlushBatchKeepsOrder(l.wal, batch, d.spills, d.outcome);
      FlushAcks(l.wal, batch, d);
      WrittenInOrder(l.wal, batch);
      assert LogMatches(r);
      ToldAppend(l.replies, Answers(batch, d.outcome.Confirmed?));
      AnswersTell(batch, d.outcome.Confirmed?);
      WaitersAreNumbered(l.wal, batch);
    }
  }

  lemma {:induction false} WrittenInOrder(w: Wal, batch: seq<Request>)
    ensures forall i :: 0 <= i < |batch| ==>
      Written(w, batch)[i] == batch[i].event.(seqNo := Written(w, batch)[i].seqNo)
  {
    if batch != [] {
      WrittenInOrder(w, batch[..|batch| - 1]);
    }
  }

  lemma FlushAcks(w: Wal, batch: seq<Request>, d: Disk)
    requires |d.spills| == |batch| && batch != [] && Possible(WriteAll(w, batch, d.spills), d.outcome)
    ensures FlushBatch(w, batch, d.spills, d.outcome).acked
         == w.acked + (if d.outcome.Confirmed? then Waiters(batch, Written(w, batch)) else [])
  {
    hide WriteAll, Written, Waiters, PassOn, FlushFile, SyncFile;
    WriteAllExtends(w, batch, d.spills);
  }

  /** Every step keeps order, conservation and the link between answers and disk. */
  lemma StepKeepsInv(l: Loop, s: Step)
    requires LoopInv(l) && Enabled(l, s)
    ensures LoopInv(Next(l, s))
  {
    hide LoopInv, Enabled, Next;
    match s {
      case Submit(q) => SubmitKeepsInv(l, q);
      case Receive(d) => ReceiveKeepsInv(l, d);
      case DrainFailed => DrainFailedKeepsInv(l);
      case _ => FlushStepKeepsInv(l, s);
    }
  }

  lemma SubmitKeepsInv(l: Loop, q: Request)
    requires LoopInv(l) && Enabled(l, Submit(q))
    ensures LoopInv(Next(l, Submit(q)))
  {
    hide Inv, Ordered, WellSized, Log;
    var r := Next(l, Submit(q));
    assert AcksMatch(r);
    assert r.submitted == l.submitted + [q];
  }

  /** The request at the head of the channel moves to the batch. */
  lemma GotKeepsInv(l: Loop)
    requires LoopInv(l) && l.ch != [] && !l.stopped
    ensures var got := l.(ch := l.ch[1..], batch := l.batch + [l.ch[0]]);
            Inv(got.wal) && Ordered(got.wal) && AcksMatch(got) && LogMatches(got) &&
            got.submitted == got.flushed + got.discarded + got.batch + got.ch &&
            AllSized(got.batch) && AllSized(got.ch)
  {
    hide Inv, Ordered, WellSized, Log;
    var got := l.(ch := l.ch[1..], batch := l.batch + [l.ch[0]]);
    assert AcksMatch(got);
    assert l.batch + l.ch == got.batch + got.ch;
    assert l.flushed + l.discarded + l.batch + l.ch == l.flushed + l.discarded + (l.batch + l.ch);
  }

  lemma ReceiveKeepsInv(l: Loop, d: Disk)
    requires LoopInv(l) && Enabled(l, Receive(d))
    ensures LoopInv(Next(l, Receive(d)))
  {
    hide Inv, Ordered, WriteAll, FlushBatch, Answers, WellSized, DiskFits, Log, AcksMatch, LogMatches;
    GotKeepsInv(l);
    var batch := l.batch + [l.ch[0]];
    var got := l.(ch := l.ch[1..], batch := batch);
    if |batch| >= l.flushMax {
      assert DiskFits(got, batch, d) by { FitsOnWal(l, got, batch, d); }
      DoFlushKeepsInv(got, batch, d);
      assert l.discarded == [];
    }
  }

  /** A tick, the stop signal or the last flush. */
  lemma FlushStepKeepsInv(l: Loop, s: Step)
    requires LoopInv(l) && Enabled(l, s) && (s.Tick? || s.BeginStop? || s.Stop?)
    ensures LoopInv(Next(l, s))
  {
    hide Inv, Ordered, WriteAll, FlushBatch, Answers, WellSized, DiskFits, Log;
    if s.BeginStop? {
      assert AcksMatch(Next(l, s)) && LogMatches(Next(l, s));
    } else {
      DoFlushKeepsInv(l, l.batch, s.disk);
      assert AcksMatch(Next(l, s)) && LogMatches(Next(l, s));
      assert l.discarded == [];
    }
  }

  lemma DrainFailedKeepsInv(l: Loop)
    requires LoopInv(l) && Enabled(l, DrainFailed)
    ensures LoopInv(Next(l, DrainFailed))
  {
    hide Inv, Ordered, Answers, WellSized, Log, Told, Waiting;
    ToldAppend(l.replies, Answers(l.ch, false));
    AnswersTell(l.ch, false);
    assert AcksMatch(Next(l, DrainFailed));
  }

  lemma FitsOnWal(l: Loop, m: Loop, batch: seq<Request>, d: Disk)
    requires l.wal == m.wal && DiskFits(l, batch, d)
    ensures DiskFits(m, batch, d)
  {
  }

  lemma StepAnswersOnce(l: Loop, s: Step)
    requires LoopInv(l) && AnsweredOnce(l) && Enabled(l, s)
    ensures AnsweredOnce(Next(l, s))
  {
    hide Inv, Ordered, WriteAll, FlushBatch, Answers, WellSized, DiskFits, Log, AcksMatch, LogMatches, Waiting, Answered;
    var r := Next(l, s);
    if r.replies != l.replies || r.flushed != l.flushed || r.discarded != l.discarded {
      if s == DrainFailed {
        assert r.flushed + r.discarded == l.flushed + l.discarded + l.ch;
        Dealt(l.flushed + l.discarded, l.ch, l.replies, false);
      } else {
        assert l.discarded == [];
        var batch := if s.Receive? then l.batch + [l.ch[0]] else l.batch;
        assert r.flushed + r.discarded == l.flushed + l.discarded + batch;
        Dealt(l.flushed + l.discarded, batch, l.replies, s.disk.outcome.Confirmed?);
      }
    }
  }

  /** The step's flush, if it makes one, is confirmed. */
  predicate Confirms(s: Step) {
    (s.Receive? || s.Tick? || s.Stop?) && s.disk.outcome.Confirmed?
  }

  /** Answers once sent stand, and each answer a step adds is nil if and only if the
      flush of the step was confirmed. */
  lemma StepTells(l: Loop, s: Step)
    requires Enabled(l, s)
    ensures var r := Next(l, s);
            l.replies <= r.replies &&
            forall i | |l.replies| <= i < |r.replies| :: r.replies[i].ok <==> Confirms(s)
  {
    hide WriteAll, FlushBatch, Answers, DiskFits;
    var r := Next(l, s);
    var batch := if s == DrainFailed then l.ch else if s.Receive? then l.batch + [l.ch[0]] else l.batch;
    AnswersAre(batch, Confirms(s));
    assert r.replies == l.replies || r.replies == l.replies + Answers(batch, Confirms(s));
    forall i | |l.replies| <= i < |r.replies| ensures r.replies[i].ok <==> Confirms(s) {
      assert r.replies[i] in Answers(batch, Confirms(s));
    }
  }

  lemma Dealt(before: seq<Request>, batch: seq<Request>, replies: seq<Reply>, ok: bool)
    requires Waiting(before) == Answered(replies)
    ensures Waiting(before + batch) == Answered(replies + Answers(batch, ok))
  {
    hide Answers, Waiting, Answered;
    WaitingAppend(before, batch);
    AnsweredAppend(replies, Answers(batch, ok));
    AnswersAreWaiters(batch, ok);
  }

  // ---------------------------------------------------------------------------
  // Runs
  // ---------------------------------------------------------------------------

  ghost predicate CanDo(l: Loop, steps: seq<Step>)
    decreases |steps|
  {
    steps == [] || (Enabled(l, steps[0]) && CanDo(Next(l, steps[0]), steps[1..]))
  }

  ghost function Do(l: Loop, steps: seq<Step>): Loop
    requires CanDo(l, steps)
    decreases |steps|
  {
    if steps == [] then l else Do(Next(l, steps[0]), steps[1..])
  }

  lemma {:induction false} DoKeepsInv(l: Loop, steps: seq<Step>)
    requires LoopInv(l) && AnsweredOnce(l) && CanDo(l, steps)
    ensures LoopInv(Do(l, steps)) && AnsweredOnce(Do(l, steps))
    decreases |steps|
  {
    hide LoopInv, AnsweredOnce, Next, Enabled;
    if steps != [] {
      StepKeepsInv(l, steps[0]);
      StepAnswersOnce(l, steps[0]);
      DoKeepsInv(Next(l, steps[0]), steps[1..]);
    }
  }

  /** For each answer of the run, whether the step that sent it flushed and was confirmed. */
  ghost function Verdicts(l: Loop, steps: seq<Step>): seq<bool>
    requires CanDo(l, steps)
    decreases |steps|
  {
    if steps == [] then []
    else
      var n := Next(l, steps[0]);
      (if |l.replies| <= |n.replies| then seq(|n.replies| - |l.replies|, _ => Confirms(steps[0])) else [])
      + Verdicts(n, steps[1..])
  }

  function Oks(replies: seq<Reply>): seq<bool> {
    seq(|replies|, i requires 0 <= i < |replies| => replies[i].ok)
  }

  /** Over a run, each answer is nil if and only if its flush was confirmed. */
  lemma {:induction false} RunTells(l: Loop, steps: seq<Step>)
    requires CanDo(l, steps)
    ensures Oks(Do(l, steps).replies) == Oks(l.replies) + Verdicts(l, steps)
    decreases |steps|
  {
    hide Enabled, Next, Confirms;
    if steps != [] {
      var n := Next(l, steps[0]);
      StepTells(l, steps[0]);
      RunTells(n, steps[1..]);
      assert Oks(n.replies) == Oks(l.replies) + seq(|n.replies| - |l.replies|, _ => Confirms(steps[0]));
    }
  }

  /** AppendSync's contract, for every interleaving of senders and the writer:
      requests are dealt with in submission order, each waiter dealt with is answered
      exactly once, nil if and only if its flush was confirmed, the waiters told nil are,
      one for one and in order, those whose events count as acknowledged, and each of them
      finds its event in the replay after a crash at any point (a power loss when the log
      is durable, a process crash always).  Fewer than flushMax requests are ever held
      back. */
  lemma AppendSyncContract(l: Loop, steps: seq<Step>, powerLoss: bool, left: seq<Bytes>)
    requires LoopInv(l) && AnsweredOnce(l) && CanDo(l, steps)
    requires Crash(Do(l, steps).wal, powerLoss, left) && (powerLoss ==> Do(l, steps).wal.durable)
    ensures var r := Do(l, steps);
            r.flushed + r.discarded <= r.submitted &&
            Waiting(r.flushed + r.discarded) == Answered(r.replies) &&
            NumberedLike(r.wal.acked, Told(r.replies)) &&
            Oks(r.replies) == Oks(l.replies) + Verdicts(l, steps) &&
            |r.ch| <= CHANNEL_CAPACITY && (|r.batch| < r.flushMax || r.batch == []) &&
            forall i :: 0 <= i < |r.replies| && r.replies[i].ok ==>
              exists e :: e in Replay(left) && e == r.replies[i].request.event.(seqNo := e.seqNo)
  {
    DoKeepsInv(l, steps);
    RunTells(l, steps);
    hide Inv, Crash, Replay, Log, Do, CanDo, LogMatches, Told, Waiting, Answered, AllSized, Verdicts, Oks;
    var r := Do(l, steps);
    CrashReplay(r.wal, powerLoss, left);
    forall i | 0 <= i < |r.replies| && r.replies[i].ok
      ensures exists e :: e in Replay(left) && e == r.replies[i].request.event.(seqNo := e.seqNo)
    {
      ToldIsAcked(r, i);
    }
  }

  /** The same for a crash while the writer is inside a flush of any batch: i records
      copied, k more bytes passed on, synced or not. */
  lemma AppendSyncContractInBatch(l: Loop, steps: seq<Step>, batch: seq<Request>, spills: seq<Spill>,
                                  i: nat, k: nat, synced: bool, powerLoss: bool, left: seq<Bytes>)
    requires LoopInv(l) && AnsweredOnce(l) && CanDo(l, steps)
    requires AllSized(batch) && |spills| == |batch| && i <= |batch|
    requires Crash(Partway(Do(l, steps).wal, batch, spills, i, k, synced), powerLoss, left)
    requires powerLoss ==> Do(l, steps).wal.durable
    ensures var r := Do(l, steps);
            forall j :: 0 <= j < |r.replies| && r.replies[j].ok ==>
              exists e :: e in Replay(left) && e == r.replies[j].request.event.(seqNo := e.seqNo)
  {
    DoKeepsInv(l, steps);
    hide Inv, Crash, Replay, Log, Do, CanDo, LogMatches, Partway, Written;
    var r := Do(l, steps);
    PartwayKeepsInv(r.wal, batch, spills, i, k, synced);
    CrashReplay(Partway(r.wal, batch, spills, i, k, synced), powerLoss, left);
    hide AcksMatch;
    forall j | 0 <= j < |r.replies| && r.replies[j].ok
      ensures exists e :: e in Replay(left) && e == r.replies[j].request.event.(seqNo := e.seqNo)
    {
      ToldIsAcked(r, j);
    }
  }

  // ---------------------------------------------------------------------------
  // The start
  // ---------------------------------------------------------------------------

  /** The loop when its goroutine starts. */
  function Started(w: Wal, flushMax: nat): Loop {
    Loop(w, |Log(w)|, flushMax, [], [], false, false, [], [], [], [])
  }

  /** A writer over a well-formed directory starts in a state to which all of the above
      applies. */
  lemma StartedKeeps(durable: bool, segmentMax: nat, closed: seq<Seg>, last: Seg, flushMax: nat)
    requires WellFormed(durable, closed, last)
    ensures var l := Started(Opened(durable, segmentMax, closed, last), flushMax); LoopInv(l) && AnsweredOnce(l)
  {
    hide Inv, Ordered, Log;
    OpenedKeeps(durable, segmentMax, closed, last);
  }
}
