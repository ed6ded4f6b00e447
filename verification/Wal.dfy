/** One queue's write-ahead log as values: segments, batches, flush, fsync,
    acknowledgement and rotation.  The failures the file system may report are
    parameters of each step. */
module WriteAheadLog {
  import opened Bytes
  import opened Record
  import opened Segment

  /** A segment file: bytes known to be on disk, bytes handed to the operating
      system, and bytes still in the process's write buffer. */
  datatype File = File(synced: Bytes, flushed: Bytes, buffered: Bytes)

  const EMPTY: File := File([], [], [])

  function OnDisk(f: File): Bytes { f.synced + f.flushed }

  function Total(f: File): Bytes { f.synced + f.flushed + f.buffered }

  /** A segment and the events that were written to it, in order. */
  datatype Seg = Seg(id: nat, file: File, events: seq<Event>)

  datatype Wal = Wal(
    durable: bool,          // fsync after each flush
    segmentMax: nat,        // rotate at this many bytes
    closed: seq<Seg>,       // earlier segments, in id order
    open: Seg,              // the segment being appended to
    seqNo: UInt64,
    segmentID: nat,
    fileSize: nat,
    stuck: bool,            // the buffered writer keeps its first write error
    failed: bool,           // permanent failure: the writer stops
    acked: seq<Event>,      // events whose AppendSync returned nil
    safe: nat               // how many events of the open segment a confirmed flush covered
  )

  /** An event as submitted; the writer assigns the sequence number. */
  datatype Request = Request(event: Event, waiting: bool)

  /** What the buffered writer does while a record is copied in: it may pass on n
      buffered bytes, and may hit a write error after them. */
  datatype Spill = Spill(n: nat, jam: bool)

  /** How a rotation ended.  Once the new log file is open it is the one in use, even
      if its index cannot be opened or the old files cannot be flushed and closed. */
  datatype Rotation = Rotated | IndexOpenFailed | OldCloseFailed | LogOpenFailed

  datatype Outcome =
    | FlushFailed(cut: nat, permanent: bool)   // cut bytes reached the file
    | SyncFailed(permanent: bool)
    | Confirmed(rotation: Rotation)

  // ---------------------------------------------------------------------------
  // File operations
  // ---------------------------------------------------------------------------

  function PassOn(f: File, n: nat): (g: File)
    ensures Total(g) == Total(f) && OnDisk(f) <= OnDisk(g) && g.synced == f.synced
  {
    var k := Min(n, |f.buffered|);
    assert f.buffered[..k] + f.buffered[k..] == f.buffered;
    File(f.synced, f.flushed + f.buffered[..k], f.buffered[k..])
  }

  function FlushFile(f: File): (g: File)
    ensures Total(g) == OnDisk(g) == Total(f) && g.synced == f.synced
  {
    File(f.synced, f.flushed + f.buffered, [])
  }

  function SyncFile(f: File): (g: File)
    ensures Total(g) == Total(f) && g.synced == OnDisk(f)
  {
    File(f.synced + f.flushed, [], f.buffered)
  }

  // ---------------------------------------------------------------------------
  // The writer's steps
  // ---------------------------------------------------------------------------

  /** The event as it is written: numbered by the writer. */
  function Numbered(w: Wal, event: Event, k: nat): Event {
    event.(seqNo := (w.seqNo + k) % TWO64)
  }

  function BufferRecord(f: File, e: Event, stuck: bool, spill: Spill): File {
    if stuck then f else PassOn(f.(buffered := f.buffered + Encode(e)), spill.n)
  }

  /** Copies one record into the write buffer. */
  function WriteRecord(w: Wal, event: Event, spill: Spill): Wal {
    var e := Numbered(w, event, 1);
    w.(open := Seg(w.open.id, BufferRecord(w.open.file, e, w.stuck, spill), w.open.events + [e]),
       seqNo := e.seqNo,
       fileSize := w.fileSize + Size(e),
       stuck := w.stuck || spill.jam)
  }

  function WriteAll(w: Wal, batch: seq<Request>, spills: seq<Spill>): Wal
    requires |spills| == |batch|
    decreases |batch|
  {
    if batch == [] then w
    else
      var n := |batch| - 1;
      WriteRecord(WriteAll(w, batch[..n], spills[..n]), batch[n].event, spills[n])
  }

  /** The events of a batch with the numbers the writer gives them. */
  function Written(w: Wal, batch: seq<Request>): (es: seq<Event>)
    ensures |es| == |batch|
  {
    if batch == [] then []
    else
      var n := |batch| - 1;
      Written(w, batch[..n]) + [Numbered(w, batch[n].event, n + 1)]
  }

  /** The events of the batch that have a waiter, as they were written. */
  function Waiters(batch: seq<Request>, written: seq<Event>): seq<Event>
    requires |batch| == |written|
  {
    if batch == [] then []
    else
      var n := |batch| - 1;
      Waiters(batch[..n], written[..n]) + (if batch[n].waiting then [written[n]] else [])
  }

  /** The new segment is opened before the old one is closed; if the open fails
      the counter has moved on and the old file stays in use. */
  function Rotate(w: Wal, rotation: Rotation): Wal {
    var next := w.(segmentID := w.segmentID + 1, fileSize := 0);
    if rotation.LogOpenFailed? then next
    else next.(closed := w.closed + [w.open], open := Seg(next.segmentID, EMPTY, []), safe := 0)
  }

  /** What the outcome of a flush may be: a stuck buffer can only fail. */
  predicate Possible(w: Wal, outcome: Outcome) {
    match outcome
    case FlushFailed(_, _) => true
    case SyncFailed(_) => !w.stuck && w.durable
    case Confirmed(_) => !w.stuck
  }

  function Settle(w: Wal, acks: seq<Event>, outcome: Outcome): Wal
    requires Possible(w, outcome)
  {
    var f := w.open.file;
    match outcome
    case FlushFailed(cut, permanent) =>
      w.(open := w.open.(file := PassOn(f, if w.stuck then 0 else cut)),
         stuck := true, failed := w.failed || permanent)
    case SyncFailed(permanent) =>
      w.(open := w.open.(file := FlushFile(f)), failed := w.failed || permanent)
    case Confirmed(rotation) =>
      var file := if w.durable then SyncFile(FlushFile(f)) else FlushFile(f);
      var done := w.(open := w.open.(file := file), acked := w.acked + acks, safe := |w.open.events|);
      if done.fileSize >= done.segmentMax then Rotate(done, rotation) else done
  }

  /** Writes a batch; one flush and one fsync cover all of it, and its waiters
      are told the outcome. */
  function FlushBatch(w: Wal, batch: seq<Request>, spills: seq<Spill>, outcome: Outcome): Wal
    requires |spills| == |batch| && Possible(WriteAll(w, batch, spills), outcome)
  {
    if batch == [] then w
    else Settle(WriteAll(w, batch, spills), Waiters(batch, Written(w, batch)), outcome)
  }

  /** Everything written to the log, in order. */
  function AllEvents(segs: seq<Seg>): seq<Event> {
    if segs == [] then [] else AllEvents(segs[..|segs| - 1]) + segs[|segs| - 1].events
  }

  function Log(w: Wal): seq<Event> {
    AllEvents(w.closed) + w.open.events
  }

  // ---------------------------------------------------------------------------
  // The invariant, kept by every batch whatever the file system reports
  // ---------------------------------------------------------------------------

  /** A closed segment holds its records in full. */
  ghost predicate Intact(durable: bool, s: Seg) {
    AllWellSized(s.events) && OnDisk(s.file) == EncodeAll(s.events) && s.file.buffered == [] &&
    (durable ==> s.file.flushed == [])
  }

  /** The open segment holds a prefix of its records' bytes, all of them unless stuck. */
  ghost predicate Growing(w: Wal) {
    AllWellSized(w.open.events) &&
    Total(w.open.file) <= EncodeAll(w.open.events) &&
    (!w.stuck ==> Total(w.open.file) == EncodeAll(w.open.events))
  }

  /** What a crash of the chosen severity certainly leaves of the open segment. */
  function Surviving(durable: bool, f: File): Bytes {
    if durable then f.synced else OnDisk(f)
  }

  ghost predicate SafeOnDisk(w: Wal) {
    w.safe <= |w.open.events| &&
    |EncodeAll(w.open.events[..w.safe])| <= |Surviving(w.durable, w.open.file)|
  }

  function SafeLog(w: Wal): seq<Event>
    requires w.safe <= |w.open.events|
  {
    AllEvents(w.closed) + w.open.events[..w.safe]
  }

  ghost predicate Inv(w: Wal) {
    (forall i :: 0 <= i < |w.closed| ==> Intact(w.durable, w.closed[i])) &&
    Growing(w) && SafeOnDisk(w) &&
    (forall e :: e in w.acked ==> e in SafeLog(w))
  }

  /** Segment ids increase, so that listing order is writing order. */
  ghost predicate Ordered(w: Wal) {
    (forall i, j :: 0 <= i < j < |w.closed| ==> w.closed[i].id < w.closed[j].id) &&
    (forall i :: 0 <= i < |w.closed| ==> w.closed[i].id < w.open.id) &&
    w.open.id <= w.segmentID
  }

  /** The writer's state over a directory: the last segment opened for append, numbering
      from the start again. */
  function Opened(durable: bool, segmentMax: nat, closed: seq<Seg>, last: Seg): Wal {
    Wal(durable, segmentMax, closed, last, 0, last.id, |OnDisk(last.file)|, false, false, [], |last.events|)
  }

  /** A directory whose segments hold whole records in ascending order. */
  ghost predicate WellFormed(durable: bool, closed: seq<Seg>, last: Seg) {
    (forall i :: 0 <= i < |closed| ==> Intact(durable, closed[i])) && Intact(durable, last) &&
    (forall i, j :: 0 <= i < j < |closed| ==> closed[i].id < closed[j].id) &&
    (forall i :: 0 <= i < |closed| ==> closed[i].id < last.id)
  }

  /** Opening a well-formed directory establishes everything the writer keeps. */
  lemma OpenedKeeps(durable: bool, segmentMax: nat, closed: seq<Seg>, last: Seg)
    requires WellFormed(durable, closed, last)
    ensures var w := Opened(durable, segmentMax, closed, last); Inv(w) && Ordered(w) && SizeTracks(w)
  {
    hide EncodeAll, WellSized;
    assert last.events[..|last.events|] == last.events;
    assert Total(last.file) == OnDisk(last.file);
    assert Surviving(durable, last.file) == OnDisk(last.file);
  }

  /** An empty directory is well formed: its first segment is number 0. */
  lemma EmptyDirectory(durable: bool)
    ensures WellFormed(durable, [], Seg(0, EMPTY, []))
  {
  }

  ghost predicate BatchWellSized(batch: seq<Request>) {
    forall i :: 0 <= i < |batch| ==> WellSized(batch[i].event)
  }

  lemma WriteRecordKeepsInv(w: Wal, event: Event, spill: Spill)
    requires Inv(w) && WellSized(event)
    ensures Inv(WriteRecord(w, event, spill))
  {
    hide Encode, Size, EncodeAll;
    var r := WriteRecord(w, event, spill);
    var e := Numbered(w, event, 1);
    EncodeAllSnoc(w.open.events, e);
    assert r.open.events[..w.safe] == w.open.events[..w.safe];
    assert forall i :: 0 <= i < |r.open.events| ==> WellSized(r.open.events[i]);
    assert SafeLog(r) == SafeLog(w);
    if !w.stuck {
      var g := w.open.file.(buffered := w.open.file.buffered + Encode(e));
      assert Total(g) == Total(w.open.file) + Encode(e);
    }
  }

  /** A batch only extends the open segment. */
  lemma {:induction false} WriteAllExtends(w: Wal, batch: seq<Request>, spills: seq<Spill>)
    requires |spills| == |batch|
    ensures var r := WriteAll(w, batch, spills);
            r.open.events == w.open.events + Written(w, batch) && r.open.id == w.open.id &&
            r.seqNo == (w.seqNo + |batch|) % TWO64 &&
            r == w.(open := r.open, seqNo := r.seqNo, fileSize := r.fileSize, stuck := r.stuck)
    decreases |batch|
  {
    hide Encode, Size, BufferRecord;
    if batch == [] {
      assert w.open.events + [] == w.open.events;
    } else {
      var n := |batch| - 1;
      WriteAllExtends(w, batch[..n], spills[..n]);
      var r := WriteAll(w, batch[..n], spills[..n]);
      SeqAdds(w.seqNo, n);
      assert Numbered(r, batch[n].event, 1) == Numbered(w, batch[n].event, n + 1);
      assert Written(w, batch) == Written(w, batch[..n]) + [Numbered(w, batch[n].event, n + 1)];
    }
  }

  lemma {:induction false} WriteAllKeepsInv(w: Wal, batch: seq<Request>, spills: seq<Spill>)
    requires Inv(w) && |spills| == |batch| && BatchWellSized(batch)
    ensures Inv(WriteAll(w, batch, spills))
    decreases |batch|
  {
    hide Inv, WriteRecord, WellSized;
    if batch != [] {
      var n := |batch| - 1;
      WriteAllKeepsInv(w, batch[..n], spills[..n]);
      WriteRecordKeepsInv(WriteAll(w, batch[..n], spills[..n]), batch[n].event, spills[n]);
    }
  }

  lemma SeqAdds(s: UInt64, n: nat)
    ensures ((s + n) % TWO64 + 1) % TWO64 == (s + n + 1) % TWO64
  {
  }

  lemma {:induction false} WaitersAreWritten(batch: seq<Request>, written: seq<Event>)
    requires |batch| == |written|
    ensures forall e :: e in Waiters(batch, written) ==> e in written
  {
    if batch != [] {
      WaitersAreWritten(batch[..|batch| - 1], written[..|batch| - 1]);
    }
  }

  lemma RotateKeepsInv(w: Wal, rotation: Rotation)
    requires Inv(w) && w.safe == |w.open.events| && Intact(w.durable, w.open)
    ensures Inv(Rotate(w, rotation))
    ensures Log(Rotate(w, rotation)) == Log(w)
  {
    hide EncodeAll, WellSized;
    if !rotation.LogOpenFailed? {
      var r := Rotate(w, rotation);
      assert r.closed[..|r.closed| - 1] == w.closed;
      assert w.open.events[..w.safe] == w.open.events;
      assert SafeLog(r) == SafeLog(w) == Log(w);
      EncodeNothing();
      assert r.open.events[..0] == [];
    }
  }

  lemma EncodeNothing()
    ensures EncodeAll([]) == []
  {
  }

  lemma SettleKeepsInv(w: Wal, acks: seq<Event>, outcome: Outcome)
    requires Inv(w) && Possible(w, outcome)
    requires forall e :: e in acks ==> e in w.open.events
    ensures Inv(Settle(w, acks, outcome))
    ensures Log(Settle(w, acks, outcome)) == Log(w)
  {
    hide EncodeAll, WellSized;
    var f := w.open.file;
    if outcome.Confirmed? {
      var file := if w.durable then SyncFile(FlushFile(f)) else FlushFile(f);
      var done := w.(open := w.open.(file := file), acked := w.acked + acks, safe := |w.open.events|);
      assert w.open.events[..done.safe] == w.open.events;
      assert Intact(w.durable, done.open);
      assert SafeLog(done) == AllEvents(w.closed) + w.open.events;
      assert Inv(done);
      RotateKeepsInv(done, outcome.rotation);
    } else {
      var r := Settle(w, acks, outcome);
      assert SafeLog(r) == SafeLog(w);
    }
  }

  /** Every batch, whatever is reported, keeps the invariant and extends the log
      by exactly the batch's events in order. */
  lemma FlushBatchKeepsInv(w: Wal, batch: seq<Request>, spills: seq<Spill>, outcome: Outcome)
    requires Inv(w) && |spills| == |batch| && BatchWellSized(batch)
    requires Possible(WriteAll(w, batch, spills), outcome)
    ensures Inv(FlushBatch(w, batch, spills, outcome))
    ensures Log(FlushBatch(w, batch, spills, outcome)) == Log(w) + Written(w, batch)
  {
    hide Inv, Settle, WriteAll, Written, Waiters;
    if batch != [] {
      var r := WriteAll(w, batch, spills);
      WriteAllKeepsInv(w, batch, spills);
      WriteAllExtends(w, batch, spills);
      WaitersAreWritten(batch, Written(w, batch));
      SettleKeepsInv(r, Waiters(batch, Written(w, batch)), outcome);
      assert Log(r) == Log(w) + Written(w, batch);
    } else {
      assert Log(w) + [] == Log(w);
    }
  }

  lemma FlushBatchKeepsOrder(w: Wal, batch: seq<Request>, spills: seq<Spill>, outcome: Outcome)
    requires Ordered(w) && |spills| == |batch|
    requires Possible(WriteAll(w, batch, spills), outcome)
    ensures Ordered(FlushBatch(w, batch, spills, outcome))
  {
    hide WriteAll, Written, Waiters, PassOn, FlushFile, SyncFile;
    WriteAllExtends(w, batch, spills);
  }

  // ---------------------------------------------------------------------------
  // Runs
  // ---------------------------------------------------------------------------

  datatype Flush = Flush(batch: seq<Request>, spills: seq<Spill>, outcome: Outcome)

  ghost predicate CanRun(w: Wal, run: seq<Flush>)
    decreases |run|
  {
    run == [] ||
    (var f := run[0];
     !w.failed && |f.spills| == |f.batch| && BatchWellSized(f.batch) &&
     Possible(WriteAll(w, f.batch, f.spills), f.outcome) &&
     CanRun(FlushBatch(w, f.batch, f.spills, f.outcome), run[1..]))
  }

  function Run(w: Wal, run: seq<Flush>): Wal
    requires CanRun(w, run)
    decreases |run|
  {
    if run == [] then w
    else Run(FlushBatch(w, run[0].batch, run[0].spills, run[0].outcome), run[1..])
  }

  lemma {:induction false} RunKeepsInv(w: Wal, run: seq<Flush>)
    requires Inv(w) && Ordered(w) && CanRun(w, run)
    ensures Inv(Run(w, run)) && Ordered(Run(w, run))
    ensures Log(w) <= Log(Run(w, run))
    decreases |run|
  {
    hide Inv, Ordered, FlushBatch, WriteAll, Log;
    if run != [] {
      FlushBatchKeepsInv(w, run[0].batch, run[0].spills, run[0].outcome);
      FlushBatchKeepsOrder(w, run[0].batch, run[0].spills, run[0].outcome);
      RunKeepsInv(FlushBatch(w, run[0].batch, run[0].spills, run[0].outcome), run[1..]);
    }
  }

  // ---------------------------------------------------------------------------
  // Crashes and replay
  // ---------------------------------------------------------------------------

  /** The bytes a crash may leave in one segment file. */
  ghost predicate MayLeave(f: File, powerLoss: bool, left: Bytes) {
    if powerLoss then f.synced <= left <= OnDisk(f) else left == OnDisk(f)
  }

  /** The bytes a crash may leave, segment by segment, the open one last.  A power
      loss keeps synced bytes and any prefix of the rest; a process crash keeps
      what the operating system has. */
  ghost predicate Crash(w: Wal, powerLoss: bool, left: seq<Bytes>) {
    |left| == |w.closed| + 1 &&
    (forall i :: 0 <= i < |w.closed| ==> MayLeave(w.closed[i].file, powerLoss, left[i])) &&
    MayLeave(w.open.file, powerLoss, left[|w.closed|])
  }

  /** Replaying the segments in id order: a segment that does not decode to its
      end is abandoned there, and the next one is read. */
  function Replay(left: seq<Bytes>): seq<Event> {
    if left == [] then [] else Replay(left[..|left| - 1]) + DecodeAll(left[|left| - 1])
  }

  lemma {:induction false} ClosedReplay(durable: bool, closed: seq<Seg>, powerLoss: bool, left: seq<Bytes>)
    requires |left| == |closed| && (powerLoss ==> durable)
    requires forall i :: 0 <= i < |closed| ==> Intact(durable, closed[i])
    requires forall i :: 0 <= i < |closed| ==> MayLeave(closed[i].file, powerLoss, left[i])
    ensures Replay(left) == AllEvents(closed)
  {
    hide EncodeAll, DecodeAll;
    if closed != [] {
      var n := |closed| - 1;
      ClosedReplay(durable, closed[..n], powerLoss, left[..n]);
      var s := closed[n];
      assert Intact(durable, s) && MayLeave(s.file, powerLoss, left[n]);
      assert left[n] == EncodeAll(s.events);
      SegmentRoundTrip(s.events);
    }
  }

  /** What a crash leaves of the open segment replays as a prefix of its events,
      covering the confirmed ones. */
  lemma OpenReplay(w: Wal, powerLoss: bool, left: Bytes)
    requires Growing(w) && SafeOnDisk(w) && (powerLoss ==> w.durable)
    requires MayLeave(w.open.file, powerLoss, left)
    ensures w.open.events[..w.safe] <= DecodeAll(left) <= w.open.events
  {
    hide EncodeAll, DecodeAll, WellSized;
    assert left <= Total(w.open.file);
    assert Surviving(w.durable, w.open.file) <= left;
    TornSegmentReplays(w.open.events, left, w.safe);
  }

  lemma CrashParts(w: Wal, powerLoss: bool, left: seq<Bytes>)
    requires Inv(w) && Crash(w, powerLoss, left)
    ensures |left| == |w.closed| + 1 && w.safe <= |w.open.events|
    ensures forall i :: 0 <= i < |w.closed| ==> Intact(w.durable, w.closed[i])
    ensures forall i :: 0 <= i < |w.closed| ==> MayLeave(w.closed[i].file, powerLoss, left[..|w.closed|][i])
    ensures Growing(w) && SafeOnDisk(w) && MayLeave(w.open.file, powerLoss, left[|w.closed|])
  {
  }

  /** Crash durability of one state: what is replayed is a prefix of the log, and
      that prefix covers everything a confirmed flush covered. */
  lemma CrashReplay(w: Wal, powerLoss: bool, left: seq<Bytes>)
    requires Inv(w) && Crash(w, powerLoss, left) && (powerLoss ==> w.durable)
    ensures SafeLog(w) <= Replay(left) <= Log(w)
    ensures forall e :: e in w.acked ==> e in Replay(left)
  {
    hide DecodeAll, Growing, SafeOnDisk, Intact, MayLeave, Crash, Inv, AllEvents;
    CrashParts(w, powerLoss, left);
    AckedIsSafe(w);
    var n := |w.closed|;
    ClosedReplay(w.durable, w.closed, powerLoss, left[..n]);
    OpenReplay(w, powerLoss, left[n]);
    ReplayLast(left);
    Extends(AllEvents(w.closed), w.open.events[..w.safe], DecodeAll(left[n]), w.open.events);
  }

  lemma ReplayLast(left: seq<Bytes>)
    requires left != []
    ensures Replay(left) == Replay(left[..|left| - 1]) + DecodeAll(left[|left| - 1])
  {
  }

  lemma AckedIsSafe(w: Wal)
    requires Inv(w)
    ensures w.safe <= |w.open.events| && forall e :: e in w.acked ==> e in SafeLog(w)
  {
  }

  lemma Extends(t: seq<Event>, a: seq<Event>, b: seq<Event>, c: seq<Event>)
    requires a <= b <= c
    ensures t + a <= t + b <= t + c
    ensures forall e :: e in t + a ==> e in t + b
  {
    assert b == a + b[|a|..];
  }

  /** The durability contract: along every run of the writer, with any failures
      reported and any bytes spilled early, after a crash at any point the replay
      is a prefix of what was written and contains every event whose AppendSync
      returned nil.  Power loss needs Durable; a process crash does not. */
  lemma AcknowledgedEventsSurvive(w: Wal, run: seq<Flush>, powerLoss: bool, left: seq<Bytes>)
    requires Inv(w) && Ordered(w) && CanRun(w, run)
    requires Crash(Run(w, run), powerLoss, left) && (powerLoss ==> Run(w, run).durable)
    ensures Replay(left) <= Log(Run(w, run))
    ensures forall e :: e in Run(w, run).acked ==> e in Replay(left)
  {
    RunKeepsInv(w, run);
    hide Inv, Crash, Replay, Log, Run;
    CrashReplay(Run(w, run), powerLoss, left);
  }

  // ---------------------------------------------------------------------------
  // Crashes in the middle of a batch
  // ---------------------------------------------------------------------------

  /** Some way into a batch: i records copied, k more bytes passed on, and the file
      synced or not; nobody has been answered. */
  function Partway(w: Wal, batch: seq<Request>, spills: seq<Spill>, i: nat, k: nat, synced: bool): Wal
    requires |spills| == |batch| && i <= |batch|
  {
    var u := WriteAll(w, batch[..i], spills[..i]);
    var f := PassOn(u.open.file, k);
    u.(open := u.open.(file := if synced then SyncFile(f) else f))
  }

  lemma MovedBytesKeepInv(w: Wal, k: nat, synced: bool)
    requires Inv(w)
    ensures var f := PassOn(w.open.file, k);
            Inv(w.(open := w.open.(file := if synced then SyncFile(f) else f)))
  {
    hide EncodeAll, WellSized, PassOn, SyncFile;
    var f := PassOn(w.open.file, k);
    var r := w.(open := w.open.(file := if synced then SyncFile(f) else f));
    assert SafeLog(r) == SafeLog(w);
    SurvivingGrows(w.durable, w.open.file, k, synced);
  }

  lemma SurvivingGrows(durable: bool, f: File, k: nat, synced: bool)
    ensures var g := PassOn(f, k);
            |Surviving(durable, f)| <= |Surviving(durable, if synced then SyncFile(g) else g)|
  {
  }

  lemma PartwayKeepsInv(w: Wal, batch: seq<Request>, spills: seq<Spill>, i: nat, k: nat, synced: bool)
    requires Inv(w) && |spills| == |batch| && BatchWellSized(batch) && i <= |batch|
    ensures var v := Partway(w, batch, spills, i, k, synced);
            Inv(v) && v.acked == w.acked && v.durable == w.durable && Log(v) == Log(w) + Written(w, batch[..i])
  {
    hide Inv, WriteAll, Written, PassOn, SyncFile, WellSized;
    WriteAllKeepsInv(w, batch[..i], spills[..i]);
    WriteAllExtends(w, batch[..i], spills[..i]);
    MovedBytesKeepInv(WriteAll(w, batch[..i], spills[..i]), k, synced);
  }

  /** The same contract for a crash in the middle of a batch, while records are copied,
      flushed or synced: the replay is a prefix of what was written including the
      records copied so far, and holds every event acknowledged before. */
  lemma AcknowledgedEventsSurviveInBatch(w: Wal, run: seq<Flush>, batch: seq<Request>, spills: seq<Spill>,
                                         i: nat, k: nat, synced: bool, powerLoss: bool, left: seq<Bytes>)
    requires Inv(w) && Ordered(w) && CanRun(w, run)
    requires |spills| == |batch| && BatchWellSized(batch) && i <= |batch|
    requires Crash(Partway(Run(w, run), batch, spills, i, k, synced), powerLoss, left)
    requires powerLoss ==> Run(w, run).durable
    ensures Replay(left) <= Log(Run(w, run)) + Written(Run(w, run), batch[..i])
    ensures forall e :: e in Run(w, run).acked ==> e in Replay(left)
  {
    hide Inv, Ordered, Crash, Replay, Log, Run, Partway, Written;
    RunKeepsInv(w, run);
    PartwayKeepsInv(Run(w, run), batch, spills, i, k, synced);
    CrashReplay(Partway(Run(w, run), batch, spills, i, k, synced), powerLoss, left);
  }

  // ---------------------------------------------------------------------------
  // Index entries
  // ---------------------------------------------------------------------------

  /** The size counter is the length of what was written to the open segment. */
  ghost predicate SizeTracks(w: Wal) {
    w.fileSize == |EncodeAll(w.open.events)|
  }

  lemma {:induction false} WriteAllTracksSize(w: Wal, batch: seq<Request>, spills: seq<Spill>)
    requires |spills| == |batch|
    ensures SizeTracks(WriteAll(w, batch, spills)) <==> SizeTracks(w)
    decreases |batch|
  {
    hide Encode, EncodeAll, Size, BufferRecord;
    if batch != [] {
      var n := |batch| - 1;
      var r := WriteAll(w, batch[..n], spills[..n]);
      WriteAllTracksSize(w, batch[..n], spills[..n]);
      var e := Numbered(r, batch[n].event, 1);
      EncodeAllSnoc(r.open.events, e);
      EncodeSize(e);
    }
  }

  /** True when a batch fills the segment and the next one cannot be opened. */
  predicate StaysFull(w: Wal, outcome: Outcome) {
    outcome == Confirmed(LogOpenFailed) && w.fileSize >= w.segmentMax
  }

  lemma SettleTracksSize(w: Wal, acks: seq<Event>, outcome: Outcome)
    requires Possible(w, outcome) && SizeTracks(w) && w.open.events != []
    ensures SizeTracks(Settle(w, acks, outcome)) <==> !StaysFull(w, outcome)
  {
    hide EncodeAll, PassOn, FlushFile, SyncFile;
    EncodeNothing();
    FirstIsNotEmpty(w.open.events);
  }

  /** The size counter keeps tracking the open segment through a batch exactly when
      the batch does not leave a full segment in use. */
  lemma FlushTracksSize(w: Wal, batch: seq<Request>, spills: seq<Spill>, outcome: Outcome)
    requires |spills| == |batch| && Possible(WriteAll(w, batch, spills), outcome) && SizeTracks(w)
    requires batch != []
    ensures SizeTracks(FlushBatch(w, batch, spills, outcome)) <==> !StaysFull(WriteAll(w, batch, spills), outcome)
  {
    hide SizeTracks, WriteAll, Written, Waiters, Settle;
    WriteAllTracksSize(w, batch, spills);
    WriteAllExtends(w, batch, spills);
    SettleTracksSize(WriteAll(w, batch, spills), Waiters(batch, Written(w, batch)), outcome);
  }

  lemma FirstIsNotEmpty(es: seq<Event>)
    requires es != []
    ensures EncodeAll(es) != []
  {
    EncodeSize(es[0]);
  }

  /** An index entry names the offset at which its record decodes, whatever is
      written after it. */
  lemma IndexEntryDecodes(w: Wal, event: Event, later: seq<Event>)
    requires AllWellSized(w.open.events + [event] + later) && SizeTracks(w)
    ensures var e := Numbered(w, event, 1);
            var es := w.open.events + [e] + later;
            w.fileSize <= |EncodeAll(es)| &&
            Decode(EncodeAll(es)[w.fileSize..]) == Record(e, |Encode(e)|)
  {
    hide Encode, Decode, EncodeAll, WellSized;
    var e := Numbered(w, event, 1);
    var es, given := w.open.events + [e] + later, w.open.events + [event] + later;
    NumberKeepsSize(w, event);
    forall i | 0 <= i < |es| ensures WellSized(es[i]) {
      assert WellSized(given[i]);
    }
    IndexOffset(es, |w.open.events|);
    assert es[..|w.open.events|] == w.open.events;
  }

  lemma NumberKeepsSize(w: Wal, event: Event)
    ensures WellSized(Numbered(w, event, 1)) <==> WellSized(event)
  {
  }
}
