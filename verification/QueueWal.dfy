/** The writer object of one queue's log.  Its methods work on the fields step by
    step; each is proved to do what the value-level step of module WriteAheadLog does. */
module QueueWal {
  import opened Bytes
  import opened Record
  import opened Segment
  import opened WriteAheadLog
  import opened WriterLoop
  import RecordWriter

  /** The answers that go out, in the order of the batch. */
  function Sent(batch: seq<Request>, replies: seq<Option<bool>>): seq<Reply>
    requires |replies| == |batch|
  {
    if batch == [] then []
    else
      var n := |batch| - 1;
      Sent(batch[..n], replies[..n]) + (if replies[n].Some? then [Reply(batch[n], replies[n].value)] else [])
  }

  /** They are the answers the writer's loop counts on. */
  lemma {:induction false} SentIsAnswers(batch: seq<Request>, replies: seq<Option<bool>>, ok: bool)
    requires |replies| == |batch|
    requires forall i :: 0 <= i < |batch| ==> replies[i] == if batch[i].waiting then Some(ok) else None
    ensures Sent(batch, replies) == Answers(batch, ok)
  {
    if batch != [] {
      var n := |batch| - 1;
      SentIsAnswers(batch[..n], replies[..n], ok);
    }
  }

  lemma BatchStart(w: Wal, batch: seq<Request>, spills: seq<Spill>)
    requires |spills| == |batch|
    ensures WriteAll(w, batch[..0], spills[..0]) == w && Written(w, batch[..0]) == []
  {
  }

  lemma BatchStep(w: Wal, batch: seq<Request>, spills: seq<Spill>, i: nat)
    requires |spills| == |batch| && i < |batch|
    ensures var r := WriteAll(w, batch[..i], spills[..i]);
            WriteAll(w, batch[..i + 1], spills[..i + 1]) == WriteRecord(r, batch[i].event, spills[i]) &&
            Written(w, batch[..i + 1]) == Written(w, batch[..i]) + [Numbered(r, batch[i].event, 1)]
  {
    hide WriteRecord;
    assert batch[..i + 1][..i] == batch[..i] && spills[..i + 1][..i] == spills[..i];
    WriteAllExtends(w, batch[..i], spills[..i]);
    SeqAdds(w.seqNo, i);
  }

  class QueueWAL {
    const durable: bool
    const segmentMax: nat

    var closed: seq<Seg>     // earlier segments in the directory
    var open: Seg            // the segment the file handle and write buffer belong to
    var seqNo: UInt64
    var segmentID: nat
    var fileSize: nat
    var stuck: bool
    var failed: bool
    ghost var acked: seq<Event>
    ghost var safe: nat

    /** The value this object stands for. */
    ghost function Abs(): Wal
      reads this
    {
      Wal(durable, segmentMax, closed, open, seqNo, segmentID, fileSize, stuck, failed, acked, safe)
    }

    /** Opens the last segment for append and numbers events from the start again. */
    constructor (durable: bool, segmentMax: nat, closed: seq<Seg>, last: Seg)
      ensures Abs() == Opened(durable, segmentMax, closed, last)
      ensures WellFormed(durable, closed, last) ==> Inv(Abs()) && Ordered(Abs()) && SizeTracks(Abs())
    {
      this.durable, this.segmentMax := durable, segmentMax;
      this.closed, open := closed, last;
      seqNo, segmentID, fileSize := 0, last.id, |OnDisk(last.file)|;
      stuck, failed := false, false;
      acked, safe := [], |last.events|;
      new;
      hide Inv, Ordered, SizeTracks, WellFormed;
      if WellFormed(durable, closed, last) {
        OpenedKeeps(durable, segmentMax, closed, last);
      }
    }

    /** Encodes event e into the buffered log; returns the bytes written and the
        index entry (sequence number, file position). */
    method WriteRecord(event: Event, spill: Spill) returns (n: nat, e: Event, entry: (UInt64, nat))
      modifies this`open, this`stuck, this`seqNo, this`fileSize
      ensures Abs() == WriteAheadLog.WriteRecord(old(Abs()), event, spill)
      ensures e == Numbered(old(Abs()), event, 1) && n == |Encode(e)|
      ensures entry == (e.seqNo, old(fileSize))
    {
      hide Encode;
      seqNo := (seqNo + 1) % TWO64;
      e := event.(seqNo := seqNo);
      entry := (e.seqNo, fileSize);
      n := 21 + 2 + |e.namespace| + 2 + |e.queue| + 2 + |e.group| + 2 + |e.msgID| + 4 + |e.payload| + 4;
      var bytes := RecordWriter.EncodeRecord(e);
      EncodeSize(e);
      var file := open.file;
      if !stuck {
        var buf := file.buffered + bytes;
        var k := Min(spill.n, |buf|);
        file := File(file.synced, file.flushed + buf[..k], buf[k..]);
      }
      open := Seg(open.id, file, open.events + [e]);
      stuck := stuck || spill.jam;
      fileSize := fileSize + n;
    }

    /** Opens the next segment; on failure only the counters have changed. */
    method RotateSegment(rotation: Rotation)
      modifies this`closed, this`open, this`segmentID, this`fileSize, this`safe
      ensures Abs() == Rotate(old(Abs()), rotation)
    {
      segmentID := segmentID + 1;
      fileSize := 0;
      if !rotation.LogOpenFailed? {
        closed := closed + [open];
        open := Seg(segmentID, EMPTY, []);
        safe := 0;
      }
    }

    /** Writes a batch, flushes, syncs, answers the waiters and rotates. Every waiter
        gets exactly one reply, the outcome of this flush. */
    method FlushBatch(batch: seq<Request>, spills: seq<Spill>, outcome: Outcome)
      returns (replies: seq<Option<bool>>)
      requires |spills| == |batch| && Possible(WriteAll(Abs(), batch, spills), outcome)
      modifies this
      ensures Abs() == WriteAheadLog.FlushBatch(old(Abs()), batch, spills, outcome)
      ensures |replies| == |batch|
      ensures forall i :: 0 <= i < |batch| ==>
        replies[i] == if batch[i].waiting then Some(outcome.Confirmed?) else None
      ensures Sent(batch, replies) == Answers(batch, outcome.Confirmed?)
    {
      hide WriteAll, Written, Answers, Sent;
      replies := [];
      if |batch| == 0 {
        SentIsAnswers(batch, replies, outcome.Confirmed?);
        return;
      }
      var written := WriteBatch(batch, spills);
      Finish(outcome, Waiters(batch, written));
      replies := SignalDone(batch, outcome.Confirmed?);
      SentIsAnswers(batch, replies, outcome.Confirmed?);
    }

    /** Flush, fsync when durable, and rotation when the segment is full. */
    method Finish(outcome: Outcome, ghost acks: seq<Event>)
      requires Possible(Abs(), outcome)
      modifies this
      ensures Abs() == Settle(old(Abs()), acks, outcome)
    {
      var f := open.file;
      match outcome {
        case FlushFailed(cut, permanent) =>
          var k := if stuck then 0 else Min(cut, |f.buffered|);
          open := open.(file := File(f.synced, f.flushed + f.buffered[..k], f.buffered[k..]));
          stuck, failed := true, failed || permanent;
        case SyncFailed(permanent) =>
          open := open.(file := File(f.synced, f.flushed + f.buffered, []));
          failed := failed || permanent;
        case Confirmed(rotation) =>
          f := File(f.synced, f.flushed + f.buffered, []);
          if durable {
            f := File(f.synced + f.flushed, [], f.buffered);
          }
          open := open.(file := f);
          acked := acked + acks;
          safe := |open.events|;
          if fileSize >= segmentMax {
            RotateSegment(rotation);
          }
      }
    }

    method WriteBatch(batch: seq<Request>, spills: seq<Spill>) returns (written: seq<Event>)
      requires |spills| == |batch|
      modifies this`open, this`stuck, this`seqNo, this`fileSize
      ensures Abs() == WriteAll(old(Abs()), batch, spills)
      ensures written == Written(old(Abs()), batch)
    {
      hide WriteAheadLog.WriteRecord, WriteAll, Written, Numbered;
      written := [];
      BatchStart(old(Abs()), batch, spills);
      for i := 0 to |batch|
        invariant Abs() == WriteAll(old(Abs()), batch[..i], spills[..i])
        invariant written == Written(old(Abs()), batch[..i])
      {
        BatchStep(old(Abs()), batch, spills, i);
        var n, e, entry := WriteRecord(batch[i].event, spills[i]);
        written := written + [e];
      }
      assert batch[..|batch|] == batch && spills[..|batch|] == spills;
    }

    /** Tells every waiter of the batch the outcome. */
    method SignalDone(batch: seq<Request>, ok: bool) returns (replies: seq<Option<bool>>)
      ensures |replies| == |batch|
      ensures forall i :: 0 <= i < |batch| ==>
        replies[i] == if batch[i].waiting then Some(ok) else None
    {
      replies := [];
      for i := 0 to |batch|
        invariant |replies| == i
        invariant forall j :: 0 <= j < i ==>
          replies[j] == if batch[j].waiting then Some(ok) else None
      {
        replies := replies + [if batch[i].waiting then Some(ok) else None];
      }
    }
  }
}
