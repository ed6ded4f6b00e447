/** The (sequence number, segment) pair a snapshot records, against rotation,
    pruning and replay from that point. */
module SnapshotCut {
  import opened Bytes
  import opened Record
  import opened Segment
  import opened WriteAheadLog

  function Segs(w: Wal): seq<Seg> {
    w.closed + [w.open]
  }

  /** The events that replay does not skip: sequence number at least S + 1. */
  function After(es: seq<Event>, S: nat): seq<Event> {
    if es == [] then []
    else After(es[..|es| - 1], S) + (if es[|es| - 1].seqNo < S + 1 then [] else [es[|es| - 1]])
  }

  /** What replay from a snapshot (S, G) reads: segments from G on, events after S. */
  function Tail(segs: seq<Seg>, G: nat, S: nat): seq<Event> {
    if segs == [] then []
    else
      var s := segs[|segs| - 1];
      Tail(segs[..|segs| - 1], G, S) + (if s.id < G then [] else After(s.events, S))
  }

  /** removeOldSegments: keeps the segment before the snapshot's as a margin. */
  function Prune(segs: seq<Seg>, G: nat): seq<Seg> {
    var keepFrom := if G > 1 then G - 1 else 0;
    DropBelow(segs, keepFrom)
  }

  function DropBelow(segs: seq<Seg>, from: nat): seq<Seg> {
    if segs == [] then []
    else
      var s := segs[|segs| - 1];
      DropBelow(segs[..|segs| - 1], from) + (if s.id >= from then [s] else [])
  }

  /** The file being appended to is the one the segment counter names. */
  predicate Aligned(w: Wal) {
    w.open.id == w.segmentID
  }

  // ---------------------------------------------------------------------------
  // Lists
  // ---------------------------------------------------------------------------

  lemma {:induction false} AfterAppend(a: seq<Event>, b: seq<Event>, S: nat)
    ensures After(a + b, S) == After(a, S) + After(b, S)
  {
    if b == [] {
      assert a + b == a;
    } else {
      assert (a + b)[..|a + b| - 1] == a + b[..|b| - 1];
      AfterAppend(a, b[..|b| - 1], S);
    }
  }

  lemma {:induction false} AfterPrefix(a: seq<Event>, b: seq<Event>, S: nat)
    requires a <= b
    ensures After(a, S) <= After(b, S)
  {
    assert b == a + b[|a|..];
    AfterAppend(a, b[|a|..], S);
  }

  lemma TailSnoc(segs: seq<Seg>, s: Seg, G: nat, S: nat)
    ensures Tail(segs + [s], G, S) == Tail(segs, G, S) + (if s.id < G then [] else After(s.events, S))
  {
    assert (segs + [s])[..|segs|] == segs;
  }

  lemma {:induction false} DropIsInvisible(segs: seq<Seg>, from: nat, G: nat, S: nat)
    requires from <= G
    ensures Tail(DropBelow(segs, from), G, S) == Tail(segs, G, S)
  {
    hide After, Tail;
    if segs == [] {
      assert DropBelow(segs, from) == segs;
    } else {
      var front, s := segs[..|segs| - 1], segs[|segs| - 1];
      assert segs == front + [s];
      DropIsInvisible(front, from, G, S);
      TailSnoc(front, s, G, S);
      if s.id < from {
        assert DropBelow(segs, from) == DropBelow(front, from);
      } else {
        TailSnoc(DropBelow(front, from), s, G, S);
      }
    }
  }

  /** Segments below the snapshot's contribute nothing, so pruning is invisible. */
  lemma PruneIsInvisible(segs: seq<Seg>, g: nat, G: nat, S: nat)
    requires g <= G
    ensures Tail(Prune(segs, g), G, S) == Tail(segs, G, S)
  {
    DropIsInvisible(segs, if g > 1 then g - 1 else 0, G, S);
  }

  // ---------------------------------------------------------------------------
  // The cut along a run
  // ---------------------------------------------------------------------------

  /** What one batch does to the segments: it extends the open one, and may then
      close it behind a new, empty one with a larger id. */
  lemma FlushSegs(w: Wal, f: Flush)
    requires |f.spills| == |f.batch| && Possible(WriteAll(w, f.batch, f.spills), f.outcome)
    ensures var r := FlushBatch(w, f.batch, f.spills, f.outcome);
            r.seqNo == (w.seqNo + |f.batch|) % TWO64 &&
            ((r.closed == w.closed && r.open.id == w.open.id && r.open.events == w.open.events + Written(w, f.batch)) ||
             (exists s: Seg ::
                r.closed == w.closed + [s] && s.id == w.open.id && s.events == w.open.events + Written(w, f.batch) &&
                r.open.events == [] && r.open.id == w.segmentID + 1))
  {
    hide WriteAll, Written, Waiters, Settle;
    WriteAllExtends(w, f.batch, f.spills);
    if f.batch == [] {
      WrittenNothing(w);
      assert w.open.events + Written(w, f.batch) == w.open.events;
    } else {
      SettleSegs(WriteAll(w, f.batch, f.spills), Waiters(f.batch, Written(w, f.batch)), f.outcome);
    }
  }

  lemma SettleSegs(u: Wal, acks: seq<Event>, outcome: Outcome)
    requires Possible(u, outcome)
    ensures var r := Settle(u, acks, outcome);
            r.seqNo == u.seqNo &&
            ((r.closed == u.closed && r.open.id == u.open.id && r.open.events == u.open.events) ||
             (exists s: Seg ::
                r.closed == u.closed + [s] && s.id == u.open.id && s.events == u.open.events &&
                r.open.events == [] && r.open.id == u.segmentID + 1))
  {
    hide PassOn, FlushFile, SyncFile;
    var r := Settle(u, acks, outcome);
    if r.closed != u.closed {
      assert r.closed == u.closed + [r.closed[|u.closed|]];
    }
  }

  lemma WrittenNothing(w: Wal)
    ensures Written(w, []) == []
  {
  }

  lemma FlushExtendsTail(w: Wal, f: Flush, G: nat, S: nat)
    requires |f.spills| == |f.batch| && Possible(WriteAll(w, f.batch, f.spills), f.outcome)
    requires G <= w.open.id <= w.segmentID
    ensures var r := FlushBatch(w, f.batch, f.spills, f.outcome);
            G <= r.open.id && Tail(Segs(r), G, S) == Tail(Segs(w), G, S) + After(Written(w, f.batch), S)
  {
    hide WriteAll, Written, FlushBatch, Tail, After;
    var r, more := FlushBatch(w, f.batch, f.spills, f.outcome), Written(w, f.batch);
    FlushSegs(w, f);
    AfterAppend(w.open.events, more, S);
    TailSnoc(w.closed, w.open, G, S);
    TailSnoc(r.closed, r.open, G, S);
    if r.closed != w.closed {
      var s :| r.closed == w.closed + [s] && s.id == w.open.id && s.events == w.open.events + more;
      TailSnoc(w.closed, s, G, S);
      AfterNothing(S);
    }
  }

  lemma AfterNothing(S: nat)
    ensures After([], S) == []
  {
  }

  function Submitted(run: seq<Flush>): nat {
    if run == [] then 0 else |run[0].batch| + Submitted(run[1..])
  }

  /** Along any run the tail past (S, G) grows by the events written with numbers above S. */
  lemma {:induction false} RunExtendsTail(w: Wal, run: seq<Flush>, G: nat, S: nat)
    requires Inv(w) && Ordered(w) && CanRun(w, run) && G <= w.open.id
    ensures var r := Run(w, run);
            Log(w) <= Log(r) && G <= r.open.id &&
            Tail(Segs(r), G, S) == Tail(Segs(w), G, S) + After(Log(r)[|Log(w)|..], S)
    decreases |run|
  {
    hide Inv, WriteAll, FlushBatch, Tail, Log, After, Written;
    if run == [] {
      AfterNothing(S);
      assert Log(w)[|Log(w)|..] == [];
    } else {
      var f := run[0];
      var v := FlushBatch(w, f.batch, f.spills, f.outcome);
      FlushExtendsTail(w, f, G, S);
      FlushBatchKeepsInv(w, f.batch, f.spills, f.outcome);
      FlushBatchKeepsOrder(w, f.batch, f.spills, f.outcome);
      RunExtendsTail(v, run[1..], G, S);
      var r := Run(w, run);
      assert Log(r)[|Log(w)|..] == Written(w, f.batch) + Log(r)[|Log(v)|..];
      AfterAppend(Written(w, f.batch), Log(r)[|Log(v)|..], S);
    }
  }

  /** Numbered one after the other, from s + 1 on. */
  predicate NumberedFrom(es: seq<Event>, s: nat) {
    forall i :: 0 <= i < |es| ==> es[i].seqNo == s + i + 1
  }

  lemma NumberedTogether(a: seq<Event>, b: seq<Event>, s: nat)
    requires NumberedFrom(a, s) && NumberedFrom(b, s + |a|)
    ensures NumberedFrom(a + b, s)
  {
  }

  lemma {:induction false} BatchNumbers(w: Wal, batch: seq<Request>)
    requires w.seqNo + |batch| < TWO64
    ensures NumberedFrom(Written(w, batch), w.seqNo)
  {
    if batch != [] {
      BatchNumbers(w, batch[..|batch| - 1]);
    }
  }

  /** A run numbers its events one after the other. */
  lemma {:induction false} RunNumbers(w: Wal, run: seq<Flush>)
    requires Inv(w) && Ordered(w) && CanRun(w, run) && w.seqNo + Submitted(run) < TWO64
    ensures var r := Run(w, run);
            Log(w) <= Log(r) && |Log(r)| == |Log(w)| + Submitted(run) &&
            NumberedFrom(Log(r)[|Log(w)|..], w.seqNo)
    decreases |run|
  {
    hide Inv, WriteAll, FlushBatch, Log, Written, Ordered, NumberedFrom;
    if run == [] {
      assert NumberedFrom([], w.seqNo) by { NothingNumbered(w.seqNo); }
      assert Log(w)[|Log(w)|..] == [];
    } else {
      var f := run[0];
      var v := FlushBatch(w, f.batch, f.spills, f.outcome);
      FlushBatchKeepsInv(w, f.batch, f.spills, f.outcome);
      FlushBatchKeepsOrder(w, f.batch, f.spills, f.outcome);
      FlushNumbers(w, f);
      BatchNumbers(w, f.batch);
      RunNumbers(v, run[1..]);
      var r := Run(w, run);
      NumberedTogether(Written(w, f.batch), Log(r)[|Log(v)|..], w.seqNo);
      assert Log(r)[|Log(w)|..] == Written(w, f.batch) + Log(r)[|Log(v)|..];
    }
  }

  lemma NothingNumbered(s: nat)
    ensures NumberedFrom([], s)
  {
  }

  /** Of consecutive numbers from s + 1 on, those up to S are left out. */
  lemma {:induction false} AfterNumbered(es: seq<Event>, s: nat, S: nat)
    requires NumberedFrom(es, s)
    ensures After(es, S) == es[LeftOut(s, S, |es|)..]
  {
    if es != [] {
      var n := |es| - 1;
      var front, last := es[..n], es[n];
      AfterNumbered(front, s, S);
      hide NumberedFrom;
      var k := LeftOut(s, S, n);
      if last.seqNo <= S {
        assert k == n && front[n..] == [] && es[n + 1..] == [];
      } else {
        assert LeftOut(s, S, n + 1) == k && es[k..] == front[k..] + [last];
      }
    }
  }

  /** How many of n events numbered from s + 1 on replay skips for a snapshot at S. */
  function LeftOut(s: nat, S: nat, n: nat): (k: nat)
    ensures k <= n
  {
    if S <= s then 0 else Min(S - s, n)
  }

  /** What is read past any cut (S, G) not ahead of the open file, whichever writer took
      it: the tail as it was, and of the events written since all but the first S minus
      the writer's number. */
  lemma CutAcrossWriters(w: Wal, run: seq<Flush>, G: nat, S: nat)
    requires Inv(w) && Ordered(w) && CanRun(w, run) && G <= w.open.id && w.seqNo + Submitted(run) < TWO64
    ensures var r := Run(w, run);
            && Log(w) <= Log(r) && |Log(r)| == |Log(w)| + Submitted(run)
            && var more := Log(r)[|Log(w)|..];
            && Tail(Segs(r), G, S) == Tail(Segs(w), G, S) + more[LeftOut(w.seqNo, S, |more|)..]
            && (Tail(Segs(r), G, S) == Tail(Segs(w), G, S) + more <==> S <= w.seqNo || more == [])
  {
    hide Inv, Ordered, Log, Run, Tail, After, CanRun, NumberedFrom;
    RunExtendsTail(w, run, G, S);
    RunNumbers(w, run);
    var more := Log(Run(w, run))[|Log(w)|..];
    AfterNumbered(more, w.seqNo, S);
    SomeCut(Tail(Segs(w), G, S), more, LeftOut(w.seqNo, S, |more|));
  }

  lemma SomeCut(t: seq<Event>, more: seq<Event>, k: nat)
    requires k <= |more|
    ensures t + more[k..] == t + more <==> k == 0
  {
    assert |t + more[k..]| == |t + more| - k;
    assert more[0..] == more;
  }

  /** Records of an earlier writer that are still in the open segment with numbers
      above the snapshot's (numbering restarts when the log is reopened). */
  function Stale(w: Wal): seq<Event> {
    After(w.open.events, w.seqNo)
  }

  lemma {:induction false} BelowContributesNothing(segs: seq<Seg>, G: nat, S: nat)
    requires forall i :: 0 <= i < |segs| ==> segs[i].id < G
    ensures Tail(segs, G, S) == []
  {
    if segs != [] {
      BelowContributesNothing(segs[..|segs| - 1], G, S);
    }
  }

  // ---------------------------------------------------------------------------
  // Without alignment
  // ---------------------------------------------------------------------------

  /** A batch leaves the open file and the segment counter in step exactly when they
      were and it does not try to rotate, or when its rotation opens the new file. */
  lemma FlushAligns(w: Wal, f: Flush)
    requires |f.spills| == |f.batch| && Possible(WriteAll(w, f.batch, f.spills), f.outcome) && f.batch != []
    requires w.open.id <= w.segmentID
    ensures var full := f.outcome.Confirmed? && WriteAll(w, f.batch, f.spills).fileSize >= w.segmentMax;
            Aligned(FlushBatch(w, f.batch, f.spills, f.outcome))
            <==> if full then !f.outcome.rotation.LogOpenFailed? else Aligned(w)
  {
    hide WriteAll, Written, Waiters, PassOn, FlushFile, SyncFile;
    WriteAllExtends(w, f.batch, f.spills);
  }

  /** Nothing of the cut's segments has been written yet. */
  ghost predicate Unread(w: Wal, G: nat) {
    w.open.id < G <= w.segmentID && forall i :: 0 <= i < |w.closed| ==> w.closed[i].id < G
  }

  /** One batch while the open file is older than the cut: it stays unread, and either
      the file stays open or a new one, past the cut, is empty. */
  lemma UnreadFlush(w: Wal, f: Flush, G: nat, S: nat)
    requires |f.spills| == |f.batch| && Possible(WriteAll(w, f.batch, f.spills), f.outcome)
    requires Unread(w, G)
    ensures var r := FlushBatch(w, f.batch, f.spills, f.outcome);
            Tail(Segs(r), G, S) == [] && (r.open.id < G ==> Unread(r, G))
  {
    hide WriteAll, Written, FlushBatch, Tail, After;
    var r := FlushBatch(w, f.batch, f.spills, f.outcome);
    FlushSegs(w, f);
    FlushKeepsCounter(w, f);
    if r.open.id < G {
      BelowContributesNothing(Segs(r), G, S);
    } else {
      BelowContributesNothing(r.closed, G, S);
      TailSnoc(r.closed, r.open, G, S);
      AfterNothing(S);
    }
  }

  lemma FlushKeepsCounter(w: Wal, f: Flush)
    requires |f.spills| == |f.batch| && Possible(WriteAll(w, f.batch, f.spills), f.outcome)
    ensures w.segmentID <= FlushBatch(w, f.batch, f.spills, f.outcome).segmentID
  {
    hide WriteAll, Written, Waiters, PassOn, FlushFile, SyncFile;
    WriteAllExtends(w, f.batch, f.spills);
  }

  /** How many of the run's events go to files older than G. */
  function Missed(w: Wal, run: seq<Flush>, G: nat): (n: nat)
    requires CanRun(w, run)
    ensures n <= Submitted(run)
    decreases |run|
  {
    if run == [] || G <= w.open.id then 0
    else |run[0].batch| + Missed(FlushBatch(w, run[0].batch, run[0].spills, run[0].outcome), run[1..], G)
  }

  /** Along a run that starts with the open file older than the cut, what is read is what
      was written once a file of the cut was open. */
  lemma {:induction false} UnreadReads(w: Wal, run: seq<Flush>, G: nat, S: nat)
    requires Inv(w) && Ordered(w) && CanRun(w, run) && Unread(w, G)
    requires S <= w.seqNo && w.seqNo + Submitted(run) < TWO64
    ensures var r := Run(w, run);
            Log(w) <= Log(r) && |Log(r)| == |Log(w)| + Submitted(run) &&
            Tail(Segs(r), G, S) == Log(r)[|Log(w)| + Missed(w, run, G)..]
    decreases |run|
  {
    hide Inv, WriteAll, FlushBatch, Tail, Log, After, Unread, Ordered, Written;
    UnreadOpen(w, G);
    if run == [] {
      UnreadTail(w, G, S);
    } else {
      var f := run[0];
      var v := FlushBatch(w, f.batch, f.spills, f.outcome);
      FlushBatchKeepsInv(w, f.batch, f.spills, f.outcome);
      FlushBatchKeepsOrder(w, f.batch, f.spills, f.outcome);
      UnreadFlush(w, f, G, S);
      FlushNumbers(w, f);
      if v.open.id < G {
        UnreadReads(v, run[1..], G, S);
      } else {
        CutAcrossWriters(v, run[1..], G, S);
      }
    }
  }

  lemma {:induction false} SomeIsMissed(w: Wal, run: seq<Flush>, G: nat)
    requires CanRun(w, run) && w.open.id < G && Submitted(run) > 0
    ensures Missed(w, run, G) > 0
    decreases |run|
  {
    hide WriteAll, FlushBatch;
    var f := run[0];
    if f.batch == [] {
      EmptyFlush(w, f);
      SomeIsMissed(w, run[1..], G);
    }
  }

  lemma UnreadTail(w: Wal, G: nat, S: nat)
    requires Unread(w, G)
    ensures Tail(Segs(w), G, S) == []
  {
    hide After;
    BelowContributesNothing(Segs(w), G, S);
  }

  lemma UnreadOpen(w: Wal, G: nat)
    requires Unread(w, G)
    ensures w.open.id < G
  {
  }

  lemma EmptyFlush(w: Wal, f: Flush)
    requires f.batch == [] && f.spills == [] && Possible(WriteAll(w, f.batch, f.spills), f.outcome)
    ensures FlushBatch(w, f.batch, f.spills, f.outcome) == w
  {
  }

  lemma FlushNumbers(w: Wal, f: Flush)
    requires |f.spills| == |f.batch| && Possible(WriteAll(w, f.batch, f.spills), f.outcome)
    requires w.seqNo + |f.batch| < TWO64
    ensures FlushBatch(w, f.batch, f.spills, f.outcome).seqNo == w.seqNo + |f.batch|
  {
    hide WriteAll, Written, FlushBatch;
    FlushSegs(w, f);
  }

  /** What the cut reads.  Capture (S, G) in any state the writer can be in, let it go on
      with any rotations, prune: replay from (S, G) reads the stale records, if any, and
      then, in order, exactly the events written since, but for those that went to a file
      older than G.  None did if the open file was the one G names. */
  lemma CutIsExact(w: Wal, run: seq<Flush>, g: nat)
    requires Inv(w) && Ordered(w) && CanRun(w, run) && g <= w.segmentID
    requires w.seqNo + Submitted(run) < TWO64
    ensures var r := Run(w, run);
            var read := Tail(Prune(Segs(r), g), w.segmentID, w.seqNo);
            var missed := Missed(w, run, w.segmentID);
            && Log(w) <= Log(r) && |Log(r)| == |Log(w)| + Submitted(run)
            && read == (if Aligned(w) then Stale(w) else []) + Log(r)[|Log(w)| + missed..]
            && (Aligned(w) ==> missed == 0 && (read == Log(r)[|Log(w)|..] <==> Stale(w) == []))
  {
    hide Inv, Run, Tail, Log, Prune, After, CanRun, Missed;
    var r, G, S := Run(w, run), w.segmentID, w.seqNo;
    PruneIsInvisible(Segs(r), g, G, S);
    if Aligned(w) {
      CutAcrossWriters(w, run, G, S);
      NoneMissed(w, run);
      OpenOnly(w, G, S);
      var more := Log(r)[|Log(w)|..];
      assert more[0..] == more;
      assert |Stale(w) + more| == |more| <==> Stale(w) == [];
      assert [] + more == more;
    } else {
      UnalignedUnread(w);
      UnreadReads(w, run, G, S);
    }
  }

  lemma NoneMissed(w: Wal, run: seq<Flush>)
    requires Aligned(w) && CanRun(w, run)
    ensures Missed(w, run, w.segmentID) == 0
  {
  }

  lemma OpenOnly(w: Wal, G: nat, S: nat)
    requires Ordered(w) && w.open.id == G
    ensures Tail(Segs(w), G, S) == After(w.open.events, S)
  {
    hide After;
    BelowContributesNothing(w.closed, G, S);
    TailSnoc(w.closed, w.open, G, S);
    assert [] + After(w.open.events, S) == After(w.open.events, S);
  }

  /** Exactly when the cut is right: as soon as something is written, what is read from
      (S, G) is what was written since, if and only if the open file was the one G names
      and held no stale record. */
  lemma CutIsExactIff(w: Wal, run: seq<Flush>, g: nat)
    requires Inv(w) && Ordered(w) && CanRun(w, run) && g <= w.segmentID
    requires Submitted(run) > 0 && w.seqNo + Submitted(run) < TWO64
    ensures var r := Run(w, run);
            Log(w) <= Log(r) &&
            (Tail(Prune(Segs(r), g), w.segmentID, w.seqNo) == Log(r)[|Log(w)|..]
             <==> Aligned(w) && Stale(w) == [])
  {
    hide Inv, Run, Tail, Log, Prune, After, CanRun, Missed;
    CutIsExact(w, run, g);
    if !Aligned(w) {
      SomeIsMissed(w, run, w.segmentID);
    }
  }

  lemma UnalignedUnread(w: Wal)
    requires Ordered(w) && !Aligned(w)
    ensures Unread(w, w.segmentID)
  {
  }

  /** The writer gets there: one event that fills the segment, and a rotation whose open
      fails, over an empty directory. */
  lemma UnalignedIsReachable(durable: bool, segmentMax: nat, e: Event)
    requires WellSized(e) && Size(e) >= segmentMax
    ensures var w := Opened(durable, segmentMax, [], Seg(0, EMPTY, []));
            var run := [Flush([Request(e, true)], [Spill(0, false)], Confirmed(LogOpenFailed))];
            Inv(w) && Ordered(w) && CanRun(w, run) && !Aligned(Run(w, run))
  {
    var w := Opened(durable, segmentMax, [], Seg(0, EMPTY, []));
    var f := Flush([Request(e, true)], [Spill(0, false)], Confirmed(LogOpenFailed));
    EmptyDirectory(durable);
    OpenedKeeps(durable, segmentMax, [], Seg(0, EMPTY, []));
    hide Inv, Ordered, Encode, Settle, PassOn, Waiters;
    var u := WriteAll(w, f.batch, f.spills);
    assert f.batch[..0] == [] && f.spills[..0] == [];
    assert WriteAll(w, [], []) == w;
    assert u == WriteAheadLog.WriteRecord(w, e, f.spills[0]);
    assert !u.stuck && u.fileSize >= segmentMax;
    FlushAligns(w, f);
    hide WriteAll, FlushBatch;
    assert [f][1..] == [];
    var v := FlushBatch(w, f.batch, f.spills, f.outcome);
    assert CanRun(v, []) && Run(v, []) == v;
  }

  /** Replay from (S, G) of what a crash left. */
  function ReplayFrom(segs: seq<Seg>, left: seq<Bytes>, G: nat, S: nat): seq<Event>
    requires |left| == |segs|
  {
    if segs == [] then []
    else
      var n := |segs| - 1;
      ReplayFrom(segs[..n], left[..n], G, S) + (if segs[n].id < G then [] else After(DecodeAll(left[n]), S))
  }

  lemma {:induction false} ClosedReplayFrom(durable: bool, segs: seq<Seg>, powerLoss: bool, left: seq<Bytes>,
                                            G: nat, S: nat)
    requires |left| == |segs| && (powerLoss ==> durable)
    requires forall i :: 0 <= i < |segs| ==> Intact(durable, segs[i])
    requires forall i :: 0 <= i < |segs| ==> MayLeave(segs[i].file, powerLoss, left[i])
    ensures ReplayFrom(segs, left, G, S) == Tail(segs, G, S)
  {
    hide EncodeAll, DecodeAll, After;
    if segs != [] {
      var n := |segs| - 1;
      ClosedReplayFrom(durable, segs[..n], powerLoss, left[..n], G, S);
      assert Intact(durable, segs[n]) && MayLeave(segs[n].file, powerLoss, left[n]);
      assert left[n] == EncodeAll(segs[n].events);
      SegmentRoundTrip(segs[n].events);
    }
  }

  /** The segments with only what a confirmed flush covered. */
  function SafeSegs(w: Wal): seq<Seg>
    requires w.safe <= |w.open.events|
  {
    w.closed + [w.open.(events := w.open.events[..w.safe])]
  }

  lemma ReplayFromSnoc(segs: seq<Seg>, s: Seg, left: seq<Bytes>, b: Bytes, G: nat, S: nat)
    requires |left| == |segs|
    ensures ReplayFrom(segs + [s], left + [b], G, S)
         == ReplayFrom(segs, left, G, S) + (if s.id < G then [] else After(DecodeAll(b), S))
  {
    assert (segs + [s])[..|segs|] == segs && (left + [b])[..|left|] == left;
  }

  /** After a crash, replay from (S, G) reads a prefix of the tail at (S, G), and at
      least the part of it that confirmed flushes covered. */
  lemma CutAfterCrash(w: Wal, powerLoss: bool, left: seq<Bytes>, G: nat, S: nat)
    requires Inv(w) && Crash(w, powerLoss, left) && (powerLoss ==> w.durable)
    ensures Tail(SafeSegs(w), G, S) <= ReplayFrom(Segs(w), left, G, S) <= Tail(Segs(w), G, S)
  {
    hide Inv, Crash, Intact, MayLeave, Growing, SafeOnDisk, DecodeAll, After, Tail, ReplayFrom;
    CrashParts(w, powerLoss, left);
    var n := |w.closed|;
    ClosedReplayFrom(w.durable, w.closed, powerLoss, left[..n], G, S);
    OpenReplay(w, powerLoss, left[n]);
    assert left == left[..n] + [left[n]];
    CutOfOpen(w.closed, w.open, left[..n], left[n], w.safe, G, S);
  }

  /** The open segment's part of the cut. */
  lemma CutOfOpen(closed: seq<Seg>, open: Seg, whole: seq<Bytes>, b: Bytes, safe: nat, G: nat, S: nat)
    requires |whole| == |closed| && ReplayFrom(closed, whole, G, S) == Tail(closed, G, S)
    requires safe <= |open.events| && open.events[..safe] <= DecodeAll(b) <= open.events
    ensures Tail(closed + [open.(events := open.events[..safe])], G, S)
         <= ReplayFrom(closed + [open], whole + [b], G, S) <= Tail(closed + [open], G, S)
  {
    hide DecodeAll, After, Tail, ReplayFrom;
    var es := open.events;
    ReplayFromSnoc(closed, open, whole, b, G, S);
    TailSnoc(closed, open, G, S);
    TailSnoc(closed, open.(events := es[..safe]), G, S);
    AfterPrefix(es[..safe], DecodeAll(b), S);
    AfterPrefix(DecodeAll(b), es, S);
    if open.id >= G {
      Between(Tail(closed, G, S), After(es[..safe], S), After(DecodeAll(b), S), After(es, S));
    }
  }

  lemma Between(t: seq<Event>, a: seq<Event>, b: seq<Event>, c: seq<Event>)
    requires a <= b <= c
    ensures t + a <= t + b <= t + c
  {
  }

  /** Without alignment (a rotation whose open failed) the cut is wrong: nothing of the
      very next batch is read back from (S, G), however it ends, though its waiters may
      be told it is durable. */
  lemma UnalignedCutLosesTheNextBatch(w: Wal, f: Flush)
    requires Inv(w) && Ordered(w) && !Aligned(w) && CanRun(w, [f])
    ensures var r := Run(w, [f]);
            Log(r) == Log(w) + Written(w, f.batch) &&
            Tail(Segs(r), w.segmentID, w.seqNo) == []
  {
    hide Inv, WriteAll, Written, Waiters, FlushBatch, Tail;
    var r := FlushBatch(w, f.batch, f.spills, f.outcome);
    assert Run(w, [f]) == r by {
      assert [f][1..] == [];
      assert Run(r, []) == r;
    }
    FlushBatchKeepsInv(w, f.batch, f.spills, f.outcome);
    UnalignedUnread(w);
    UnreadFlush(w, f, w.segmentID, w.seqNo);
  }

  // ---------------------------------------------------------------------------
  // Snapshots and later writers
  // ---------------------------------------------------------------------------

  /** Over any directory whose last segment holds a numbered record, the reopened writer
      finds that record stale: it numbers from 0, and a cut taken now repeats it. */
  lemma StaleIsReachable(durable: bool, segmentMax: nat, closed: seq<Seg>, last: Seg, i: nat)
    requires WellFormed(durable, closed, last) && i < |last.events| && last.events[i].seqNo > 0
    ensures var w := Opened(durable, segmentMax, closed, last);
            Inv(w) && Ordered(w) && Aligned(w) && last.events[i] in Stale(w)
  {
    OpenedKeeps(durable, segmentMax, closed, last);
    StillThere(last.events, i, 0);
  }

  lemma {:induction false} StillThere(es: seq<Event>, i: nat, S: nat)
    requires i < |es| && es[i].seqNo > S
    ensures es[i] in After(es, S)
  {
    if i < |es| - 1 {
      StillThere(es[..|es| - 1], i, S);
    }
  }

  /** The next writer over the files the last one left complete. */
  function NextWriter(w: Wal): Wal {
    Opened(w.durable, w.segmentMax, w.closed, w.open)
  }

  /** A snapshot and two writers.  Capture (S, G) while the open file is the one G names
      and holds no stale record; the writer goes on and closes its files; the next one
      numbers from 1 again.  Replay from (S, G) reads all the first has written since, and
      of what the second writes all but the first S records: so it reads everything if
      and only if S was 0 or the second wrote nothing. */
  lemma SnapshotHidesTheNextWriter(w: Wal, first: seq<Flush>, second: seq<Flush>)
    requires Inv(w) && Ordered(w) && Aligned(w) && Stale(w) == [] && CanRun(w, first)
    requires w.seqNo + Submitted(first) < TWO64 && Submitted(second) < TWO64
    requires Intact(Run(w, first).durable, Run(w, first).open)
    requires CanRun(NextWriter(Run(w, first)), second)
    ensures var m := Run(w, first);
            var r := Run(NextWriter(m), second);
            var read := Tail(Segs(r), w.segmentID, w.seqNo);
            && Log(w) <= Log(m) <= Log(r) && |Log(r)| == |Log(m)| + Submitted(second)
            && read == Log(m)[|Log(w)|..] + Log(r)[|Log(m)| + LeftOut(0, w.seqNo, Submitted(second))..]
            && (read == Log(r)[|Log(w)|..] <==> w.seqNo == 0 || Submitted(second) == 0)
  {
    hide Inv, Ordered, Run, Tail, Log, CanRun, Intact, After, NextWriter, Segs, Submitted;
    var m, G, S := Run(w, first), w.segmentID, w.seqNo;
    FirstWriterReads(w, first);
    NextIsSound(m);
    CutAcrossWriters(NextWriter(m), second, G, S);
    TwoParts(Log(w), Log(m), Log(Run(NextWriter(m), second)), LeftOut(0, S, Submitted(second)));
  }

  lemma FirstWriterReads(w: Wal, run: seq<Flush>)
    requires Inv(w) && Ordered(w) && Aligned(w) && Stale(w) == [] && CanRun(w, run)
    requires w.seqNo + Submitted(run) < TWO64
    ensures var m := Run(w, run);
            && Inv(m) && Ordered(m) && w.segmentID <= m.open.id && Log(w) <= Log(m)
            && Tail(Segs(m), w.segmentID, w.seqNo) == Log(m)[|Log(w)|..]
  {
    hide Inv, Ordered, Run, Tail, Log, CanRun, After, Segs;
    RunKeepsInv(w, run);
    OpenOnlyOf(w, w.seqNo);
    RunExtendsTail(w, run, w.segmentID, w.seqNo);
    CutAcrossWriters(w, run, w.segmentID, w.seqNo);
    var more := Log(Run(w, run))[|Log(w)|..];
    assert [] + more == more;
  }

  lemma TwoParts(a: seq<Event>, b: seq<Event>, c: seq<Event>, k: nat)
    requires a <= b <= c && |b| + k <= |c|
    ensures c[|b|..][k..] == c[|b| + k..]
    ensures b[|a|..] + c[|b| + k..] == c[|a|..] <==> k == 0
  {
    assert c[|a|..] == b[|a|..] + c[|b|..];
    assert |b[|a|..] + c[|b| + k..]| == |c[|a|..]| - k;
  }

  lemma OpenOnlyOf(w: Wal, S: nat)
    requires Ordered(w) && Aligned(w)
    ensures w.segmentID <= w.open.id && Tail(Segs(w), w.segmentID, S) == After(w.open.events, S)
  {
    OpenOnly(w, w.segmentID, S);
  }

  lemma NextIsSound(m: Wal)
    requires Inv(m) && Ordered(m) && Intact(m.durable, m.open)
    ensures var n := NextWriter(m);
            Inv(n) && Ordered(n) && n.seqNo == 0 && Log(n) == Log(m) && Segs(n) == Segs(m) && n.open == m.open
  {
    hide Intact;
    assert WellFormed(m.durable, m.closed, m.open);
    OpenedKeeps(m.durable, m.segmentMax, m.closed, m.open);
  }

  /** One event with a waiter, written, flushed and confirmed. */
  function Single(e: Event): Flush {
    Flush([Request(e, true)], [Spill(0, false)], Confirmed(Rotated))
  }

  lemma RunOne(w: Wal, f: Flush)
    requires !w.failed && |f.spills| == |f.batch| && BatchWellSized(f.batch)
    requires Possible(WriteAll(w, f.batch, f.spills), f.outcome)
    ensures CanRun(w, [f]) && Run(w, [f]) == FlushBatch(w, f.batch, f.spills, f.outcome)
  {
    hide WriteAll, FlushBatch;
    var r := FlushBatch(w, f.batch, f.spills, f.outcome);
    assert [f][1..] == [];
    assert CanRun(r, []) && Run(r, []) == r;
  }

  lemma SingleWrites(w: Wal, e: Event)
    ensures var f, n := Single(e), Numbered(w, e, 1);
            && WriteAll(w, f.batch, f.spills) == WriteAheadLog.WriteRecord(w, e, f.spills[0])
            && Written(w, f.batch) == [n] && Waiters(f.batch, [n]) == [n]
  {
    var f, n := Single(e), Numbered(w, e, 1);
    hide WriteAheadLog.WriteRecord, Numbered;
    assert f.batch[..0] == [] && f.spills[..0] == [];
    assert WriteAll(w, [], []) == w && Written(w, []) == [] && Waiters([], []) == [];
    assert [] + [n] == [n] && [n][..0] == [];
  }

  lemma SingleRuns(w: Wal, e: Event)
    requires Inv(w) && WellSized(e) && !w.failed && !w.stuck && w.fileSize + Size(Numbered(w, e, 1)) < w.segmentMax
    ensures CanRun(w, [Single(e)])
    ensures var r, n := Run(w, [Single(e)]), Numbered(w, e, 1);
            && r == w.(open := r.open, seqNo := n.seqNo, fileSize := r.fileSize, acked := w.acked + [n], safe := r.safe)
            && r.open.id == w.open.id && r.open.events == w.open.events + [n] && Intact(r.durable, r.open) && Inv(r)
  {
    var f := Single(e);
    hide Encode, Size, Inv, WellSized, WriteAll, Written, Waiters, PassOn, Numbered, Intact;
    SingleWrites(w, e);
    RunOne(w, f);
    hide CanRun, Run;
    FlushBatchKeepsInv(w, f.batch, f.spills, f.outcome);
    WholeFile(FlushBatch(w, f.batch, f.spills, f.outcome));
  }

  /** The same when it fills the segment: a new one is opened behind it. */
  lemma SingleRotates(w: Wal, e: Event)
    requires Inv(w) && WellSized(e) && !w.failed && !w.stuck && w.fileSize + Size(Numbered(w, e, 1)) >= w.segmentMax
    ensures CanRun(w, [Single(e)])
    ensures var r, n := Run(w, [Single(e)]), Numbered(w, e, 1);
            && Inv(r) && |r.closed| == |w.closed| + 1 && !r.failed && !r.stuck && r.fileSize == 0
            && r.durable == w.durable && r.segmentMax == w.segmentMax && r.seqNo == n.seqNo
            && r.open == Seg(w.segmentID + 1, EMPTY, []) && r.closed[..|w.closed|] == w.closed
            && var s := r.closed[|w.closed|];
            && s.events == w.open.events + [n] && (!w.durable ==> s.file.synced == w.open.file.synced)
  {
    var f := Single(e);
    hide Encode, Size, Inv, WellSized, WriteAll, Written, Waiters, Numbered;
    SingleWrites(w, e);
    RunOne(w, f);
    hide CanRun, Run;
    FlushBatchKeepsInv(w, f.batch, f.spills, f.outcome);
  }

  lemma WholeFile(w: Wal)
    requires Inv(w) && !w.stuck && w.open.file.buffered == [] && (w.durable ==> w.open.file.flushed == [])
    ensures Intact(w.durable, w.open)
  {
    assert OnDisk(w.open.file) == Total(w.open.file);
  }

  /** The writer over an empty directory. */
  function Fresh(durable: bool, segmentMax: nat): Wal {
    Opened(durable, segmentMax, [], Seg(0, EMPTY, []))
  }

  lemma FreshIs(durable: bool, segmentMax: nat)
    ensures var w := Fresh(durable, segmentMax);
            && Inv(w) && Ordered(w) && Log(w) == []
            && w.closed == [] && w.open == Seg(0, EMPTY, []) && w.fileSize == w.seqNo == w.segmentID == 0
            && !w.failed && !w.stuck && w.durable == durable && w.segmentMax == segmentMax && w.acked == []
  {
    EmptyDirectory(durable);
    OpenedKeeps(durable, segmentMax, [], Seg(0, EMPTY, []));
  }

  lemma FirstLife(durable: bool, segmentMax: nat, e: Event)
    requires WellSized(e) && Size(e) < segmentMax
    ensures CanRun(Fresh(durable, segmentMax), [Single(e)])
    ensures var w := Run(Fresh(durable, segmentMax), [Single(e)]);
            && Inv(w) && Ordered(w) && Intact(w.durable, w.open) && w.closed == [] && w.segmentMax == segmentMax
            && w.open.id == w.segmentID == 0 && w.seqNo == 1 && w.open.events == [e.(seqNo := 1)]
            && |OnDisk(w.open.file)| == Size(e)
  {
    var start := Fresh(durable, segmentMax);
    hide Inv, Ordered, Run, CanRun, Intact, EncodeAll, Size, WellSized, Single, Fresh, Log, Numbered;
    FreshIs(durable, segmentMax);
    NextNumber(start, e);
    SingleRuns(start, e);
    RunKeepsInv(start, [Single(e)]);
    var w := Run(start, [Single(e)]);
    assert [] + [e.(seqNo := 1)] == [e.(seqNo := 1)];
    SizeOnDisk(w);
  }

  /** Two writers over an empty directory, one event each, a snapshot between: the second
      event was confirmed to its publisher, and replay from the snapshot skips it. */
  lemma SecondLifeIsSkipped(durable: bool, segmentMax: nat, e: Event, d: Event)
    requires WellSized(e) && WellSized(d) && Size(e) + Size(d) < segmentMax
    ensures CanRun(Fresh(durable, segmentMax), [Single(e)])
    ensures var w := Run(Fresh(durable, segmentMax), [Single(e)]);
            && CanRun(NextWriter(w), [Single(d)])
            && var r := Run(NextWriter(w), [Single(d)]);
            && r.acked == [d.(seqNo := 1)] && Log(r) == [e.(seqNo := 1), d.(seqNo := 1)]
            && Tail(Segs(r), w.segmentID, w.seqNo) == []
  {
    hide Inv, Ordered, Run, CanRun, Intact, Size, WellSized, Tail, Log, Segs, Single, Fresh, OnDisk;
    hide Numbered;
    FirstLife(durable, segmentMax, e);
    var w := Run(Fresh(durable, segmentMax), [Single(e)]);
    NextIsSound(w);
    NextNumber(NextWriter(w), d);
    SingleRuns(NextWriter(w), d);
    assert [] + [d.(seqNo := 1)] == [d.(seqNo := 1)];
    TwoRecordsSkipped(Run(NextWriter(w), [Single(d)]), e.(seqNo := 1), d.(seqNo := 1));
  }

  lemma TwoRecordsSkipped(r: Wal, e: Event, d: Event)
    requires r.closed == [] && r.open.id == 0 && r.open.events == [e] + [d] && e.seqNo == d.seqNo == 1
    ensures Log(r) == [e, d] && Tail(Segs(r), 0, 1) == []
  {
    var es := r.open.events;
    assert es[..1] == [e] && [e][..0] == [];
    assert After([], 1) == [];
    assert After([e], 1) == [];
    assert After(es, 1) == After(es[..1], 1) + [];
    assert Segs(r) == [r.open] && Segs(r)[..0] == [];
    assert AllEvents([]) == [];
  }

  lemma SizeOnDisk(w: Wal)
    requires Intact(w.durable, w.open) && |w.open.events| == 1
    ensures |OnDisk(w.open.file)| == Size(w.open.events[0])
  {
    var e := w.open.events[0];
    assert w.open.events == [e] && [e][1..] == [];
    assert EncodeAll([e]) == Encode(e) + EncodeAll([]) == Encode(e);
    EncodeSize(e);
  }

  lemma NextNumber(w: Wal, e: Event)
    requires w.seqNo < 0x1_0000
    ensures Numbered(w, e, 1) == e.(seqNo := w.seqNo + 1) && Size(Numbered(w, e, 1)) == Size(e)
  {
  }
}
