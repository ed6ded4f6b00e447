/** Where the log's promises stop: power loss without fsync, appending behind a
    torn tail, and listing segments by name. */
module Reopen {
  import opened Bytes
  import opened Record
  import opened Segment
  import opened WriteAheadLog
  import opened SnapshotCut

  // ---------------------------------------------------------------------------
  // Power loss without Durable
  // ---------------------------------------------------------------------------

  /** Without Durable a power loss may drop an earlier segment and keep a later one,
      so that replay is no prefix of what was written.  It takes one rotation. */
  lemma PowerLossWithoutDurable(w: Wal)
    requires Inv(w) && !w.durable && |w.closed| == 1
    requires w.closed[0].file.synced == [] && w.closed[0].events != []
    requires w.open.file.buffered == [] && !w.stuck && w.open.events != []
    requires w.open.events[0] != w.closed[0].events[0]
    ensures exists left ::
      Crash(w, true, left) && w.open.events <= Replay(left) && !(Replay(left) <= Log(w))
  {
    hide Inv, Crash, EncodeAll, DecodeAll, Replay, Log;
    TwoSegments(w);
    SegmentRoundTrip(w.open.events);
    ReplayOfTwo([], OnDisk(w.open.file));
    ReplayOfNothing();
    LogStart(w);
    var left := [[], OnDisk(w.open.file)];
    assert Replay(left) == [] + w.open.events == w.open.events;
    assert Crash(w, true, left);
  }

  lemma LogStart(w: Wal)
    requires |w.closed| == 1 && w.closed[0].events != []
    ensures Log(w) != [] && Log(w)[0] == w.closed[0].events[0]
  {
    assert AllEvents(w.closed) == AllEvents(w.closed[..0]) + w.closed[0].events;
  }

  lemma TwoSegments(w: Wal)
    requires Inv(w) && |w.closed| == 1 && w.closed[0].file.synced == []
    requires w.open.file.buffered == [] && !w.stuck
    ensures Crash(w, true, [[], OnDisk(w.open.file)])
    ensures AllWellSized(w.open.events) && OnDisk(w.open.file) == EncodeAll(w.open.events)
  {
    assert Intact(w.durable, w.closed[0]);
    assert OnDisk(w.open.file) == Total(w.open.file);
  }

  lemma ReplayOfTwo(a: Bytes, b: Bytes)
    ensures Replay([a, b]) == DecodeAll(a) + DecodeAll(b)
  {
    hide DecodeAll;
    assert [a, b][..1] == [a] && [a][..0] == [];
    assert Replay([a]) == DecodeAll(a);
  }

  lemma ReplayOfNothing()
    ensures DecodeAll([]) == []
  {
  }

  /** A segment whose file holds a prefix of its records' bytes. */
  ghost predicate Holding(s: Seg) {
    AllWellSized(s.events) && OnDisk(s.file) <= EncodeAll(s.events)
  }

  /** How many of its records a power loss certainly leaves, and how many at most. */
  function Kept(s: Seg): nat { Whole(s.events, |s.file.synced|) }

  function AtMostKept(s: Seg): nat { Whole(s.events, |OnDisk(s.file)|) }

  /** No segment with a record that may be lost is followed by one with a record that may
      be left. */
  ghost predicate NoGap(segs: seq<Seg>) {
    forall i, j | 0 <= i < j < |segs| :: Kept(segs[i]) == |segs[i].events| || AtMostKept(segs[j]) == 0
  }

  ghost predicate AllDifferent(es: seq<Event>) {
    forall i, j | 0 <= i < j < |es| :: es[i] != es[j]
  }

  ghost predicate Leaves(segs: seq<Seg>, left: seq<Bytes>) {
    |left| == |segs| && forall i :: 0 <= i < |segs| ==> MayLeave(segs[i].file, true, left[i])
  }

  ghost predicate AllHolding(segs: seq<Seg>) {
    forall i :: 0 <= i < |segs| ==> Holding(segs[i])
  }

  /** What a power loss leaves of one segment. */
  lemma LeftOfSegment(s: Seg, left: Bytes)
    requires Holding(s) && MayLeave(s.file, true, left)
    ensures DecodeAll(left) == s.events[..Whole(s.events, |left|)]
    ensures Kept(s) <= Whole(s.events, |left|) <= AtMostKept(s) <= |s.events|
  {
    hide EncodeAll, DecodeAll, Whole, WellSized;
    PrefixReplays(s.events, |left|);
    assert EncodeAll(s.events)[..|left|] == left;
    WholeGrows(s.events, |s.file.synced|, |left|);
    WholeGrows(s.events, |left|, |OnDisk(s.file)|);
  }

  lemma WholeGrows(es: seq<Event>, m: nat, n: nat)
    requires m <= n
    ensures Whole(es, m) <= Whole(es, n)
  {
    hide Whole;
    var k := Whole(es, m);
    WholeIsLargest(es, m, k);
    WholeIsLargest(es, n, k);
  }

  /** Segments that keep all their records replay in full. */
  lemma {:induction false} AllKeptReplays(segs: seq<Seg>, left: seq<Bytes>)
    requires AllHolding(segs) && |left| == |segs|
    requires forall i :: 0 <= i < |segs| ==> DecodeAll(left[i]) == segs[i].events
    ensures Replay(left) == AllEvents(segs)
  {
    hide DecodeAll, Holding;
    if segs != [] {
      AllKeptReplays(segs[..|segs| - 1], left[..|left| - 1]);
    }
  }

  lemma {:induction false} NoGapReplays(segs: seq<Seg>, left: seq<Bytes>)
    requires AllHolding(segs) && Leaves(segs, left) && NoGap(segs)
    ensures Replay(left) <= AllEvents(segs)
  {
    hide DecodeAll, Holding, MayLeave, Kept, AtMostKept, Replay, AllEvents;
    if segs == [] {
      assert Replay(left) == [] by { ReplayOfNone(); }
    } else {
      var n := |segs| - 1;
      LeftOfSegment(segs[n], left[n]);
      ReplayLast(left);
      EventsLast(segs);
      if AtMostKept(segs[n]) == 0 {
        NoGapReplays(segs[..n], left[..n]);
      } else {
        FrontIsKept(segs, left);
      }
    }
  }

  lemma ReplayOfNone()
    ensures Replay([]) == []
  {
  }

  lemma EventsLast(segs: seq<Seg>)
    requires segs != []
    ensures AllEvents(segs) == AllEvents(segs[..|segs| - 1]) + segs[|segs| - 1].events
  {
  }

  lemma FrontIsKept(segs: seq<Seg>, left: seq<Bytes>)
    requires AllHolding(segs) && Leaves(segs, left) && NoGap(segs)
    requires segs != [] && AtMostKept(segs[|segs| - 1]) != 0
    ensures Replay(left[..|left| - 1]) == AllEvents(segs[..|segs| - 1])
  {
    hide DecodeAll, Holding, MayLeave, Kept, AtMostKept, Replay, AllEvents;
    var n := |segs| - 1;
    forall i | 0 <= i < n ensures DecodeAll(left[..n][i]) == segs[..n][i].events {
      LeftOfSegment(segs[i], left[i]);
      assert Kept(segs[i]) == |segs[i].events|;
    }
    AllKeptReplays(segs[..n], left[..n]);
  }

  lemma {:induction false} ReplayTogether(a: seq<Bytes>, b: seq<Bytes>)
    ensures Replay(a + b) == Replay(a) + Replay(b)
  {
    hide DecodeAll;
    if b == [] {
      assert a + b == a;
    } else {
      assert (a + b)[..|a + b| - 1] == a + b[..|b| - 1];
      ReplayTogether(a, b[..|b| - 1]);
    }
  }

  lemma {:induction false} EventsTogether(a: seq<Seg>, b: seq<Seg>)
    ensures AllEvents(a + b) == AllEvents(a) + AllEvents(b)
  {
    if b == [] {
      assert a + b == a;
    } else {
      assert (a + b)[..|a + b| - 1] == a + b[..|b| - 1];
      EventsTogether(a, b[..|b| - 1]);
    }
  }

  /** What is read was written, and something is if some segment has a record left. */
  lemma {:induction false} ReadWasWritten(segs: seq<Seg>, left: seq<Bytes>)
    requires AllHolding(segs) && Leaves(segs, left)
    ensures forall e <- Replay(left) :: e in AllEvents(segs)
    ensures (exists j :: 0 <= j < |segs| && DecodeAll(left[j]) != []) ==> Replay(left) != []
  {
    hide DecodeAll, Holding, MayLeave, Kept, AtMostKept, Replay, AllEvents;
    if segs == [] {
      ReplayOfNone();
    } else {
      var n := |segs| - 1;
      ReplayLast(left);
      EventsLast(segs);
      ReadWasWritten(segs[..n], left[..n]);
      LeftOfSegment(segs[n], left[n]);
      if j :| 0 <= j < |segs| && DecodeAll(left[j]) != [] {
        if j < n {
          assert DecodeAll(left[..n][j]) != [];
        }
      }
    }
  }

  /** The power loss that takes what it can of segment i and nothing else. */
  function Taken(segs: seq<Seg>, i: nat): (left: seq<Bytes>)
    ensures |left| == |segs|
  {
    seq(|segs|, k requires 0 <= k < |segs| => if k == i then segs[k].file.synced else OnDisk(segs[k].file))
  }

  lemma TakenLeaves(segs: seq<Seg>, i: nat)
    ensures Leaves(segs, Taken(segs, i))
  {
  }

  /** Taking from segment i what it can, with a later record left, leaves no prefix. */
  lemma GapReplays(segs: seq<Seg>, i: nat, j: nat)
    requires AllHolding(segs) && i < j < |segs| && AllDifferent(AllEvents(segs))
    requires forall k :: 0 <= k < i ==> AtMostKept(segs[k]) == |segs[k].events|
    requires Kept(segs[i]) < |segs[i].events| && AtMostKept(segs[j]) > 0
    ensures !(Replay(Taken(segs, i)) <= AllEvents(segs))
  {
    hide DecodeAll, Holding, Replay, AllEvents, Kept, AtMostKept, MayLeave, AllDifferent, AllHolding, Leaves;
    var left, s := Taken(segs, i), segs[i];
    ReplayAround(left, i);
    EventsAround(segs, i);
    BeforeGap(segs, i);
    AtGap(segs, i);
    BehindGap(segs, i, j);
    Shortened(AllEvents(segs[..i]), s.events, Kept(s), AllEvents(segs[i + 1..]), Replay(left[i + 1..]));
  }

  lemma Around<T>(s: seq<T>, i: nat)
    requires i < |s|
    ensures s == s[..i] + ([s[i]] + s[i + 1..])
  {
  }

  lemma ReplayAround(left: seq<Bytes>, i: nat)
    requires i < |left|
    ensures Replay(left) == Replay(left[..i]) + (DecodeAll(left[i]) + Replay(left[i + 1..]))
  {
    hide DecodeAll, Replay;
    Around(left, i);
    ReplayTogether(left[..i], [left[i]] + left[i + 1..]);
    ReplayTogether([left[i]], left[i + 1..]);
    ReplayOne(left[i]);
  }

  lemma EventsAround(segs: seq<Seg>, i: nat)
    requires i < |segs|
    ensures AllEvents(segs) == AllEvents(segs[..i]) + (segs[i].events + AllEvents(segs[i + 1..]))
  {
    hide AllEvents;
    Around(segs, i);
    EventsTogether(segs[..i], [segs[i]] + segs[i + 1..]);
    EventsTogether([segs[i]], segs[i + 1..]);
    EventsOne(segs[i]);
  }

  lemma AtGap(segs: seq<Seg>, i: nat)
    requires AllHolding(segs) && i < |segs|
    ensures Kept(segs[i]) <= |segs[i].events| && DecodeAll(Taken(segs, i)[i]) == segs[i].events[..Kept(segs[i])]
  {
    hide DecodeAll, Holding, AtMostKept;
    LeftOfSegment(segs[i], segs[i].file.synced);
  }

  lemma ReplayOne(b: Bytes)
    ensures Replay([b]) == DecodeAll(b)
  {
    hide DecodeAll;
    assert [b][..0] == [] && Replay([]) == [];
  }

  lemma EventsOne(s: Seg)
    ensures AllEvents([s]) == s.events
  {
    assert [s][..0] == [] && AllEvents([]) == [];
  }

  lemma BeforeGap(segs: seq<Seg>, i: nat)
    requires AllHolding(segs) && i < |segs| && forall k :: 0 <= k < i ==> AtMostKept(segs[k]) == |segs[k].events|
    ensures Replay(Taken(segs, i)[..i]) == AllEvents(segs[..i])
  {
    hide DecodeAll, Holding, Replay, AllEvents, Kept;
    forall k | 0 <= k < i ensures DecodeAll(Taken(segs, i)[..i][k]) == segs[..i][k].events {
      LeftOfSegment(segs[k], OnDisk(segs[k].file));
    }
    AllKeptReplays(segs[..i], Taken(segs, i)[..i]);
  }

  lemma BehindGap(segs: seq<Seg>, i: nat, j: nat)
    requires AllHolding(segs) && i < j < |segs| && AtMostKept(segs[j]) > 0
    ensures var r := Replay(Taken(segs, i)[i + 1..]);
            r != [] && forall e <- r :: e in AllEvents(segs[i + 1..])
  {
    hide DecodeAll, Holding, Replay, AllEvents, Kept;
    var behind, left := segs[i + 1..], Taken(segs, i)[i + 1..];
    TakenLeaves(segs, i);
    assert Leaves(behind, left);
    LeftOfSegment(segs[j], OnDisk(segs[j].file));
    assert left[j - i - 1] == OnDisk(segs[j].file) && DecodeAll(left[j - i - 1]) != [];
    ReadWasWritten(behind, left);
  }

  /** If part of b is left out and something of c follows, it is no prefix. */
  lemma Shortened(a: seq<Event>, b: seq<Event>, k: nat, c: seq<Event>, d: seq<Event>)
    requires k < |b| && d != [] && AllDifferent(a + (b + c)) && forall e <- d :: e in c
    ensures !(a + (b[..k] + d) <= a + (b + c))
  {
    var whole, p := a + (b + c), |a| + k;
    assert (a + (b[..k] + d))[p] == d[0] && whole[p] == b[k];
    assert d[0] in d;
    var x :| 0 <= x < |c| && c[x] == d[0];
    assert whole[|a| + |b| + x] == c[x];
  }

  lemma SegsHold(w: Wal)
    requires Inv(w)
    ensures AllHolding(Segs(w)) && AllEvents(Segs(w)) == Log(w)
    ensures forall k :: 0 <= k < |w.closed| ==> AtMostKept(w.closed[k]) == |w.closed[k].events|
  {
    hide EncodeAll, WellSized, Whole, AllEvents;
    forall k | 0 <= k < |w.closed|
      ensures Holding(w.closed[k]) && AtMostKept(w.closed[k]) == |w.closed[k].events|
    {
      assert Intact(w.durable, w.closed[k]);
      var es := w.closed[k].events;
      assert es[..|es|] == es;
      WholeIsLargest(es, |EncodeAll(es)|, |es|);
    }
    assert OnDisk(w.open.file) <= Total(w.open.file);
    assert Segs(w)[..|w.closed|] == w.closed;
    EventsTogether(w.closed, [w.open]);
    EventsOne(w.open);
  }

  lemma CrashIsLeaves(w: Wal, left: seq<Bytes>)
    ensures Crash(w, true, left) <==> Leaves(Segs(w), left)
  {
    if Leaves(Segs(w), left) {
      assert forall i :: 0 <= i < |w.closed| ==> Segs(w)[i] == w.closed[i];
      assert Segs(w)[|w.closed|] == w.open;
    }
  }

  /** Exactly when a power loss cannot tear a hole into the log: whatever it leaves
      replays as a prefix of what was written, if and only if no segment with a record
      not known to be on disk is followed by one with a record handed to the system. */
  lemma PowerLossIsPrefixIff(w: Wal)
    requires Inv(w) && AllDifferent(Log(w))
    ensures (forall left :: Crash(w, true, left) ==> Replay(left) <= Log(w)) <==> NoGap(Segs(w))
  {
    hide Inv, Crash, Replay, Log, AllEvents, AllHolding, Kept, AtMostKept, Leaves, AllDifferent;
    SegsHold(w);
    var segs := Segs(w);
    if NoGap(segs) {
      forall left | Crash(w, true, left) ensures Replay(left) <= Log(w) {
        CrashIsLeaves(w, left);
        NoGapReplays(segs, left);
      }
    } else {
      var i, j :| 0 <= i < j < |segs| && Kept(segs[i]) != |segs[i].events| && AtMostKept(segs[j]) != 0;
      KeptBound(segs[i]);
      GapReplays(segs, i, j);
      TakenLeaves(segs, i);
      CrashIsLeaves(w, Taken(segs, i));
    }
  }

  lemma KeptBound(s: Seg)
    ensures Kept(s) <= |s.events|
  {
  }

  /** One writer numbers its records, so they differ. */
  lemma OneLifeDiffers(durable: bool, segmentMax: nat, run: seq<Flush>)
    requires CanRun(Fresh(durable, segmentMax), run) && Submitted(run) < TWO64
    ensures var w := Run(Fresh(durable, segmentMax), run); Inv(w) && AllDifferent(Log(w))
  {
    var start := Fresh(durable, segmentMax);
    hide Inv, Ordered, Run, CanRun, Log, Fresh;
    FreshIs(durable, segmentMax);
    RunKeepsInv(start, run);
    RunNumbers(start, run);
    var es := Log(Run(start, run));
    assert es[0..] == es;
  }

  lemma FilledFirst(segmentMax: nat, e: Event)
    requires WellSized(e) && segmentMax <= Size(e)
    ensures CanRun(Fresh(false, segmentMax), [Single(e)])
    ensures var v := Run(Fresh(false, segmentMax), [Single(e)]);
            && Inv(v) && !v.failed && !v.stuck && v.fileSize == 0 && v.segmentMax == segmentMax && !v.durable
            && v.seqNo == 1 && v.open.events == [] && |v.closed| == 1
            && v.closed[0].events == [e.(seqNo := 1)] && v.closed[0].file.synced == []
  {
    var start := Fresh(false, segmentMax);
    hide Inv, Ordered, Run, CanRun, Size, WellSized, Single, Fresh, Log, Numbered;
    FreshIs(false, segmentMax);
    NextNumber(start, e);
    SingleRotates(start, e);
    assert [] + [e.(seqNo := 1)] == [e.(seqNo := 1)];
  }

  /** Without Durable the writer gets to a gap with two events, the first of which fills
      its segment. */
  lemma GapIsReachable(segmentMax: nat, e: Event, d: Event)
    requires WellSized(e) && WellSized(d) && Size(d) < segmentMax <= Size(e)
    ensures CanRun(Fresh(false, segmentMax), [Single(e)])
    ensures var v := Run(Fresh(false, segmentMax), [Single(e)]);
            CanRun(v, [Single(d)]) &&
            var w := Run(v, [Single(d)]);
            Inv(w) && Log(w) == [e.(seqNo := 1), d.(seqNo := 2)] && !NoGap(Segs(w))
  {
    hide Inv, Ordered, Run, CanRun, Size, WellSized, Single, Log, NoGap, Intact, Fresh, Segs, Numbered;
    FilledFirst(segmentMax, e);
    var v := Run(Fresh(false, segmentMax), [Single(e)]);
    NextNumber(v, d);
    SingleRuns(v, d);
    assert [] + [d.(seqNo := 2)] == [d.(seqNo := 2)];
    TwoFiles(v, Run(v, [Single(d)]), e.(seqNo := 1), d.(seqNo := 2));
  }

  lemma TwoFiles(v: Wal, w: Wal, e: Event, d: Event)
    requires |v.closed| == 1 && w.closed == v.closed && v.closed[0].events == [e] && w.open.events == [d]
    requires v.closed[0].file.synced == [] && Intact(false, w.open)
    ensures Log(w) == [e, d] && !NoGap(Segs(w))
  {
    hide Encode, WellSized;
    EventsOne(w.closed[0]);
    assert w.closed == [w.closed[0]] && Log(w) == [e] + [d];
    var s, t := Segs(w)[0], Segs(w)[1];
    EncodeSize(e);
    assert Kept(s) == 0;
    WholeIsLargest(t.events, |EncodeAll(t.events)|, 1);
    assert t.events[..1] == t.events;
    assert AtMostKept(t) >= 1;
  }

  // ---------------------------------------------------------------------------
  // Appending behind a torn tail
  // ---------------------------------------------------------------------------

  lemma {:induction false} PrefixOfRecords(es: seq<Event>, rest: Bytes)
    requires AllWellSized(es)
    ensures DecodeAll(EncodeAll(es) + rest) == es + DecodeAll(rest)
  {
    hide Encode, Decode, WellSized;
    if es == [] {
      assert EncodeAll(es) + rest == rest;
    } else {
      var s := EncodeAll(es) + rest;
      assert WellSized(es[0]);
      assert s == Encode(es[0]) + (EncodeAll(es[1..]) + rest);
      DecodeEncode(es[0], EncodeAll(es[1..]) + rest);
      assert s[|Encode(es[0])|..] == EncodeAll(es[1..]) + rest;
      forall i | 0 <= i < |es[1..]| ensures WellSized(es[1..][i]) {
        assert es[1..][i] == es[i + 1];
      }
      PrefixOfRecords(es[1..], rest);
    }
  }

  /** The number of the first record read is the first eight bytes. */
  lemma FirstNumber(s: Bytes)
    requires Decode(s).Record?
    ensures |s| >= 8 && Decode(s).event.seqNo == GetBE(s[..8])
  {
    assert s[0..8] == s[..8];
  }

  lemma NumberAt(e: Event)
    ensures |Encode(e)| >= 8 && Encode(e)[..8] == PutBE(e.seqNo, 8)
  {
    hide PutBE;
    EncodePieces(e);
    assert Encode(e)[..8] == Encode(e)[..HEADER][..8] == Header(e)[..8];
  }

  lemma BytesOfOne(k: nat)
    requires k < 7
    ensures PutBE(1, 8)[k] == 0
  {
    assert PutBE(0, 0) == [];
    assert PutBE(0, 1) == [0];
    assert PutBE(0, 2) == [0, 0];
    assert PutBE(0, 3) == [0, 0, 0];
    assert PutBE(0, 4) == [0, 0, 0, 0];
    assert PutBE(0, 5) == [0, 0, 0, 0, 0];
    assert PutBE(0, 6) == [0, 0, 0, 0, 0, 0];
    assert PutBE(0, 7) == [0, 0, 0, 0, 0, 0, 0];
    assert PutBE(1, 8) == PutBE(0, 7) + [1];
  }

  /** A torn record in front hides the number of the record behind it, unless it has
      the same number and enough of it is left to show that. */
  lemma TornNumber(torn: Event, n: nat, next: Event, rest: Bytes)
    requires 0 < n < |Encode(torn)| && next.seqNo == 1 && (torn.seqNo != 1 || n < 8)
    ensures var s := Encode(torn)[..n] + (Encode(next) + rest);
            |s| >= 8 && GetBE(s[..8]) != 1
  {
    hide GetBE, PutBE, Encode;
    NumberAt(torn);
    NumberAt(next);
    var s := Encode(torn)[..n] + (Encode(next) + rest);
    if n >= 8 {
      assert s[..8] == Encode(torn)[..8];
      SpanOfWidths();
      GetPut(torn.seqNo, 8);
    } else {
      assert s[7] == Encode(next)[..8][7 - n];
      BytesOfOne(7 - n);
      LastByte(s[..8]);
    }
  }

  lemma LastByte(s: Bytes)
    requires s != [] && s[|s| - 1] == 0
    ensures GetBE(s) != 1
  {
  }

  /** Where a record's time stands. */
  lemma StampAt(e: Event)
    ensures |Encode(e)| >= 17 && Encode(e)[9..17] == PutBE(Unsigned64(e.timestamp), 8)
  {
    hide PutBE;
    EncodePieces(e);
    assert Encode(e)[9..17] == Encode(e)[..HEADER][9..17] == Header(e)[9..17];
  }

  /** The kind and time of the first record read. */
  lemma FirstStamp(s: Bytes)
    requires Decode(s).Record?
    ensures |s| >= HEADER && Decode(s).event.kind == s[8]
    ensures GetBE(s[9..17]) < TWO64 && Decode(s).event.timestamp == Signed64(GetBE(s[9..17]))
  {
    GetBound(s[9..17]);
    SpanOfWidths();
  }

  lemma {:induction false} BytewiseAtMost(a: Bytes, b: Bytes)
    requires |a| == |b| && forall i | 0 <= i < |a| :: a[i] <= b[i]
    ensures GetBE(a) <= GetBE(b)
  {
    if a != [] {
      BytewiseAtMost(a[..|a| - 1], b[..|b| - 1]);
    }
  }

  /** If the torn record has number 1 too, the time read in its place is no later than
      its own. */
  lemma TornStamp(torn: Event, n: nat, next: Event, rest: Bytes)
    requires 8 < n < |Encode(torn)| && next.seqNo == 1 && torn.timestamp > 0
    ensures var s := Encode(torn)[..n] + (Encode(next) + rest);
            |s| >= 17 && GetBE(s[9..17]) <= torn.timestamp
  {
    hide GetBE, PutBE, Encode;
    NumberAt(next);
    StampAt(next);
    StampAt(torn);
    SpanOfWidths();
    var stamp := PutBE(Unsigned64(torn.timestamp), 8);
    GetPut(Unsigned64(torn.timestamp), 8);
    var s := Encode(torn)[..n] + (Encode(next) + rest);
    if n == 9 {
      assert s[9..17] == Encode(next)[..8];
      GetPut(1, 8);
    } else {
      forall i | 0 <= i < 8 ensures s[9..17][i] <= stamp[i] {
        if 9 + i < n {
          assert s[9 + i] == Encode(torn)[9..17][i];
        } else {
          assert s[9 + i] == Encode(next)[..8][9 + i - n];
          BytesOfOne(9 + i - n);
        }
      }
      BytewiseAtMost(s[9..17], stamp);
    }
  }

  lemma TornKind(torn: Event, next: Event, rest: Bytes)
    requires 8 < |Encode(torn)| && next.seqNo == 1
    ensures var s := Encode(torn)[..8] + (Encode(next) + rest); |s| > 8 && s[8] == 0
  {
    hide GetBE, PutBE, Encode;
    NumberAt(next);
    var s := Encode(torn)[..8] + (Encode(next) + rest);
    assert s[8] == Encode(next)[..8][0];
    BytesOfOne(0);
  }

  /** The torn record cannot be taken for the start of the next one: it has another
      number, or an earlier time and the next one a kind. */
  predicate TellsApart(torn: Event, next: Event) {
    torn.seqNo != 1 || (0 < torn.timestamp < next.timestamp && next.kind != 0)
  }

  /** What is read behind a torn record is not the record that was appended there. */
  lemma TornHidesNext(torn: Event, n: nat, next: Event, rest: Bytes)
    requires 0 < n < |Encode(torn)| && next.seqNo == 1 && TellsApart(torn, next)
    ensures var s := Encode(torn)[..n] + (Encode(next) + rest);
            Decode(s).Record? ==> Decode(s).event != next
  {
    hide Encode, Decode, GetBE;
    var s := Encode(torn)[..n] + (Encode(next) + rest);
    if Decode(s).Record? {
      FirstNumber(s);
      FirstStamp(s);
      if torn.seqNo != 1 || n < 8 {
        TornNumber(torn, n, next, rest);
      } else if n == 8 {
        TornKind(torn, next, rest);
      } else {
        TornStamp(torn, n, next, rest);
      }
    }
  }

  /** Behind a tear nothing is read before the tear is filled. */
  lemma TornSpans(torn: Event, n: nat, rest: Bytes)
    requires 0 < n < |Encode(torn)| && WellSized(torn) && Decode(Encode(torn)[..n] + rest).Record?
    ensures Decode(Encode(torn)[..n] + rest).size > n
  {
    hide Encode;
    var s := Encode(torn)[..n] + rest;
    var size := Decode(s).size;
    if size <= n {
      ParsePrefix(s, n);
      assert s[..n] == Encode(torn)[..n];
      DecodeTorn(torn, n);
      assert false;
    }
  }

  /** The writer numbers events from 1 again when it reopens the last segment, and
      appends behind whatever is there.  Replay then returns the old records and the
      new ones if and only if no torn record was left, be it numbered 1 itself.  If one
      was, the first new record is not read in its place: replay ends with the old
      records and all new ones are lost, unless the torn bytes and those behind them
      chance to make a whole record, which then swallows the start of the new ones. */
  lemma ReopenIsSafeIffNotTorn(kept: seq<Event>, torn: Event, n: nat, es: seq<Event>)
    requires AllWellSized(kept) && AllWellSized(es) && es != [] && es[0].seqNo == 1
    requires n < |Encode(torn)| && TellsApart(torn, es[0])
    ensures var behind := Encode(torn)[..n] + EncodeAll(es);
            var read := DecodeAll(EncodeAll(kept) + behind);
            && (read == kept + es <==> n == 0)
            && (n > 0 ==>
                  && kept <= read && !(kept + [es[0]] <= read)
                  && (read == kept <==> !Decode(behind).Record?)
                  && (WellSized(torn) && Decode(behind).Record? ==> Decode(behind).size > n))
  {
    var rest := Encode(torn)[..n] + EncodeAll(es);
    hide Encode, EncodeAll, TellsApart, Decode, WellSized;
    PrefixOfRecords(kept, rest);
    if n == 0 {
      assert rest == EncodeAll(es);
      SegmentRoundTrip(es);
    } else {
      FirstOfAll(es);
      TornHidesNext(torn, n, es[0], EncodeAll(es[1..]));
      assert (kept + DecodeAll(rest))[|kept|..] == DecodeAll(rest) && (kept + es)[|kept|..] == es;
      NotThere(kept, DecodeAll(rest), es[0]);
      if WellSized(torn) && Decode(rest).Record? {
        TornSpans(torn, n, EncodeAll(es));
      }
    }
  }

  lemma NotThere(kept: seq<Event>, more: seq<Event>, e: Event)
    requires more == [] || more[0] != e
    ensures kept <= kept + more && !(kept + [e] <= kept + more)
    ensures kept + more == kept <==> more == []
  {
    assert (kept + [e])[|kept|] == e && (more != [] ==> (kept + more)[|kept|] == more[0]);
  }

  lemma FirstOfAll(es: seq<Event>)
    requires es != []
    ensures EncodeAll(es) == Encode(es[0]) + EncodeAll(es[1..])
  {
  }

  // ---------------------------------------------------------------------------
  // Segment names
  // ---------------------------------------------------------------------------

  function Digits(n: nat, width: nat): (s: Bytes)
    ensures |s| == width
  {
    if width == 0 then [] else Digits(n / 10, width - 1) + [(48 + n % 10) as Byte]
  }

  function Width(n: nat): (w: nat)
    ensures w >= 1
  {
    if n < 10 then 1 else 1 + Width(n / 10)
  }

  /** fmt.Sprintf("%09d.log", id): padded to nine digits, longer if need be. */
  function Name(id: nat): Bytes {
    Digits(id, Padded(id)) + [46, 108, 111, 103]
  }

  function Padded(id: nat): nat {
    if Width(id) < 9 then 9 else Width(id)
  }

  function Ten(n: nat): nat { if n == 0 then 1 else 10 * Ten(n - 1) }

  lemma {:induction false} WidthBound(n: nat, w: nat)
    requires n < Ten(w) && w >= 1
    ensures Width(n) <= w
  {
    if n >= 10 {
      WidthBound(n / 10, w - 1);
    }
  }

  lemma {:induction false} LessSnoc(a: Bytes, b: Bytes, x: Bytes, y: Bytes)
    requires |a| == |b| && |x| == |y|
    ensures Less(a + x, b + y) <==> Less(a, b) || (a == b && Less(x, y))
  {
    if a == [] {
      assert a + x == x && b + y == y;
    } else {
      assert (a + x)[1..] == a[1..] + x && (b + y)[1..] == b[1..] + y;
      LessSnoc(a[1..], b[1..], x, y);
      assert a == [a[0]] + a[1..] && b == [b[0]] + b[1..];
    }
  }

  lemma {:induction false} DigitsOrder(m: nat, n: nat, width: nat)
    requires m < Ten(width) && n < Ten(width)
    ensures Less(Digits(m, width), Digits(n, width)) <==> m < n
    ensures Digits(m, width) == Digits(n, width) <==> m == n
  {
    if width > 0 {
      DigitsOrder(m / 10, n / 10, width - 1);
      var x, y := [(48 + m % 10) as Byte], [(48 + n % 10) as Byte];
      LessSnoc(Digits(m / 10, width - 1), Digits(n / 10, width - 1), x, y);
      assert Less(x, y) <==> x[0] < y[0] by {
        assert x[1..] == [] && y[1..] == [];
      }
      var s, t := Digits(m, width), Digits(n, width);
      assert s[..width - 1] == Digits(m / 10, width - 1) && t[..width - 1] == Digits(n / 10, width - 1);
      assert s[width - 1] == x[0] && t[width - 1] == y[0];
    }
  }

  lemma {:induction false} WidthFits(n: nat)
    ensures n < Ten(Width(n))
  {
    if n >= 10 {
      WidthFits(n / 10);
    }
  }

  lemma {:induction false} TenGrows(a: nat, b: nat)
    requires a <= b
    ensures 1 <= Ten(a) <= Ten(b)
    decreases b
  {
    if a < b {
      TenGrows(a, b - 1);
    } else if a > 0 {
      TenGrows(a - 1, b - 1);
    }
  }

  lemma PaddedFits(n: nat)
    ensures n < Ten(Padded(n))
  {
    WidthFits(n);
    TenGrows(Width(n), Padded(n));
  }

  /** Names of equal length are listed in the order of their numbers. */
  lemma SameWidthSorts(a: nat, b: nat)
    requires Padded(a) == Padded(b)
    ensures Less(Name(a), Name(b)) <==> a < b
  {
    hide Digits, Less, Ten, Width, Padded;
    PaddedFits(a);
    PaddedFits(b);
    DigitsOrder(a, b, Padded(a));
    var log := [46, 108, 111, 103];
    LessSnoc(Digits(a, Padded(a)), Digits(b, Padded(a)), log, log);
    LessTotal(log, log);
  }

  /** Directory order, which replay follows, is segment order up to nine digits. */
  lemma NamesSortLikeIds(a: nat, b: nat)
    requires a < 1_000_000_000 && b < 1_000_000_000
    ensures Less(Name(a), Name(b)) <==> a < b
  {
    assert Ten(9) == 1_000_000_000 by {
      assert Ten(4) == 10_000;
      assert Ten(8) == 10_000 * 10_000;
    }
    WidthBound(a, 9);
    WidthBound(b, 9);
    hide Ten, Width, Name, Less;
    SameWidthSorts(a, b);
  }

  /** The segment after number 999999999 is listed before it. */
  lemma NamesStopSorting()
    ensures Less(Name(1_000_000_000), Name(999_999_999))
  {
    assert Ten(9) == 1_000_000_000 by {
      assert Ten(4) == 10_000;
      assert Ten(8) == 10_000 * 10_000;
    }
    hide Ten, Name, Less;
    LongerIsFirst(9);
  }

  function Lead(n: nat): nat { if n < 10 then n else Lead(n / 10) }

  lemma {:induction false} LeadDigit(n: nat)
    ensures Lead(n) < 10 && Digits(n, Width(n))[0] as int == 48 + Lead(n)
  {
    if n >= 10 {
      LeadDigit(n / 10);
    } else {
      assert Digits(n, 1) == Digits(n / 10, 0) + [(48 + n % 10) as Byte];
    }
  }

  lemma FirstDigit(n: nat)
    requires Width(n) >= 9
    ensures Lead(n) < 10 && Name(n) != [] && Name(n)[0] as int == 48 + Lead(n)
  {
    LeadDigit(n);
  }

  lemma {:induction false} PowerOfTen(w: nat)
    ensures Ten(w) >= 1 && Lead(Ten(w)) == 1 && Width(Ten(w)) == w + 1
  {
    if w > 0 {
      PowerOfTen(w - 1);
      assert Ten(w) / 10 == Ten(w - 1);
    }
  }

  lemma {:induction false} Nines(w: nat)
    requires w >= 1
    ensures Ten(w) >= 10 && Lead(Ten(w) - 1) == 9 && Width(Ten(w) - 1) == w
  {
    if w > 1 {
      Nines(w - 1);
      assert (Ten(w) - 1) / 10 == Ten(w - 1) - 1;
    } else {
      assert Ten(1) == 10 * Ten(0) == 10;
    }
  }

  /** Where the names get longer, the longer one is listed first. */
  lemma LongerIsFirst(w: nat)
    requires w >= 9
    ensures Ten(w) >= 1 && Less(Name(Ten(w)), Name(Ten(w) - 1)) && !Less(Name(Ten(w) - 1), Name(Ten(w)))
  {
    hide Ten, Lead, Width, Name;
    PowerOfTen(w);
    Nines(w);
    FirstDigit(Ten(w));
    FirstDigit(Ten(w) - 1);
    LessTotal(Name(Ten(w)), Name(Ten(w) - 1));
  }

  lemma {:induction false} WidthGrows(a: nat, b: nat)
    requires a <= b
    ensures Width(a) <= Width(b)
  {
    if b >= 10 {
      WidthGrows(a / 10, b / 10);
    }
  }

  /** The segments lo to hi are listed in the order of their numbers. */
  ghost predicate RangeSorts(lo: nat, hi: nat) {
    forall a, b | lo <= a < b <= hi :: Less(Name(a), Name(b))
  }

  /** A range of segments is replayed in order if and only if its first and last names
      are equally long: up to nine digits, or of one length beyond. */
  lemma RangeSortsIff(lo: nat, hi: nat)
    requires lo <= hi
    ensures RangeSorts(lo, hi) <==> Padded(lo) == Padded(hi)
  {
    hide Name, Less, Ten, Width;
    WidthGrows(lo, hi);
    if Padded(lo) == Padded(hi) {
      forall a: nat, b: nat | lo <= a < b <= hi ensures Less(Name(a), Name(b)) {
        WidthGrows(lo, a);
        WidthGrows(a, b);
        WidthGrows(b, hi);
        SameWidthSorts(a, b);
      }
    } else {
      var w := Padded(lo);
      PaddedFits(lo);
      LongerIsFirst(w);
      if hi < Ten(w) {
        WidthBound(hi, w);
      }
      assert lo <= Ten(w) - 1 < Ten(w) <= hi;
    }
  }
}
