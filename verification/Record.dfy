/** The write-ahead-log record: encoding, decoding, truncation and corruption. */
module Record {
  import opened Bytes
  import opened Crc32c

  const PUBLISH: Byte := 0x01
  const LEASE: Byte := 0x02
  const ACK: Byte := 0x03
  const NACK: Byte := 0x04
  const EXPIRE: Byte := 0x05

  type UInt64 = v: nat | v < TWO64

  datatype Event = Event(
    kind: Byte,
    namespace: Bytes,
    queue: Bytes,
    group: Bytes,
    msgID: Bytes,
    payload: Bytes,
    seqNo: UInt64,
    timestamp: Int64
  )

  // ---------------------------------------------------------------------------
  // Encoding
  // ---------------------------------------------------------------------------

  const HEADER: nat := 21

  /** seq, type and timestamp; the last four header bytes stay zero. */
  function Header(e: Event): (s: Bytes)
    ensures |s| == HEADER
  {
    PutBE(e.seqNo, 8) + [e.kind] + PutBE(Unsigned64(e.timestamp), 8) + [0, 0, 0, 0]
  }

  /** A two-byte length and the field; a longer field loses its high length bits. */
  function Field(f: Bytes): (s: Bytes)
    ensures |s| == 2 + |f|
  {
    PutBE(|f|, 2) + f
  }

  function Body(e: Event): Bytes {
    Header(e) + Field(e.namespace) + Field(e.queue) + Field(e.group) + Field(e.msgID)
    + PutBE(|e.payload|, 4) + e.payload
  }

  function Encode(e: Event): Bytes {
    Body(e) + PutCrc(Checksum(Body(e)))
  }

  function Size(e: Event): nat {
    HEADER + 2 + |e.namespace| + 2 + |e.queue| + 2 + |e.group| + 2 + |e.msgID| + 4 + |e.payload| + 4
  }

  lemma EncodeSize(e: Event)
    ensures |Encode(e)| == Size(e)
  {
  }

  /** Every length fits the bytes reserved for it. */
  predicate WellSized(e: Event) {
    |e.namespace| < 0x1_0000 && |e.queue| < 0x1_0000 && |e.group| < 0x1_0000 && |e.msgID| < 0x1_0000 &&
    |e.payload| < 0x1_0000_0000
  }

  // ---------------------------------------------------------------------------
  // Decoding
  // ---------------------------------------------------------------------------

  /** Where the four fields and the payload end. */
  datatype Layout = Layout(p1: nat, p2: nat, p3: nat, p4: nat, p5: nat)

  /** The end of the length-prefixed run at `at`, or None if the input ends first. */
  function RunEnd(s: Bytes, at: nat, width: nat): (r: Option<nat>)
    ensures r.Some? ==> at + width <= r.value <= |s|
  {
    if at + width > |s| then None
    else
      var end := at + width + GetBE(s[at..at + width]);
      if end > |s| then None else Some(end)
  }

  /** The record's layout, or None if the input ends inside the record. */
  function Parse(s: Bytes): (r: Option<Layout>)
    ensures r.Some? ==>
      var l := r.value;
      HEADER + 2 <= l.p1 && l.p1 + 2 <= l.p2 && l.p2 + 2 <= l.p3 && l.p3 + 2 <= l.p4 &&
      l.p4 + 4 <= l.p5 && l.p5 + 4 <= |s|
  {
    if HEADER > |s| then None else
    var r1 := RunEnd(s, HEADER, 2);
    if r1.None? then None else
    var r2 := RunEnd(s, r1.value, 2);
    if r2.None? then None else
    var r3 := RunEnd(s, r2.value, 2);
    if r3.None? then None else
    var r4 := RunEnd(s, r3.value, 2);
    if r4.None? then None else
    var r5 := RunEnd(s, r4.value, 4);
    if r5.None? then None else
    if r5.value + 4 > |s| then None else
    Some(Layout(r1.value, r2.value, r3.value, r4.value, r5.value))
  }

  datatype ReadResult =
    | Record(event: Event, size: nat)
    | EndOfInput                       // io.EOF and io.ErrUnexpectedEOF: the caller stops on either
    | Corrupted(seqNo: nat)

  function SeqOf(s: Bytes): (v: UInt64)
    requires |s| >= HEADER
  {
    GetBound(s[0..8]);
    SpanOfWidths();
    GetBE(s[0..8])
  }

  function TimestampOf(s: Bytes): Int64
    requires |s| >= HEADER
  {
    GetBound(s[9..17]);
    SpanOfWidths();
    Signed64(GetBE(s[9..17]))
  }

  function Extract(s: Bytes, l: Layout): Event
    requires Parse(s) == Some(l)
  {
    Event(s[8], s[HEADER + 2..l.p1], s[l.p1 + 2..l.p2], s[l.p2 + 2..l.p3], s[l.p3 + 2..l.p4],
          s[l.p4 + 4..l.p5], SeqOf(s), TimestampOf(s))
  }

  function Decode(s: Bytes): (r: ReadResult)
    ensures r.Record? ==> HEADER < r.size <= |s|
  {
    match Parse(s)
    case None => EndOfInput
    case Some(l) =>
      if s[l.p5..l.p5 + 4] != PutCrc(Checksum(s[..l.p5])) then Corrupted(SeqOf(s))
      else Record(Extract(s, l), l.p5 + 4)
  }

  // ---------------------------------------------------------------------------
  // Decoding undoes encoding
  // ---------------------------------------------------------------------------

  /** Only the bytes of the record matter: a longer input parses the same way,
      a shorter one does not parse. */
  lemma ParsePrefix(s: Bytes, n: nat)
    requires n <= |s| && Parse(s).Some?
    ensures var l := Parse(s).value;
            Parse(s[..n]) == if n >= l.p5 + 4 then Some(l) else None
  {
    hide GetBE;
    var t, l := s[..n], Parse(s).value;
    RunEndPrefix(s, n, HEADER, 2);
    RunEndPrefix(s, n, l.p1, 2);
    RunEndPrefix(s, n, l.p2, 2);
    RunEndPrefix(s, n, l.p3, 2);
    RunEndPrefix(s, n, l.p4, 4);
  }

  lemma RunEndPrefix(s: Bytes, n: nat, at: nat, width: nat)
    requires n <= |s| && RunEnd(s, at, width).Some?
    ensures RunEnd(s[..n], at, width)
         == if n >= RunEnd(s, at, width).value then RunEnd(s, at, width) else None
  {
    hide GetBE;
    if at + width <= n {
      assert s[..n][at..at + width] == s[at..at + width];
    }
  }

  function LayoutOf(e: Event): Layout {
    var p1 := HEADER + 2 + |e.namespace|;
    var p2 := p1 + 2 + |e.queue|;
    var p3 := p2 + 2 + |e.group|;
    var p4 := p3 + 2 + |e.msgID|;
    Layout(p1, p2, p3, p4, p4 + 4 + |e.payload|)
  }

  lemma RunAt(s: Bytes, at: nat, f: Bytes, width: nat)
    requires |f| < Span(width)
    requires at + width + |f| <= |s| && s[at..at + width + |f|] == PutBE(|f|, width) + f
    ensures RunEnd(s, at, width) == Some(at + width + |f|)
    ensures s[at + width..at + width + |f|] == f
  {
    hide GetBE, PutBE, Span;
    var run := s[at..at + width + |f|];
    assert s[at..at + width] == run[..width] == PutBE(|f|, width);
    assert s[at + width..at + width + |f|] == run[width..];
    GetPut(|f|, width);
  }

  /** Where the pieces of an encoded record lie. */
  lemma EncodePieces(e: Event)
    ensures var s, l := Encode(e), LayoutOf(e);
            |s| == l.p5 + 4 && s[..HEADER] == Header(e) &&
            s[HEADER..l.p1] == Field(e.namespace) && s[l.p1..l.p2] == Field(e.queue) &&
            s[l.p2..l.p3] == Field(e.group) && s[l.p3..l.p4] == Field(e.msgID) &&
            s[l.p4..l.p5] == PutBE(|e.payload|, 4) + e.payload &&
            s[..l.p5] == Body(e) && s[l.p5..] == PutCrc(Checksum(Body(e)))
  {
    hide PutBE, Checksum, PutCrc, Header, Field;
    var l := LayoutOf(e);
    var a := Header(e) + Field(e.namespace);
    var b := a + Field(e.queue);
    var c := b + Field(e.group);
    var d := c + Field(e.msgID);
    assert Body(e) == d + (PutBE(|e.payload|, 4) + e.payload);
    assert Encode(e)[..l.p5] == Body(e);
    assert Body(e)[..l.p4] == d;
    assert d[..l.p3] == c;
    assert c[..l.p2] == b;
    assert b[..l.p1] == a;
  }

  lemma EncodeRuns(e: Event)
    requires WellSized(e)
    ensures var s, l := Encode(e), LayoutOf(e);
            RunEnd(s, HEADER, 2) == Some(l.p1) && s[HEADER + 2..l.p1] == e.namespace &&
            RunEnd(s, l.p1, 2) == Some(l.p2) && s[l.p1 + 2..l.p2] == e.queue &&
            RunEnd(s, l.p2, 2) == Some(l.p3) && s[l.p2 + 2..l.p3] == e.group &&
            RunEnd(s, l.p3, 2) == Some(l.p4) && s[l.p3 + 2..l.p4] == e.msgID &&
            RunEnd(s, l.p4, 4) == Some(l.p5) && s[l.p4 + 4..l.p5] == e.payload
  {
    var s, l := Encode(e), LayoutOf(e);
    SpanOfWidths();
    EncodePieces(e);
    hide PutBE, Span, Encode, RunEnd, Header, Body, Checksum, PutCrc;
    RunAt(s, HEADER, e.namespace, 2);
    RunAt(s, l.p1, e.queue, 2);
    RunAt(s, l.p2, e.group, 2);
    RunAt(s, l.p3, e.msgID, 2);
    RunAt(s, l.p4, e.payload, 4);
  }

  lemma ParseEncode(e: Event)
    requires WellSized(e)
    ensures Parse(Encode(e)) == Some(LayoutOf(e))
    ensures Extract(Encode(e), LayoutOf(e)) == e
  {
    hide RunEnd, Encode, SeqOf, TimestampOf;
    var s := Encode(e);
    EncodeSize(e);
    EncodeRuns(e);
    EncodeHeader(e);
  }

  lemma EncodeHeader(e: Event)
    ensures |Encode(e)| >= HEADER
    ensures SeqOf(Encode(e)) == e.seqNo && TimestampOf(Encode(e)) == e.timestamp && Encode(e)[8] == e.kind
  {
    hide Header, SeqOf, TimestampOf, Body, Checksum, PutCrc;
    var s := Encode(e);
    EncodePieces(e);
    assert s == Header(e) + s[HEADER..];
    HeaderFields(e, s[HEADER..]);
  }

  lemma HeaderFields(e: Event, rest: Bytes)
    ensures SeqOf(Header(e) + rest) == e.seqNo
    ensures TimestampOf(Header(e) + rest) == e.timestamp
    ensures (Header(e) + rest)[8] == e.kind
  {
    var s := Header(e) + rest;
    SpanOfWidths();
    assert s[0..8] == PutBE(e.seqNo, 8);
    assert s[9..17] == PutBE(Unsigned64(e.timestamp), 8);
    GetPut(e.seqNo, 8);
    GetPut(Unsigned64(e.timestamp), 8);
  }

  /** A record reads back as itself whatever follows it in the segment. */
  lemma DecodeEncode(e: Event, rest: Bytes)
    requires WellSized(e)
    ensures Decode(Encode(e) + rest) == Record(e, |Encode(e)|)
  {
    var s, l := Encode(e), LayoutOf(e);
    EncodeSize(e);
    ParseEncode(e);
    LongerInput(s, rest);
    hide Parse, Extract, Checksum, PutCrc;
    var t := s + rest;
    assert t[..l.p5] == Body(e);
    assert t[l.p5..l.p5 + 4] == PutCrc(Checksum(Body(e)));
  }

  /** Bytes after a complete record change neither its layout nor its fields. */
  lemma LongerInput(s: Bytes, rest: Bytes)
    requires Parse(s).Some? && Parse(s).value.p5 + 4 == |s|
    ensures Parse(s + rest) == Parse(s)
    ensures Extract(s + rest, Parse(s).value) == Extract(s, Parse(s).value)
  {
    var t, l := s + rest, Parse(s).value;
    RunEndLonger(s, rest, HEADER, 2);
    RunEndLonger(s, rest, l.p1, 2);
    RunEndLonger(s, rest, l.p2, 2);
    RunEndLonger(s, rest, l.p3, 2);
    RunEndLonger(s, rest, l.p4, 4);
    hide GetBE, RunEnd;
    assert t[HEADER + 2..l.p1] == s[HEADER + 2..l.p1];
    assert t[l.p1 + 2..l.p2] == s[l.p1 + 2..l.p2];
    assert t[l.p2 + 2..l.p3] == s[l.p2 + 2..l.p3];
    assert t[l.p3 + 2..l.p4] == s[l.p3 + 2..l.p4];
    assert t[l.p4 + 4..l.p5] == s[l.p4 + 4..l.p5];
    assert t[0..8] == s[0..8] && t[9..17] == s[9..17];
  }

  lemma RunEndLonger(s: Bytes, rest: Bytes, at: nat, width: nat)
    requires RunEnd(s, at, width).Some?
    ensures RunEnd(s + rest, at, width) == RunEnd(s, at, width)
  {
    hide GetBE;
    assert (s + rest)[at..at + width] == s[at..at + width];
  }

  /** A torn record never reads as a record. */
  lemma DecodeTorn(e: Event, n: nat)
    requires WellSized(e) && n < |Encode(e)|
    ensures Decode(Encode(e)[..n]) == EndOfInput
  {
    EncodeSize(e);
    ParseEncode(e);
    ParsePrefix(Encode(e), n);
  }

  /** The log promises that what was appended is what is replayed.  It is, exactly
      for the events whose lengths fit their fields. */
  lemma RoundTripIffWellSized(e: Event)
    ensures Decode(Encode(e)) == Record(e, |Encode(e)|) <==> WellSized(e)
  {
    if WellSized(e) {
      DecodeEncode(e, []);
      assert Encode(e) + [] == Encode(e);
    } else if Decode(Encode(e)).Record? {
      DecodedIsWellSized(Encode(e));
    }
  }

  lemma DecodedIsWellSized(s: Bytes)
    requires Decode(s).Record?
    ensures WellSized(Decode(s).event)
  {
    var l := Parse(s).value;
    RunBound(s, HEADER, 2);
    RunBound(s, l.p1, 2);
    RunBound(s, l.p2, 2);
    RunBound(s, l.p3, 2);
    RunBound(s, l.p4, 4);
    SpanOfWidths();
  }

  lemma RunBound(s: Bytes, at: nat, width: nat)
    requires RunEnd(s, at, width).Some?
    ensures RunEnd(s, at, width).value - at - width < Span(width)
  {
    GetBound(s[at..at + width]);
  }

  // ---------------------------------------------------------------------------
  // Corruption
  // ---------------------------------------------------------------------------

  /** True of the offsets that hold one of the five length prefixes. */
  predicate InLength(l: Layout, i: nat) {
    HEADER <= i < HEADER + 2 || l.p1 <= i < l.p1 + 2 || l.p2 <= i < l.p2 + 2 ||
    l.p3 <= i < l.p3 + 2 || l.p4 <= i < l.p4 + 4
  }

  lemma RunEndSame(s: Bytes, t: Bytes, at: nat, width: nat)
    requires |s| == |t| && RunEnd(s, at, width).Some?
    requires forall i :: at <= i < at + width ==> s[i] == t[i]
    ensures RunEnd(t, at, width) == RunEnd(s, at, width)
  {
    hide GetBE;
    assert t[at..at + width] == s[at..at + width];
  }

  lemma SameLengthsSameLayout(s: Bytes, t: Bytes)
    requires |s| == |t| && Parse(s).Some?
    requires forall i :: 0 <= i < |s| && InLength(Parse(s).value, i) ==> s[i] == t[i]
    ensures Parse(t) == Parse(s)
  {
    var l := Parse(s).value;
    hide RunEnd;
    RunEndSame(s, t, HEADER, 2);
    RunEndSame(s, t, l.p1, 2);
    RunEndSame(s, t, l.p2, 2);
    RunEndSame(s, t, l.p3, 2);
    RunEndSame(s, t, l.p4, 4);
  }

  lemma ChecksumOfDamage(s: Bytes, i: nat, b: Byte)
    requires i < |s| && b != s[i]
    ensures PutCrc(Checksum(s[i := b])) != PutCrc(Checksum(s))
  {
    hide Checksum, PutCrc;
    var pre, post := s[..i], s[i + 1..];
    assert s == pre + [s[i]] + post && s[i := b] == pre + [b] + post;
    ByteDetected(pre, s[i], b, post);
    if PutCrc(Checksum(s[i := b])) == PutCrc(Checksum(s)) {
      PutCrcInjective(Checksum(s[i := b]), Checksum(s));
    }
  }

  /** A sealed string: its last four bytes are the checksum of the rest. */
  predicate Sealed(s: Bytes, n: nat) {
    |s| == n + 4 && s[n..] == PutCrc(Checksum(s[..n]))
  }

  lemma EncodeSealed(e: Event)
    ensures |Encode(e)| == LayoutOf(e).p5 + 4 && Sealed(Encode(e), LayoutOf(e).p5)
  {
    EncodePieces(e);
  }

  lemma DamageBreaksSeal(s: Bytes, n: nat, i: nat, b: Byte)
    requires Sealed(s, n) && i < |s| && b != s[i]
    ensures !Sealed(s[i := b], n)
  {
    hide Checksum, PutCrc;
    var t := s[i := b];
    if i < n {
      assert t[n..] == s[n..];
      assert t[..n] == s[..n][i := b];
      ChecksumOfDamage(s[..n], i, b);
    } else {
      assert t[..n] == s[..n];
      assert t[n..][i - n] != s[n..][i - n];
    }
  }

  lemma DecodeUnsealed(s: Bytes, rest: Bytes, l: Layout)
    requires Parse(s) == Some(l) && l.p5 + 4 == |s| && !Sealed(s, l.p5)
    ensures Decode(s + rest).Corrupted?
  {
    LongerInput(s, rest);
    hide Parse, Checksum, PutCrc, Extract, SeqOf;
    var t := s + rest;
    assert t[..l.p5] == s[..l.p5] && t[l.p5..l.p5 + 4] == s[l.p5..];
  }

  /** Damage to one byte of a record, outside its length prefixes, is always
      reported: the reader never hands on an altered event. */
  lemma DamageIsReported(e: Event, rest: Bytes, i: nat, b: Byte)
    requires WellSized(e)
    requires i < |Encode(e)| && !InLength(LayoutOf(e), i) && b != Encode(e)[i]
    ensures Decode((Encode(e) + rest)[i := b]).Corrupted?
  {
    hide Parse, Extract, Encode, LayoutOf, Decode, Sealed;
    var s, l := Encode(e), LayoutOf(e);
    var t := s[i := b];
    ParseEncode(e);
    EncodeSealed(e);
    SameLengthsSameLayout(s, t);
    DamageBreaksSeal(s, l.p5, i, b);
    DecodeUnsealed(t, rest, l);
    assert (s + rest)[i := b] == t + rest;
  }

  // ---------------------------------------------------------------------------
  // The bytes on disk
  // ---------------------------------------------------------------------------

  lemma SampleHeader(e: Event)
    requires e.seqNo == 1 && e.timestamp == 2
    ensures Header(e) == [0, 0, 0, 0, 0, 0, 0, 1] + [e.kind] + [0, 0, 0, 0, 0, 0, 0, 2] + [0, 0, 0, 0]
  {
    PutSmall(1);
    PutSmall(2);
    hide PutBE;
  }

  lemma SampleField(b: Byte)
    ensures Field([b]) == [0, 1, b] && PutBE(1, 4) + [b] == [0, 0, 0, 1, b]
  {
    PutSmall(1);
    hide PutBE;
  }

  /** A record of any kind, byte by byte: number 1 at time 2 in namespace "n", queue "q",
      group "g", message "m" with payload "p". */
  lemma SampleRecord(kind: Byte)
    ensures var body := [0, 0, 0, 0, 0, 0, 0, 1] + [kind] + [0, 0, 0, 0, 0, 0, 0, 2] + [0, 0, 0, 0]
                      + [0, 1, 110] + [0, 1, 113] + [0, 1, 103] + [0, 1, 109] + [0, 0, 0, 1, 112];
            Encode(Event(kind, [110], [113], [103], [109], [112], 1, 2)) == body + PutCrc(Checksum(body))
    ensures PUBLISH == 1 && LEASE == 2 && ACK == 3 && NACK == 4 && EXPIRE == 5
  {
    var e := Event(kind, [110], [113], [103], [109], [112], 1, 2);
    SampleHeader(e);
    SampleField(110);
    SampleField(113);
    SampleField(103);
    SampleField(109);
    SampleField(112);
    hide PutBE, Checksum, PutCrc, Header, Field;
    var names := Header(e) + Field([110]) + Field([113]) + Field([103]) + Field([109]);
    assert names + PutBE(1, 4) + [112] == names + (PutBE(1, 4) + [112]);
  }
}
