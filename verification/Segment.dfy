/** A segment file: a run of records, read back until the first one that does not decode. */
module Segment {
  import opened Bytes
  import opened Crc32c
  import opened Record

  function EncodeAll(es: seq<Event>): Bytes {
    if es == [] then [] else Encode(es[0]) + EncodeAll(es[1..])
  }

  /** What replayFile reads from a segment's bytes. */
  function DecodeAll(s: Bytes): seq<Event>
    decreases |s|
  {
    match Decode(s)
    case Record(e, n) => [e] + DecodeAll(s[n..])
    case EndOfInput => []
    case Corrupted(_) => []
  }

  ghost predicate AllWellSized(es: seq<Event>) {
    forall i :: 0 <= i < |es| ==> WellSized(es[i])
  }

  /** How many records of es lie wholly inside the first n bytes. */
  function Whole(es: seq<Event>, n: nat): (k: nat)
    ensures k <= |es|
  {
    if es == [] || |Encode(es[0])| > n then 0
    else 1 + Whole(es[1..], n - |Encode(es[0])|)
  }

  lemma {:induction false} EncodeAllAppend(a: seq<Event>, b: seq<Event>)
    ensures EncodeAll(a + b) == EncodeAll(a) + EncodeAll(b)
  {
    hide Encode;
    if a == [] {
      assert a + b == b;
    } else {
      assert (a + b)[1..] == a[1..] + b;
      EncodeAllAppend(a[1..], b);
    }
  }

  lemma EncodeAllSnoc(a: seq<Event>, e: Event)
    ensures EncodeAll(a + [e]) == EncodeAll(a) + Encode(e)
  {
    hide Encode;
    EncodeAllAppend(a, [e]);
    assert EncodeAll([e]) == Encode(e) + EncodeAll([e][1..]) == Encode(e);
  }

  /** Whole counts exactly the records that fit: k is the largest number of
      leading records whose encoding is no longer than n bytes. */
  lemma {:induction false} WholeIsLargest(es: seq<Event>, n: nat, k: nat)
    requires k <= |es|
    ensures |EncodeAll(es[..k])| <= n <==> k <= Whole(es, n)
  {
    hide Encode;
    if k > 0 {
      assert es[..k][0] == es[0] && es[..k][1..] == es[1..][..k - 1];
      var len := |Encode(es[0])|;
      if len <= n {
        WholeIsLargest(es[1..], n - len, k - 1);
      }
    }
  }

  /** Any byte prefix of a segment replays exactly the records wholly inside it. */
  lemma {:induction false} PrefixReplays(es: seq<Event>, n: nat)
    requires AllWellSized(es) && n <= |EncodeAll(es)|
    ensures DecodeAll(EncodeAll(es)[..n]) == es[..Whole(es, n)]
    decreases |es|
  {
    hide Encode, Decode, WellSized;
    if es == [] {
      DecodeNothing();
    } else {
      var s, first := EncodeAll(es), Encode(es[0]);
      assert WellSized(es[0]);
      if |first| > n {
        assert s[..n] == first[..n];
        DecodeTorn(es[0], n);
      } else {
        var rest := EncodeAll(es[1..])[..n - |first|];
        assert s[..n] == first + rest;
        DecodeEncode(es[0], rest);
        assert s[..n][|first|..] == rest;
        forall i | 0 <= i < |es[1..]| ensures WellSized(es[1..][i]) {
          assert es[1..][i] == es[i + 1];
        }
        PrefixReplays(es[1..], n - |first|);
        var k := Whole(es[1..], n - |first|);
        assert [es[0]] + es[1..][..k] == es[..k + 1];
      }
    }
  }

  lemma DecodeNothing()
    ensures Decode([]) == EndOfInput
  {
  }

  /** A complete segment replays as the events written to it. */
  lemma SegmentRoundTrip(es: seq<Event>)
    requires AllWellSized(es)
    ensures DecodeAll(EncodeAll(es)) == es
  {
    var s := EncodeAll(es);
    PrefixReplays(es, |s|);
    assert s[..|s|] == s && es[..|es|] == es;
    WholeIsLargest(es, |s|, |es|);
  }

  /** Torn segments replay a prefix of what was written, and every prefix whose
      bytes survived in full is kept. */
  lemma TornSegmentReplays(es: seq<Event>, s: Bytes, kept: nat)
    requires AllWellSized(es) && s <= EncodeAll(es)
    requires kept <= |es| && |EncodeAll(es[..kept])| <= |s|
    ensures es[..kept] <= DecodeAll(s) <= es
  {
    hide EncodeAll, DecodeAll, Whole, WellSized;
    PrefixReplays(es, |s|);
    assert EncodeAll(es)[..|s|] == s;
    WholeIsLargest(es, |s|, kept);
  }

  /** An index entry holds the offset at which the record it names decodes. */
  lemma IndexOffset(es: seq<Event>, i: nat)
    requires AllWellSized(es) && i < |es|
    ensures var at := |EncodeAll(es[..i])|;
            at <= |EncodeAll(es)| &&
            Decode(EncodeAll(es)[at..]) == Record(es[i], |Encode(es[i])|)
  {
    hide Encode, Decode, WellSized;
    assert es == es[..i] + es[i..];
    EncodeAllAppend(es[..i], es[i..]);
    var at := |EncodeAll(es[..i])|;
    assert EncodeAll(es)[at..] == EncodeAll(es[i..]);
    assert es[i..][0] == es[i];
    DecodeEncode(es[i], EncodeAll(es[i..][1..]));
  }

  // ---------------------------------------------------------------------------
  // The reader: one pass over the stream with a running checksum
  // ---------------------------------------------------------------------------

  class Reader {
    const data: Bytes
    var pos: nat

    ghost predicate Valid()
      reads this
    {
      pos <= |data|
    }

    function Rest(): Bytes
      requires Valid()
      reads this
    {
      data[pos..]
    }

    constructor (data: Bytes)
      ensures Valid() && this.data == data && pos == 0
    {
      this.data := data;
      pos := 0;
    }

    /** io.ReadFull: all n bytes or an error. */
    method ReadFull(n: nat) returns (r: Option<Bytes>)
      requires Valid()
      modifies this`pos
      ensures Valid()
      ensures if n <= |old(Rest())|
              then r == Some(old(Rest())[..n]) && pos == old(pos) + n
              else r == None && pos == |data|
    {
      if pos + n <= |data| {
        r := Some(data[pos..pos + n]);
        assert data[pos..][..n] == data[pos..pos + n];
        pos := pos + n;
      } else {
        r := None;
        pos := |data|;
      }
    }
  }

  datatype FieldRun = FieldRun(fields: seq<Bytes>, end: nat)

  /** The first i string fields and where they end. */
  ghost function Fields(s: Bytes, i: nat): (r: Option<FieldRun>)
    ensures r.Some? ==> |r.value.fields| == i && r.value.end <= |s|
  {
    if i == 0 then (if HEADER <= |s| then Some(FieldRun([], HEADER)) else None)
    else
      var r := Fields(s, i - 1);
      if r.None? then None
      else
        var end := RunEnd(s, r.value.end, 2);
        if end.None? then None
        else Some(FieldRun(r.value.fields + [s[r.value.end + 2..end.value]], end.value))
  }

  lemma {:induction false} FieldsStop(s: Bytes, i: nat, j: nat)
    requires i <= j && Fields(s, i).None?
    ensures Fields(s, j).None?
    decreases j - i
  {
    if i < j {
      FieldsStop(s, i + 1, j);
    }
  }

  lemma FieldsStep(s: Bytes, i: nat)
    requires Fields(s, i).Some?
    ensures var r := Fields(s, i).value;
            var end := RunEnd(s, r.end, 2);
            Fields(s, i + 1) == if end.None? then None
                                else Some(FieldRun(r.fields + [s[r.end + 2..end.value]], end.value))
  {
  }

  lemma ParseStops(s: Bytes)
    requires Fields(s, 4).None?
    ensures Parse(s) == None
  {
    hide RunEnd, Fields;
    if HEADER <= |s| {
      FieldsStart(s);
      FieldsStep(s, 0);
      if Fields(s, 1).Some? {
        FieldsStep(s, 1);
        if Fields(s, 2).Some? {
          FieldsStep(s, 2);
          if Fields(s, 3).Some? {
            FieldsStep(s, 3);
          }
        }
      }
    }
  }

  lemma FieldsStart(s: Bytes)
    requires HEADER <= |s|
    ensures Fields(s, 0) == Some(FieldRun([], HEADER))
  {
  }

  /** The four fields are the four runs that Parse steps over. */
  lemma FieldsAreRuns(s: Bytes) returns (p1: nat, p2: nat, p3: nat)
    requires Fields(s, 4).Some?
    ensures HEADER <= |s| && RunEnd(s, HEADER, 2) == Some(p1)
    ensures RunEnd(s, p1, 2) == Some(p2) && RunEnd(s, p2, 2) == Some(p3)
    ensures RunEnd(s, p3, 2) == Some(Fields(s, 4).value.end)
    ensures Fields(s, 4).value.fields
         == [s[HEADER + 2..p1], s[p1 + 2..p2], s[p2 + 2..p3], s[p3 + 2..Fields(s, 4).value.end]]
  {
    hide RunEnd;
    p3 := Fields(s, 3).value.end;
    p2 := Fields(s, 2).value.end;
    p1 := Fields(s, 1).value.end;
    assert Fields(s, 0) == Some(FieldRun([], HEADER));
    hide Fields;
    FieldsStep(s, 0);
    FieldsStep(s, 1);
    FieldsStep(s, 2);
    FieldsStep(s, 3);
  }

  lemma ParseGoesOn(s: Bytes)
    requires Fields(s, 4).Some?
    ensures var fs, p4 := Fields(s, 4).value.fields, Fields(s, 4).value.end;
            var p5 := RunEnd(s, p4, 4);
            if p5.None? || p5.value + 4 > |s| then Parse(s) == None
            else
              Parse(s).Some? && Parse(s).value.p4 == p4 && Parse(s).value.p5 == p5.value &&
              var e := Extract(s, Parse(s).value);
              e.namespace == fs[0] && e.queue == fs[1] && e.group == fs[2] && e.msgID == fs[3]
  {
    hide RunEnd, SeqOf, TimestampOf, Fields;
    var p1, p2, p3 := FieldsAreRuns(s);
  }

  lemma ChecksumGrows(s: Bytes, at: nat, n: nat)
    requires at + n <= |s|
    ensures Update(Checksum(s[..at]), s[at..at + n]) == Checksum(s[..at + n])
  {
    hide Update;
    UpdateAppend(0, s[..at], s[at..at + n]);
    assert s[..at] + s[at..at + n] == s[..at + n];
  }

  lemma Slices(s: Bytes, at: nat, n: nat)
    requires at + n <= |s|
    ensures s[at..][..n] == s[at..at + n]
  {
  }

  lemma RunSplits(s: Bytes, at: nat, width: nat)
    requires at + width <= |s|
    ensures s[at..][..width] == s[at..at + width]
    ensures var n := GetBE(s[at..at + width]);
            RunEnd(s, at, width) == if at + width + n <= |s| then Some(at + width + n) else None
  {
    hide GetBE;
  }

  /** Reads one length-prefixed run and carries the checksum over it. */
  method ReadRun(reader: Reader, width: nat, crc: bv32, ghost s: Bytes, ghost at: nat)
    returns (run: Option<Bytes>, crc': bv32)
    requires reader.Valid() && at <= |s| && reader.Rest() == s[at..] && crc == Checksum(s[..at])
    modifies reader`pos
    ensures reader.Valid()
    ensures var end := RunEnd(s, at, width);
            if end.None? then run == None
            else run == Some(s[at + width..end.value]) && crc' == Checksum(s[..end.value]) &&
                 reader.Rest() == s[end.value..] && reader.pos == old(reader.pos) + end.value - at
  {
    hide GetBE, Checksum, Update;
    crc' := crc;
    var lenBuf := reader.ReadFull(width);
    if lenBuf.None? {
      return None, crc;
    }
    RunSplits(s, at, width);
    hide RunEnd;
    var n := GetBE(lenBuf.value);
    ChecksumGrows(s, at, width);
    crc' := Update(crc, lenBuf.value);
    assert reader.Rest() == s[at + width..];
    run := reader.ReadFull(n);
    if run.None? {
      return None, crc';
    }
    ChecksumGrows(s, at + width, n);
    Slices(s, at + width, n);
    crc' := Update(crc', run.value);
    assert reader.Rest() == s[at + width + n..];
  }

  /** The four string fields, checksum running. */
  method ReadFields(reader: Reader, crc0: bv32, ghost s: Bytes) returns (fields: Option<seq<Bytes>>, crc: bv32)
    requires reader.Valid() && |s| >= HEADER && reader.Rest() == s[HEADER..] && crc0 == Checksum(s[..HEADER])
    modifies reader`pos
    ensures reader.Valid()
    ensures var r := Fields(s, 4);
            if r.None? then fields == None
            else fields == Some(r.value.fields) && crc == Checksum(s[..r.value.end]) &&
                 reader.Rest() == s[r.value.end..] && reader.pos == old(reader.pos) + r.value.end - HEADER
  {
    hide Checksum, RunEnd;
    var got: seq<Bytes> := [];
    ghost var at := HEADER;
    crc := crc0;
    for i := 0 to 4
      invariant reader.Valid() && Fields(s, i) == Some(FieldRun(got, at))
      invariant reader.Rest() == s[at..] && reader.pos == old(reader.pos) + at - HEADER
      invariant crc == Checksum(s[..at])
    {
      var f, c := ReadRun(reader, 2, crc, s, at);
      if f.None? {
        FieldsStop(s, i + 1, 4);
        return None, crc;
      }
      got := got + [f.value];
      at := Fields(s, i + 1).value.end;
      crc := c;
    }
    fields := Some(got);
  }

  /** storage.ReadEvent. */
  method ReadEvent(reader: Reader) returns (r: ReadResult)
    requires reader.Valid()
    modifies reader`pos
    ensures reader.Valid()
    ensures r == Decode(old(reader.Rest()))
    ensures r.Record? ==> reader.pos == old(reader.pos) + r.size
  {
    hide GetBE, Checksum, Update, RunEnd, PutCrc, SeqOf, TimestampOf;
    ghost var s := reader.Rest();
    var start := reader.pos;
    var header := reader.ReadFull(HEADER);
    if header.None? {
      return EndOfInput;
    }
    hide Parse, Fields;
    ChecksumOfHeader(s);
    var fields, crc := ReadFields(reader, Update(0, header.value), s);
    if fields.None? {
      ParseStops(s);
      return EndOfInput;
    }
    ParseGoesOn(s);
    ghost var p4 := Fields(s, 4).value.end;
    var payload, crc' := ReadRun(reader, 4, crc, s, p4);
    if payload.None? {
      return EndOfInput;
    }
    var footer := reader.ReadFull(4);
    if footer.None? {
      return EndOfInput;
    }
    HeaderOfPrefix(s);
    assert footer.value == s[reader.pos - start - 4..reader.pos - start];
    if footer.value != PutCrc(crc') {
      return Corrupted(SeqOf(header.value));
    }
    r := Record(Event(header.value[8], fields.value[0], fields.value[1], fields.value[2], fields.value[3], payload.value,
                      SeqOf(header.value), TimestampOf(header.value)),
                reader.pos - start);
  }

  lemma HeaderOfPrefix(s: Bytes)
    requires |s| >= HEADER
    ensures SeqOf(s[..HEADER]) == SeqOf(s) && TimestampOf(s[..HEADER]) == TimestampOf(s)
    ensures s[..HEADER][8] == s[8]
  {
    assert s[..HEADER][0..8] == s[0..8] && s[..HEADER][9..17] == s[9..17];
  }

  lemma ChecksumOfHeader(s: Bytes)
    requires |s| >= HEADER
    ensures Update(0, s[..HEADER]) == Checksum(s[..HEADER])
  {
  }
}
