/** The binary wire protocol: a type byte, a 32-bit length and the frame's fields. */
module Frames {
  import opened Bytes

  const HEADER_SIZE := 5
  const MAX_PAYLOAD := 0x100_0000      // 16 MiB
  const MAX_IDENT := 1024

  type Word = n: nat | n < TWO32
  type Long = n: nat | n < TWO64

  datatype Frame =
    | Connect(username: Bytes, password: Bytes, apiKey: Bytes, token: Bytes, namespace: Bytes)
    | ConnectOK(sessionID: Bytes)
    | ConnectErr(reason: Bytes)
    | Publish(queue: Bytes, group: Bytes, payload: Bytes)
    | PublishOK(msgID: Bytes, offset: Long)
    | Subscribe(queue: Bytes, group: Bytes)
    | Message(msgID: Bytes, queue: Bytes, group: Bytes, payload: Bytes, attempts: Int32)
    | Ack(msgID: Bytes, queue: Bytes, group: Bytes)
    | Nack(msgID: Bytes, queue: Bytes, group: Bytes, reason: Bytes)
    | Error(code: Word, message: Bytes)
    | Backpressure(reason: Bytes, retryAfter: Word)
    | Heartbeat

  // ---------------------------------------------------------------------------
  // Fields
  // ---------------------------------------------------------------------------

  datatype Field = Str(s: Bytes) | Blob(b: Bytes) | U32(n: Word) | U64(v: Long)
  datatype Kind = AStr | ABlob | AU32 | AU64

  function KindOf(f: Field): Kind {
    match f
    case Str(_) => AStr
    case Blob(_) => ABlob
    case U32(_) => AU32
    case U64(_) => AU64
  }

  /** The writer's bytes for a field; a length too large for its prefix is cut. */
  function PutField(f: Field): Bytes {
    match f
    case Str(s) => PutBE(|s|, 2) + s
    case Blob(b) => PutBE(|b|, 4) + b
    case U32(n) => PutBE(n, 4)
    case U64(v) => PutBE(v, 8)
  }

  function PutFields(fs: seq<Field>): Bytes {
    if fs == [] then [] else PutField(fs[0]) + PutFields(fs[1..])
  }

  predicate Fits(f: Field) {
    (f.Str? ==> |f.s| < 0x1_0000) && (f.Blob? ==> |f.b| < TWO32)
  }

  datatype Taken = Taken(field: Field, pos: nat)

  /** A length-prefixed run at pos, empty if cut short.  A prefix without its run is
      consumed all the same. */
  function TakeRun(buf: Bytes, pos: nat, width: nat): (r: (Bytes, nat)) {
    if pos + width > |buf| then ([], pos)
    else TakeBytes(buf, pos + width, GetBE(buf[pos..pos + width]))
  }

  /** n bytes from start on, or none if they are not all there. */
  function TakeBytes(buf: Bytes, start: nat, n: nat): (r: (Bytes, nat)) {
    if start + n > |buf| then ([], start) else (buf[start..start + n], start + n)
  }

  function TakeNumber(buf: Bytes, pos: nat, width: nat): (r: (nat, nat))
    ensures r.0 < Span(width)
  {
    if pos + width > |buf| then (0, pos)
    else
      GetBound(buf[pos..pos + width]);
      (GetBE(buf[pos..pos + width]), pos + width)
  }

  /** The reader: errors are ignored, a missing field reads as empty or zero. */
  function TakeField(k: Kind, buf: Bytes, pos: nat): (r: Taken)
    ensures KindOf(r.field) == k
  {
    match k
    case AStr => var (s, next) := TakeRun(buf, pos, 2); Taken(Str(s), next)
    case ABlob => var (b, next) := TakeRun(buf, pos, 4); Taken(Blob(b), next)
    case AU32 =>
      SpanOfWidths();
      var (n, next) := TakeNumber(buf, pos, 4); Taken(U32(n), next)
    case AU64 =>
      SpanOfWidths();
      var (v, next) := TakeNumber(buf, pos, 8); Taken(U64(v), next)
  }

  function TakeFields(ks: seq<Kind>, buf: Bytes, pos: nat): (fs: seq<Field>)
    ensures |fs| == |ks| && forall i :: 0 <= i < |ks| ==> KindOf(fs[i]) == ks[i]
  {
    if ks == [] then []
    else
      var t := TakeField(ks[0], buf, pos);
      [t.field] + TakeFields(ks[1..], buf, t.pos)
  }

  // ---------------------------------------------------------------------------
  // Frames as fields
  // ---------------------------------------------------------------------------

  function Code(f: Frame): Byte {
    match f
    case Connect(_, _, _, _, _) => 0x01
    case ConnectOK(_) => 0x02
    case ConnectErr(_) => 0x03
    case Publish(_, _, _) => 0x10
    case PublishOK(_, _) => 0x11
    case Subscribe(_, _) => 0x20
    case Message(_, _, _, _, _) => 0x21
    case Ack(_, _, _) => 0x30
    case Nack(_, _, _, _) => 0x31
    case Error(_, _) => 0xF0
    case Backpressure(_, _) => 0xF1
    case Heartbeat => 0xFF
  }

  /** The fields in the order they are written. */
  function Fields(f: Frame): seq<Field> {
    match f
    case Connect(username, password, apiKey, token, namespace) =>
      [Str(username), Str(password), Str(namespace), Str(apiKey), Str(token)]
    case ConnectOK(sessionID) => [Str(sessionID)]
    case ConnectErr(reason) => [Str(reason)]
    case Publish(queue, group, payload) => [Str(queue), Str(group), Blob(payload)]
    case PublishOK(msgID, offset) => [Str(msgID), U64(offset)]
    case Subscribe(queue, group) => [Str(queue), Str(group)]
    case Message(msgID, queue, group, payload, attempts) =>
      [Str(msgID), Str(queue), Str(group), Blob(payload), U32(Unsigned32(attempts))]
    case Ack(msgID, queue, group) => [Str(msgID), Str(queue), Str(group)]
    case Nack(msgID, queue, group, reason) => [Str(msgID), Str(queue), Str(group), Str(reason)]
    case Error(code, message) => [U32(code), Str(message)]
    case Backpressure(reason, retryAfter) => [Str(reason), U32(retryAfter)]
    case Heartbeat => []
  }

  /** What the reader takes for a frame type, None for an unknown one. */
  function Schema(code: Byte): Option<seq<Kind>> {
    if code == 0x01 then Some([AStr, AStr, AStr, AStr, AStr])
    else if code == 0x02 || code == 0x03 then Some([AStr])
    else if code == 0x10 then Some([AStr, AStr, ABlob])
    else if code == 0x11 then Some([AStr, AU64])
    else if code == 0x20 then Some([AStr, AStr])
    else if code == 0x21 then Some([AStr, AStr, AStr, ABlob, AU32])
    else if code == 0x30 then Some([AStr, AStr, AStr])
    else if code == 0x31 then Some([AStr, AStr, AStr, AStr])
    else if code == 0xF0 then Some([AU32, AStr])
    else if code == 0xF1 then Some([AStr, AU32])
    else if code == 0xFF then Some([])
    else None
  }

  function Text(f: Field): Bytes {
    match f
    case Str(s) => s
    case Blob(b) => b
    case _ => []
  }

  function Word32(f: Field): Word {
    if f.U32? then f.n else 0
  }

  function Word64(f: Field): Long {
    if f.U64? then f.v else 0
  }

  /** The frame of a type from the fields read. */
  function Build(code: Byte, fs: seq<Field>): Frame
    requires Schema(code).Some? && |fs| == |Schema(code).value|
  {
    if code == 0x01 then Connect(Text(fs[0]), Text(fs[1]), Text(fs[3]), Text(fs[4]), Text(fs[2]))
    else if code == 0x02 then ConnectOK(Text(fs[0]))
    else if code == 0x03 then ConnectErr(Text(fs[0]))
    else if code == 0x10 then Publish(Text(fs[0]), Text(fs[1]), Text(fs[2]))
    else if code == 0x11 then PublishOK(Text(fs[0]), Word64(fs[1]))
    else if code == 0x20 then Subscribe(Text(fs[0]), Text(fs[1]))
    else if code == 0x21 then Message(Text(fs[0]), Text(fs[1]), Text(fs[2]), Text(fs[3]), Signed32(Word32(fs[4])))
    else if code == 0x30 then Ack(Text(fs[0]), Text(fs[1]), Text(fs[2]))
    else if code == 0x31 then Nack(Text(fs[0]), Text(fs[1]), Text(fs[2]), Text(fs[3]))
    else if code == 0xF0 then Error(Word32(fs[0]), Text(fs[1]))
    else if code == 0xF1 then Backpressure(Text(fs[0]), Word32(fs[1]))
    else Heartbeat
  }

  // ---------------------------------------------------------------------------
  // Identifiers
  // ---------------------------------------------------------------------------

  predicate IdentByte(b: Byte) {
    'a' as int <= b as int <= 'z' as int || 'A' as int <= b as int <= 'Z' as int
    || '0' as int <= b as int <= '9' as int
    || b as int in {'_' as int, '-' as int, '.' as int, '/' as int, '*' as int, ':' as int}
  }

  predicate ValidIdent(s: Bytes) {
    0 < |s| <= MAX_IDENT && forall b <- s :: IdentByte(b)
  }

  /** The names the reader insists on. */
  function Idents(f: Frame): seq<Bytes> {
    match f
    case Connect(username, _, _, _, _) => [username]
    case Publish(queue, group, _) => [queue, group]
    case Subscribe(queue, group) => [queue, group]
    case Ack(_, queue, group) => [queue, group]
    case Nack(_, queue, group, _) => [queue, group]
    case _ => []
  }

  // ---------------------------------------------------------------------------
  // Encoding and decoding
  // ---------------------------------------------------------------------------

  function Body(f: Frame): Bytes {
    PutFields(Fields(f))
  }

  function Encode(f: Frame): Bytes {
    [Code(f)] + PutBE(|Body(f)|, 4) + Body(f)
  }

  datatype Read =
    | Got(frame: Frame, rest: Bytes)
    | EndOfInput
    | TooLarge
    | InvalidIdent
    | UnknownType

  function ReadFrame(s: Bytes): Read {
    if |s| < HEADER_SIZE then EndOfInput
    else
      var n := GetBE(s[1..HEADER_SIZE]);
      if n > MAX_PAYLOAD then TooLarge
      else if |s| < HEADER_SIZE + n then EndOfInput
      else Decoded(s[0], s[HEADER_SIZE..HEADER_SIZE + n], s[HEADER_SIZE + n..])
  }

  /** The frame in a body of known extent. */
  function Decoded(code: Byte, body: Bytes, rest: Bytes): Read {
    match Schema(code)
    case None => UnknownType
    case Some(ks) =>
      var f := Build(code, TakeFields(ks, body, 0));
      if forall name <- Idents(f) :: ValidIdent(name) then Got(f, rest) else InvalidIdent
  }

  /** A frame the reader will give back. */
  predicate Sendable(f: Frame) {
    (forall x <- Fields(f) :: x.Str? ==> |x.s| < 0x1_0000)
    && (forall name <- Idents(f) :: ValidIdent(name))
    && |Body(f)| <= MAX_PAYLOAD
  }

  // ---------------------------------------------------------------------------
  // The round trip
  // ---------------------------------------------------------------------------

  function Kinds(fs: seq<Field>): seq<Kind> {
    seq(|fs|, i requires 0 <= i < |fs| => KindOf(fs[i]))
  }

  /** The bytes stand in buf at pos. */
  predicate Holds(buf: Bytes, pos: nat, bytes: Bytes) {
    pos + |bytes| <= |buf| && buf[pos..pos + |bytes|] == bytes
  }

  lemma HoldsParts(buf: Bytes, pos: nat, a: Bytes, b: Bytes)
    requires Holds(buf, pos, a + b)
    ensures Holds(buf, pos, a) && Holds(buf, pos + |a|, b)
  {
    var s := buf[pos..pos + |a + b|];
    assert buf[pos..pos + |a|] == s[..|a|] == a;
    assert buf[pos + |a|..pos + |a| + |b|] == s[|a|..] == b;
  }

  lemma TakeRunPut(buf: Bytes, pos: nat, run: Bytes, width: nat)
    requires |run| < Span(width) && Holds(buf, pos, PutBE(|run|, width) + run)
    ensures TakeRun(buf, pos, width) == (run, pos + width + |run|)
  {
    hide PutBE, GetBE, Span, Holds;
    HoldsParts(buf, pos, PutBE(|run|, width), run);
    GetPut(|run|, width);
    TakeRunAt(buf, pos, PutBE(|run|, width), run);
  }

  lemma TakeRunAt(buf: Bytes, pos: nat, prefix: Bytes, run: Bytes)
    requires Holds(buf, pos, prefix) && Holds(buf, pos + |prefix|, run) && GetBE(prefix) == |run|
    ensures TakeRun(buf, pos, |prefix|) == (run, pos + |prefix| + |run|)
  {
    hide GetBE, Holds, TakeBytes;
    HoldsIs(buf, pos, prefix);
    TakeBytesAt(buf, pos + |prefix|, run);
    var width := |prefix|;
    assert buf[pos..pos + width] == prefix;
  }

  lemma TakeBytesAt(buf: Bytes, start: nat, run: Bytes)
    requires Holds(buf, start, run)
    ensures TakeBytes(buf, start, |run|) == (run, start + |run|)
  {
  }

  lemma HoldsIs(buf: Bytes, pos: nat, bytes: Bytes)
    requires Holds(buf, pos, bytes)
    ensures pos + |bytes| <= |buf| && buf[pos..pos + |bytes|] == bytes
  {
  }

  lemma TakeNumberPut(buf: Bytes, pos: nat, n: nat, width: nat)
    requires n < Span(width) && Holds(buf, pos, PutBE(n, width))
    ensures TakeNumber(buf, pos, width) == (n, pos + width)
  {
    hide PutBE, GetBE, Span;
    GetPut(n, width);
  }

  /** A field that fits its prefix is read back, and exactly its bytes are consumed. */
  lemma TakePut(buf: Bytes, pos: nat, f: Field)
    requires Fits(f) && Holds(buf, pos, PutField(f))
    ensures TakeField(KindOf(f), buf, pos) == Taken(f, pos + |PutField(f)|)
  {
    hide TakeRun, TakeNumber, Span, Holds;
    SpanOfWidths();
    match f
    case Str(s) => TakeRunPut(buf, pos, s, 2);
    case Blob(b) => TakeRunPut(buf, pos, b, 4);
    case U32(n) => TakeNumberPut(buf, pos, n, 4);
    case U64(v) => TakeNumberPut(buf, pos, v, 8);
  }

  lemma {:induction false} TakePutFields(buf: Bytes, pos: nat, fs: seq<Field>)
    requires (forall f <- fs :: Fits(f)) && Holds(buf, pos, PutFields(fs))
    ensures TakeFields(Kinds(fs), buf, pos) == fs
    decreases |fs|
  {
    hide TakeField, PutField, KindOf, Fits, Holds;
    if fs != [] {
      var f, rest := fs[0], fs[1..];
      HoldsParts(buf, pos, PutField(f), PutFields(rest));
      TakePut(buf, pos, f);
      TakePutFields(buf, pos + |PutField(f)|, rest);
      assert Kinds(fs)[1..] == Kinds(rest);
    }
  }

  lemma BuildFields(f: Frame)
    ensures Schema(Code(f)) == Some(Kinds(Fields(f)))
    ensures Build(Code(f), Fields(f)) == f
  {
    var ks := Schema(Code(f)).value;
    assert Kinds(Fields(f)) == ks;
  }

  lemma {:induction false} FieldsInBody(fs: seq<Field>)
    ensures forall f <- fs :: (f.Blob? ==> |f.b| <= |PutFields(fs)|)
  {
    if fs != [] {
      FieldsInBody(fs[1..]);
      assert fs == [fs[0]] + fs[1..];
    }
  }

  lemma DecodedBody(f: Frame, rest: Bytes)
    requires Sendable(f)
    ensures Decoded(Code(f), Body(f), rest) == Got(f, rest)
  {
    hide Fields, Code, Schema, Build, ValidIdent, Idents;
    FieldsInBody(Fields(f));
    TakePutFields(Body(f), 0, Fields(f));
    BuildFields(f);
  }

  lemma HeaderSplits(code: Byte, n: nat, body: Bytes, rest: Bytes)
    ensures var s := [code] + PutBE(n, 4) + body + rest;
            s[0] == code && s[1..HEADER_SIZE] == PutBE(n, 4) && s[HEADER_SIZE..] == body + rest
  {
  }

  /** A frame comes back from its encoding, with whatever follows it untouched, if and
      only if its strings are under 64 KiB, its names are valid identifiers and its
      body is within 16 MiB. */
  lemma RoundTripIffSendable(f: Frame, rest: Bytes)
    ensures ReadFrame(Encode(f) + rest) == Got(f, rest) <==> Sendable(f)
  {
    hide Code, Body, Decoded, Sendable, Span;
    var body, s := Body(f), Encode(f) + rest;
    HeaderSplits(Code(f), |body|, body, rest);
    SpanOfWidths();
    if |body| < TWO32 {
      GetPut(|body|, 4);
      assert |body| <= MAX_PAYLOAD ==> s[HEADER_SIZE..HEADER_SIZE + |body|] == body && s[HEADER_SIZE + |body|..] == rest;
      if Sendable(f) {
        BodyOfSendable(f);
        DecodedBody(f, rest);
      } else if |body| <= MAX_PAYLOAD && Decoded(Code(f), body, rest) == Got(f, rest) {
        DecodedIsSendable(f, rest);
      }
    } else {
      if Sendable(f) {
        BodyOfSendable(f);
      }
      var n := GetBE(PutBE(|body|, 4));
      GetBound(PutBE(|body|, 4));
      if |s| >= HEADER_SIZE + n {
        DecodedRest(Code(f), s[HEADER_SIZE..HEADER_SIZE + n], s[HEADER_SIZE + n..]);
      }
    }
  }

  lemma DecodedRest(code: Byte, body: Bytes, rest: Bytes)
    ensures Decoded(code, body, rest).Got? ==> Decoded(code, body, rest).rest == rest
  {
  }

  lemma BodyOfSendable(f: Frame)
    requires Sendable(f)
    ensures |Body(f)| <= MAX_PAYLOAD
  {
  }

  lemma TakeRunShort(buf: Bytes, pos: nat, width: nat)
    ensures |TakeRun(buf, pos, width).0| < Span(width)
  {
    if pos + width <= |buf| {
      GetBound(buf[pos..pos + width]);
    }
  }

  /** What the reader takes for a string always has a 16-bit length. */
  lemma {:induction false} TakenShort(ks: seq<Kind>, buf: Bytes, pos: nat)
    ensures forall f <- TakeFields(ks, buf, pos) :: f.Str? ==> |f.s| < 0x1_0000
    decreases |ks|
  {
    if ks != [] {
      SpanOfWidths();
      TakeRunShort(buf, pos, 2);
      TakenShort(ks[1..], buf, TakeField(ks[0], buf, pos).pos);
    }
  }

  lemma DecodedIsSendable(f: Frame, rest: Bytes)
    requires |Body(f)| <= MAX_PAYLOAD && Decoded(Code(f), Body(f), rest) == Got(f, rest)
    ensures Sendable(f)
  {
    hide Body, TakeFields, ValidIdent;
    var ks := Schema(Code(f)).value;
    var fs := TakeFields(ks, Body(f), 0);
    TakenShort(ks, Body(f), 0);
    FieldsOfBuilt(Code(f), fs);
  }

  /** A frame built from fields of the right kinds has exactly those fields. */
  lemma FieldsOfBuilt(code: Byte, fs: seq<Field>)
    requires Schema(code).Some? && Kinds(fs) == Schema(code).value
    ensures Fields(Build(code, fs)) == fs
  {
    var ks := Schema(code).value;
    forall i | 0 <= i < |fs| ensures Rebuilt(ks[i], fs[i]) == fs[i] {
      assert KindOf(fs[i]) == Kinds(fs)[i];
    }
    var gs := Fields(Build(code, fs));
    forall i | 0 <= i < |gs| ensures |gs| == |ks| && gs[i] == Rebuilt(ks[i], fs[i]) {
    }
  }

  /** The field of a kind with the text or number of another. */
  function Rebuilt(k: Kind, f: Field): Field {
    match k
    case AStr => Str(Text(f))
    case ABlob => Blob(Text(f))
    case AU32 => U32(Word32(f))
    case AU64 => U64(Word64(f))
  }

  // ---------------------------------------------------------------------------
  // The bytes on the wire
  // ---------------------------------------------------------------------------

  /** A type byte, the length of the body in four bytes, the body. */
  function Framed(code: Byte, body: Bytes): Bytes {
    [code] + PutBE(|body|, 4) + body
  }

  /** A length of so many bytes, and the bytes. */
  function Prefixed(s: Bytes, width: nat): Bytes {
    PutBE(|s|, width) + s
  }

  lemma FieldsFrom(f: Field, rest: seq<Field>)
    ensures PutFields([f] + rest) == PutField(f) + PutFields(rest)
    ensures PutFields([]) == [] && [f] + [] == [f]
  {
    assert ([f] + rest)[1..] == rest;
  }

  lemma Joined2(a: Bytes, b: Bytes)
    ensures a + (b + []) == a + b
  {
  }

  lemma Joined3(a: Bytes, b: Bytes, c: Bytes)
    ensures a + (b + (c + [])) == a + b + c
  {
  }

  lemma Joined4(a: Bytes, b: Bytes, c: Bytes, d: Bytes)
    ensures a + (b + (c + (d + []))) == a + b + c + d
  {
  }

  lemma Joined5(a: Bytes, b: Bytes, c: Bytes, d: Bytes, e: Bytes)
    ensures a + (b + (c + (d + (e + [])))) == a + b + c + d + e
  {
  }

  lemma ConnectOnWire(u: Bytes, p: Bytes, k: Bytes, t: Bytes, n: Bytes)
    ensures Encode(Connect(u, p, k, t, n)) == Framed(0x01, Prefixed(u, 2) + Prefixed(p, 2) + Prefixed(n, 2) + Prefixed(k, 2) + Prefixed(t, 2))
  {
    hide PutBE, PutFields;
    FieldsFrom(Str(t), []);
    FieldsFrom(Str(k), [Str(t)]);
    assert [Str(k)] + [Str(t)] == [Str(k), Str(t)];
    FieldsFrom(Str(n), [Str(k), Str(t)]);
    assert [Str(n)] + [Str(k), Str(t)] == [Str(n), Str(k), Str(t)];
    FieldsFrom(Str(p), [Str(n), Str(k), Str(t)]);
    assert [Str(p)] + [Str(n), Str(k), Str(t)] == [Str(p), Str(n), Str(k), Str(t)];
    FieldsFrom(Str(u), [Str(p), Str(n), Str(k), Str(t)]);
    assert [Str(u)] + [Str(p), Str(n), Str(k), Str(t)] == [Str(u), Str(p), Str(n), Str(k), Str(t)];
    Joined5(Prefixed(u, 2), Prefixed(p, 2), Prefixed(n, 2), Prefixed(k, 2), Prefixed(t, 2));
  }

  lemma ConnectOKOnWire(id: Bytes)
    ensures Encode(ConnectOK(id)) == Framed(0x02, Prefixed(id, 2))
  {
    hide PutBE, PutFields;
    FieldsFrom(Str(id), []);
    assert Prefixed(id, 2) + [] == Prefixed(id, 2);
  }

  lemma ConnectErrOnWire(reason: Bytes)
    ensures Encode(ConnectErr(reason)) == Framed(0x03, Prefixed(reason, 2))
  {
    hide PutBE, PutFields;
    FieldsFrom(Str(reason), []);
    assert Prefixed(reason, 2) + [] == Prefixed(reason, 2);
  }

  lemma PublishOnWire(q: Bytes, g: Bytes, payload: Bytes)
    ensures Encode(Publish(q, g, payload)) == Framed(0x10, Prefixed(q, 2) + Prefixed(g, 2) + Prefixed(payload, 4))
  {
    hide PutBE, PutFields;
    FieldsFrom(Blob(payload), []);
    FieldsFrom(Str(g), [Blob(payload)]);
    assert [Str(g)] + [Blob(payload)] == [Str(g), Blob(payload)];
    FieldsFrom(Str(q), [Str(g), Blob(payload)]);
    assert [Str(q)] + [Str(g), Blob(payload)] == [Str(q), Str(g), Blob(payload)];
    Joined3(Prefixed(q, 2), Prefixed(g, 2), Prefixed(payload, 4));
  }

  lemma PublishOKOnWire(id: Bytes, offset: Long)
    ensures Encode(PublishOK(id, offset)) == Framed(0x11, Prefixed(id, 2) + PutBE(offset, 8))
  {
    hide PutBE, PutFields;
    FieldsFrom(U64(offset), []);
    FieldsFrom(Str(id), [U64(offset)]);
    assert [Str(id)] + [U64(offset)] == [Str(id), U64(offset)];
    Joined2(Prefixed(id, 2), PutBE(offset, 8));
  }

  lemma SubscribeOnWire(q: Bytes, g: Bytes)
    ensures Encode(Subscribe(q, g)) == Framed(0x20, Prefixed(q, 2) + Prefixed(g, 2))
  {
    hide PutBE, PutFields;
    FieldsFrom(Str(g), []);
    FieldsFrom(Str(q), [Str(g)]);
    assert [Str(q)] + [Str(g)] == [Str(q), Str(g)];
    Joined2(Prefixed(q, 2), Prefixed(g, 2));
  }

  lemma MessageOnWire(id: Bytes, q: Bytes, g: Bytes, payload: Bytes, attempts: Int32)
    ensures Encode(Message(id, q, g, payload, attempts)) == Framed(0x21, Prefixed(id, 2) + Prefixed(q, 2) + Prefixed(g, 2) + Prefixed(payload, 4) + PutBE(Unsigned32(attempts), 4))
  {
    hide PutBE, PutFields;
    FieldsFrom(U32(Unsigned32(attempts)), []);
    FieldsFrom(Blob(payload), [U32(Unsigned32(attempts))]);
    assert [Blob(payload)] + [U32(Unsigned32(attempts))] == [Blob(payload), U32(Unsigned32(attempts))];
    FieldsFrom(Str(g), [Blob(payload), U32(Unsigned32(attempts))]);
    assert [Str(g)] + [Blob(payload), U32(Unsigned32(attempts))] == [Str(g), Blob(payload), U32(Unsigned32(attempts))];
    FieldsFrom(Str(q), [Str(g), Blob(payload), U32(Unsigned32(attempts))]);
    assert [Str(q)] + [Str(g), Blob(payload), U32(Unsigned32(attempts))] == [Str(q), Str(g), Blob(payload), U32(Unsigned32(attempts))];
    FieldsFrom(Str(id), [Str(q), Str(g), Blob(payload), U32(Unsigned32(attempts))]);
    assert [Str(id)] + [Str(q), Str(g), Blob(payload), U32(Unsigned32(attempts))] == [Str(id), Str(q), Str(g), Blob(payload), U32(Unsigned32(attempts))];
    Joined5(Prefixed(id, 2), Prefixed(q, 2), Prefixed(g, 2), Prefixed(payload, 4), PutBE(Unsigned32(attempts), 4));
  }

  lemma AckOnWire(id: Bytes, q: Bytes, g: Bytes)
    ensures Encode(Ack(id, q, g)) == Framed(0x30, Prefixed(id, 2) + Prefixed(q, 2) + Prefixed(g, 2))
  {
    hide PutBE, PutFields;
    FieldsFrom(Str(g), []);
    FieldsFrom(Str(q), [Str(g)]);
    assert [Str(q)] + [Str(g)] == [Str(q), Str(g)];
    FieldsFrom(Str(id), [Str(q), Str(g)]);
    assert [Str(id)] + [Str(q), Str(g)] == [Str(id), Str(q), Str(g)];
    Joined3(Prefixed(id, 2), Prefixed(q, 2), Prefixed(g, 2));
  }

  lemma NackOnWire(id: Bytes, q: Bytes, g: Bytes, reason: Bytes)
    ensures Encode(Nack(id, q, g, reason)) == Framed(0x31, Prefixed(id, 2) + Prefixed(q, 2) + Prefixed(g, 2) + Prefixed(reason, 2))
  {
    hide PutBE, PutFields;
    FieldsFrom(Str(reason), []);
    FieldsFrom(Str(g), [Str(reason)]);
    assert [Str(g)] + [Str(reason)] == [Str(g), Str(reason)];
    FieldsFrom(Str(q), [Str(g), Str(reason)]);
    assert [Str(q)] + [Str(g), Str(reason)] == [Str(q), Str(g), Str(reason)];
    FieldsFrom(Str(id), [Str(q), Str(g), Str(reason)]);
    assert [Str(id)] + [Str(q), Str(g), Str(reason)] == [Str(id), Str(q), Str(g), Str(reason)];
    Joined4(Prefixed(id, 2), Prefixed(q, 2), Prefixed(g, 2), Prefixed(reason, 2));
  }

  lemma ErrorOnWire(code: Word, message: Bytes)
    ensures Encode(Error(code, message)) == Framed(0xF0, PutBE(code, 4) + Prefixed(message, 2))
  {
    hide PutBE, PutFields;
    FieldsFrom(Str(message), []);
    FieldsFrom(U32(code), [Str(message)]);
    assert [U32(code)] + [Str(message)] == [U32(code), Str(message)];
    Joined2(PutBE(code, 4), Prefixed(message, 2));
  }

  lemma BackpressureOnWire(reason: Bytes, retryAfter: Word)
    ensures Encode(Backpressure(reason, retryAfter)) == Framed(0xF1, Prefixed(reason, 2) + PutBE(retryAfter, 4))
  {
    hide PutBE, PutFields;
    FieldsFrom(U32(retryAfter), []);
    FieldsFrom(Str(reason), [U32(retryAfter)]);
    assert [Str(reason)] + [U32(retryAfter)] == [Str(reason), U32(retryAfter)];
    Joined2(Prefixed(reason, 2), PutBE(retryAfter, 4));
  }

  lemma HeartbeatOnWire()
    ensures Encode(Heartbeat) == [0xFF, 0, 0, 0, 0]
  {
    PutSmall(0);
  }

  lemma OneByteString(b: Byte)
    ensures Prefixed([b], 2) == [0, 1, b]
  {
    PutSmall(1);
    hide PutBE;
  }

  lemma SixBytes(code: Byte, body: Bytes)
    requires |body| == 6
    ensures Framed(code, body) == [code] + [0, 0, 0, 6] + body
  {
    PutSmall(6);
    hide PutBE;
  }

  /** Lengths and numbers stand with the most significant byte first, as in this frame. */
  lemma SubscribeBytes()
    ensures Encode(Subscribe([113], [103])) == [0x20] + [0, 0, 0, 6] + ([0, 1, 113] + [0, 1, 103])
    ensures PutBE(0x0102, 2) == [1, 2]
  {
    PutSmall(1);
    assert PutBE(0x0102, 2) == PutBE(1, 1) + [2];
    hide PutBE, Encode, Prefixed, Framed;
    SubscribeOnWire([113], [103]);
    OneByteString(113);
    OneByteString(103);
    SixBytes(0x20, [0, 1, 113] + [0, 1, 103]);
  }
}
