/** The encoder and decoder of the wire protocol, as the connection runs them. */
module FrameCodec {
  import opened Bytes
  import opened Frames

  // ---------------------------------------------------------------------------
  // Streams of frames
  // ---------------------------------------------------------------------------

  function EncodeAll(fs: seq<Frame>): Bytes {
    if fs == [] then [] else Encode(fs[0]) + EncodeAll(fs[1..])
  }

  /** n frames read one after the other, and what is left of the stream. */
  function ReadMany(s: Bytes, n: nat): Option<(seq<Frame>, Bytes)> {
    if n == 0 then Some(([], s))
    else
      match ReadFrame(s)
      case Got(f, rest) =>
        (match ReadMany(rest, n - 1)
         case Some(p) => Some(([f] + p.0, p.1))
         case None => None)
      case _ => None
  }

  /** Any list of sendable frames comes back from the concatenation of its encodings,
      and exactly their bytes are consumed. */
  lemma {:induction false} StreamRoundTrip(fs: seq<Frame>, rest: Bytes)
    requires forall f <- fs :: Sendable(f)
    ensures ReadMany(EncodeAll(fs) + rest, |fs|) == Some((fs, rest))
  {
    hide Encode, ReadFrame, Sendable;
    if fs == [] {
      assert [] + rest == rest;
    } else {
      var tail := EncodeAll(fs[1..]) + rest;
      FirstFrame(fs, rest);
      RoundTripIffSendable(fs[0], tail);
      StreamRoundTrip(fs[1..], rest);
      hide EncodeAll;
      assert fs == [fs[0]] + fs[1..];
    }
  }

  lemma FirstFrame(fs: seq<Frame>, rest: Bytes)
    requires fs != []
    ensures EncodeAll(fs) + rest == Encode(fs[0]) + (EncodeAll(fs[1..]) + rest)
  {
    hide Encode;
  }

  /** A frame cut anywhere is the end of the input, never a different frame. */
  lemma TornFrame(f: Frame, cut: nat)
    requires |Body(f)| <= MAX_PAYLOAD && cut < |Encode(f)|
    ensures ReadFrame(Encode(f)[..cut]) == EndOfInput
  {
    hide Body, Code, Decoded, PutBE, GetBE, Span;
    var s := Encode(f);
    HeaderSplits(Code(f), |Body(f)|, Body(f), []);
    assert s + [] == s;
    if cut >= HEADER_SIZE {
      assert s[..cut][1..HEADER_SIZE] == s[1..HEADER_SIZE] == PutBE(|Body(f)|, 4);
      SpanOfWidths();
      GetPut(|Body(f)|, 4);
    }
  }

  // ---------------------------------------------------------------------------
  // The writer
  // ---------------------------------------------------------------------------

  lemma {:induction false} PutFieldsAppend(fs: seq<Field>, f: Field)
    ensures PutFields(fs + [f]) == PutFields(fs) + PutField(f)
  {
    hide PutField;
    if fs == [] {
      assert [] + [f] == [f];
    } else {
      PutFieldsAppend(fs[1..], f);
      assert (fs + [f])[1..] == fs[1..] + [f];
    }
  }

  class ByteWriter {
    var buf: Bytes
    ghost var fields: seq<Field>   // the fields written so far

    ghost predicate Valid()
      reads this
    {
      buf == PutFields(fields)
    }

    constructor ()
      ensures Valid() && fields == []
    {
      buf, fields := [], [];
    }

    ghost method Log(f: Field)
      requires buf == PutFields(fields) + PutField(f)
      modifies this`fields
      ensures Valid() && fields == old(fields) + [f]
    {
      PutFieldsAppend(fields, f);
      fields := fields + [f];
    }

    method Str(s: Bytes)
      requires Valid()
      modifies this
      ensures Valid() && fields == old(fields) + [Field.Str(s)]
    {
      hide PutFields;
      buf := buf + PutBE(|s|, 2);
      buf := buf + s;
      assert buf == PutFields(fields) + PutField(Field.Str(s));
      Log(Field.Str(s));
    }

    method Blob(data: Bytes)
      requires Valid()
      modifies this
      ensures Valid() && fields == old(fields) + [Field.Blob(data)]
    {
      hide PutFields;
      buf := buf + PutBE(|data|, 4);
      buf := buf + data;
      assert buf == PutFields(fields) + PutField(Field.Blob(data));
      Log(Field.Blob(data));
    }

    method U32(n: Word)
      requires Valid()
      modifies this
      ensures Valid() && fields == old(fields) + [Field.U32(n)]
    {
      buf := buf + PutBE(n, 4);
      Log(Field.U32(n));
    }

    method U64(v: Long)
      requires Valid()
      modifies this
      ensures Valid() && fields == old(fields) + [Field.U64(v)]
    {
      buf := buf + PutBE(v, 8);
      Log(Field.U64(v));
    }

    method I32(v: Int32)
      requires Valid()
      modifies this
      ensures Valid() && fields == old(fields) + [Field.U32(Unsigned32(v))]
    {
      U32(Unsigned32(v));
    }
  }

  /** The encoder's twelve writers: the frame's fields in wire order. */
  method WriteFields(b: ByteWriter, f: Frame)
    requires b.Valid() && b.fields == []
    modifies b
    ensures b.Valid() && b.fields == Fields(f)
  {
    hide PutFields;
    match f
    case Connect(username, password, apiKey, token, namespace) =>
      b.Str(username);
      b.Str(password);
      b.Str(namespace);
      b.Str(apiKey);
      b.Str(token);
    case ConnectOK(sessionID) => b.Str(sessionID);
    case ConnectErr(reason) => b.Str(reason);
    case Publish(queue, group, payload) =>
      b.Str(queue);
      b.Str(group);
      b.Blob(payload);
    case PublishOK(msgID, offset) =>
      b.Str(msgID);
      b.U64(offset);
    case Subscribe(queue, group) =>
      b.Str(queue);
      b.Str(group);
    case Message(msgID, queue, group, payload, attempts) =>
      b.Str(msgID);
      b.Str(queue);
      b.Str(group);
      b.Blob(payload);
      b.I32(attempts);
    case Ack(msgID, queue, group) =>
      b.Str(msgID);
      b.Str(queue);
      b.Str(group);
    case Nack(msgID, queue, group, reason) =>
      b.Str(msgID);
      b.Str(queue);
      b.Str(group);
      b.Str(reason);
    case Error(code, message) =>
      b.U32(code);
      b.Str(message);
    case Backpressure(reason, retryAfter) =>
      b.Str(reason);
      b.U32(retryAfter);
    case Heartbeat =>
  }

  class Encoder {
    var sent: Bytes

    constructor ()
      ensures sent == []
    {
      sent := [];
    }

    /** Header first, then the body if there is one. */
    method Write(f: Frame)
      modifies this
      ensures sent == old(sent) + Encode(f)
    {
      hide PutFields, Fields;
      var b := new ByteWriter();
      WriteFields(b, f);
      sent := sent + ([Code(f)] + PutBE(|b.buf|, 4));
      if |b.buf| > 0 {
        sent := sent + b.buf;
      }
    }
  }

  // ---------------------------------------------------------------------------
  // The reader
  // ---------------------------------------------------------------------------

  /** isValidIdent: the byte-by-byte check. */
  method CheckIdent(s: Bytes) returns (ok: bool)
    ensures ok <==> ValidIdent(s)
  {
    if |s| == 0 || |s| > MAX_IDENT {
      return false;
    }
    var i := 0;
    while i < |s|
      invariant 0 <= i <= |s|
      invariant forall j :: 0 <= j < i ==> IdentByte(s[j])
    {
      var b := s[i] as int;
      if 'a' as int <= b <= 'z' as int {
      } else if 'A' as int <= b <= 'Z' as int {
      } else if '0' as int <= b <= '9' as int {
      } else if b == '_' as int || b == '-' as int || b == '.' as int || b == '/' as int
             || b == '*' as int || b == ':' as int {
      } else {
        assert s[i] in s && !IdentByte(s[i]);
        return false;
      }
      i := i + 1;
    }
    return true;
  }

  /** Where the reader stands after fields of these kinds. */
  function PosAfter(ks: seq<Kind>, buf: Bytes, pos: nat): nat {
    if ks == [] then pos else PosAfter(ks[1..], buf, TakeField(ks[0], buf, pos).pos)
  }

  lemma {:induction false} TakeFieldsAppend(ks: seq<Kind>, k: Kind, buf: Bytes, pos: nat)
    ensures var t := TakeField(k, buf, PosAfter(ks, buf, pos));
            TakeFields(ks + [k], buf, pos) == TakeFields(ks, buf, pos) + [t.field]
            && PosAfter(ks + [k], buf, pos) == t.pos
    decreases |ks|
  {
    hide TakeField;
    if ks == [] {
      assert [] + [k] == [k];
    } else {
      var t := TakeField(ks[0], buf, pos);
      TakeFieldsAppend(ks[1..], k, buf, t.pos);
      assert (ks + [k])[1..] == ks[1..] + [k];
    }
  }

  class ByteReader {
    const buf: Bytes
    var pos: nat
    ghost var kinds: seq<Kind>     // the kinds taken so far

    ghost predicate Valid()
      reads this
    {
      pos == PosAfter(kinds, buf, 0)
    }

    ghost function Fields(): seq<Field>
      reads this
    {
      TakeFields(kinds, buf, 0)
    }

    constructor (buf: Bytes)
      ensures Valid() && kinds == [] && this.buf == buf
    {
      this.buf, pos, kinds := buf, 0, [];
    }

    ghost method Log(k: Kind, f: Field)
      requires TakeField(k, buf, PosAfter(kinds, buf, 0)) == Taken(f, pos)
      modifies this`kinds
      ensures Valid() && kinds == old(kinds) + [k] && Fields() == old(Fields()) + [f]
    {
      TakeFieldsAppend(kinds, k, buf, 0);
      kinds := kinds + [k];
    }

    method Run(width: nat) returns (run: Bytes)
      modifies this`pos
      ensures (run, pos) == TakeRun(buf, old(pos), width)
    {
      if pos + width > |buf| {
        return [];
      }
      var n := GetBE(buf[pos..pos + width]);
      pos := pos + width;
      if pos + n > |buf| {
        return [];
      }
      run := buf[pos..pos + n];
      pos := pos + n;
    }

    method Number(width: nat) returns (v: nat)
      modifies this`pos
      ensures (v, pos) == TakeNumber(buf, old(pos), width)
    {
      if pos + width > |buf| {
        return 0;
      }
      v := GetBE(buf[pos..pos + width]);
      pos := pos + width;
    }

    method Str() returns (s: Bytes)
      requires Valid()
      modifies this
      ensures Valid() && kinds == old(kinds) + [AStr] && Fields() == old(Fields()) + [Field.Str(s)]
    {
      s := Run(2);
      Log(AStr, Field.Str(s));
    }

    method Blob() returns (b: Bytes)
      requires Valid()
      modifies this
      ensures Valid() && kinds == old(kinds) + [ABlob] && Fields() == old(Fields()) + [Field.Blob(b)]
    {
      b := Run(4);
      Log(ABlob, Field.Blob(b));
    }

    method U32() returns (n: Word)
      requires Valid()
      modifies this
      ensures Valid() && kinds == old(kinds) + [AU32] && Fields() == old(Fields()) + [Field.U32(n)]
    {
      SpanOfWidths();
      n := Number(4);
      Log(AU32, Field.U32(n));
    }

    method U64() returns (v: Long)
      requires Valid()
      modifies this
      ensures Valid() && kinds == old(kinds) + [AU64] && Fields() == old(Fields()) + [Field.U64(v)]
    {
      SpanOfWidths();
      v := Number(8);
      Log(AU64, Field.U64(v));
    }
  }

  /** What the decoder makes of a body of the given type. */
  function Parsed(code: Byte, body: Bytes): Option<Frame> {
    match Schema(code)
    case None => None
    case Some(ks) => Some(Build(code, TakeFields(ks, body, 0)))
  }

  /** CONNECT and PUBLISH. */
  method ParseConnectOrPublish(code: Byte, body: Bytes) returns (f: Frame)
    requires code in [0x01, 0x10]
    ensures Some(f) == Parsed(code, body)
  {
    hide TakeFields, PosAfter;
    var r := new ByteReader(body);
    assert r.Fields() == [] by { NothingTaken(body); }
    if code == 0x01 {
      var username := r.Str();
      var password := r.Str();
      var namespace := r.Str();
      var apiKey := r.Str();
      var token := r.Str();
      f := Connect(username, password, apiKey, token, namespace);
    } else {
      var queue := r.Str();
      var group := r.Str();
      var payload := r.Blob();
      f := Publish(queue, group, payload);
    }
    assert r.kinds == Schema(code).value;
  }

  /** SUBSCRIBE, ACK and NACK. */
  method ParseConsumer(code: Byte, body: Bytes) returns (f: Frame)
    requires code in [0x20, 0x30, 0x31]
    ensures Some(f) == Parsed(code, body)
  {
    hide TakeFields, PosAfter;
    var r := new ByteReader(body);
    assert r.Fields() == [] by { NothingTaken(body); }
    if code == 0x20 {
      var queue := r.Str();
      var group := r.Str();
      f := Subscribe(queue, group);
    } else if code == 0x30 {
      var msgID := r.Str();
      var queue := r.Str();
      var group := r.Str();
      f := Ack(msgID, queue, group);
    } else {
      var msgID := r.Str();
      var queue := r.Str();
      var group := r.Str();
      var reason := r.Str();
      f := Nack(msgID, queue, group, reason);
    }
    assert r.kinds == Schema(code).value;
  }

  lemma NothingTaken(body: Bytes)
    ensures TakeFields([], body, 0) == []
  {
  }

  /** Frames a client sends; None for another type. */
  method ParseClient(code: Byte, body: Bytes) returns (f: Option<Frame>)
    ensures f == if code in [0x01, 0x10, 0x20, 0x30, 0x31] then Parsed(code, body) else None
  {
    hide Parsed;
    f := None;
    if code == 0x01 || code == 0x10 {
      var frame := ParseConnectOrPublish(code, body);
      f := Some(frame);
    } else if code == 0x20 || code == 0x30 || code == 0x31 {
      var frame := ParseConsumer(code, body);
      f := Some(frame);
    }
  }

  /** The answers to CONNECT and PUBLISH, and deliveries. */
  method ParseAnswer(code: Byte, body: Bytes) returns (f: Frame)
    requires code in [0x02, 0x03, 0x11, 0x21]
    ensures Some(f) == Parsed(code, body)
  {
    hide TakeFields, PosAfter;
    var r := new ByteReader(body);
    assert r.Fields() == [] by { NothingTaken(body); }
    if code == 0x02 {
      var sessionID := r.Str();
      f := ConnectOK(sessionID);
    } else if code == 0x03 {
      var reason := r.Str();
      f := ConnectErr(reason);
    } else if code == 0x11 {
      var msgID := r.Str();
      var offset := r.U64();
      f := PublishOK(msgID, offset);
    } else {
      var msgID := r.Str();
      var queue := r.Str();
      var group := r.Str();
      var payload := r.Blob();
      var attempts := r.U32();
      f := Message(msgID, queue, group, payload, Signed32(attempts));
    }
    assert r.kinds == Schema(code).value;
  }

  /** Errors, backpressure and heartbeats. */
  method ParseSignal(code: Byte, body: Bytes) returns (f: Frame)
    requires code in [0xF0, 0xF1, 0xFF]
    ensures Some(f) == Parsed(code, body)
  {
    hide TakeFields, PosAfter;
    var r := new ByteReader(body);
    assert r.Fields() == [] by { NothingTaken(body); }
    if code == 0xF0 {
      var reason := r.U32();
      var message := r.Str();
      f := Error(reason, message);
    } else if code == 0xF1 {
      var reason := r.Str();
      var retryAfter := r.U32();
      f := Backpressure(reason, retryAfter);
    } else {
      f := Heartbeat;
    }
    assert r.kinds == Schema(code).value;
  }

  /** Frames the broker sends; None for another type. */
  method ParseBroker(code: Byte, body: Bytes) returns (f: Option<Frame>)
    ensures f == if code in [0x01, 0x10, 0x20, 0x30, 0x31] then None else Parsed(code, body)
  {
    f := None;
    if code == 0x02 || code == 0x03 || code == 0x11 || code == 0x21 {
      var frame := ParseAnswer(code, body);
      f := Some(frame);
    } else if code == 0xF0 || code == 0xF1 || code == 0xFF {
      var frame := ParseSignal(code, body);
      f := Some(frame);
    }
  }

  class Decoder {
    var stream: Bytes    // what is still to be read

    constructor (stream: Bytes)
      ensures this.stream == stream
    {
      this.stream := stream;
    }

    method ReadFrame() returns (r: Read)
      modifies this
      ensures r == Frames.ReadFrame(old(stream))
      ensures r.Got? ==> stream == r.rest
    {
      hide Schema, Build, TakeFields, ValidIdent, Idents;
      if |stream| < HEADER_SIZE {
        return EndOfInput;
      }
      var code, n := stream[0], GetBE(stream[1..HEADER_SIZE]);
      if n > MAX_PAYLOAD {
        return TooLarge;
      }
      if |stream| < HEADER_SIZE + n {
        return EndOfInput;
      }
      var body := stream[HEADER_SIZE..HEADER_SIZE + n];
      stream := stream[HEADER_SIZE + n..];
      r := Finish(code, body, stream);
    }
  }

  /** Parsing a whole body and checking the names in it. */
  method Finish(code: Byte, body: Bytes, rest: Bytes) returns (r: Read)
    ensures r == Decoded(code, body, rest)
  {
    hide Schema, Build, TakeFields, ValidIdent;
    var f := ParseClient(code, body);
    if f == None {
      f := ParseBroker(code, body);
      if f == None {
        return UnknownType;
      }
    }
    var names := Idents(f.value);
    var ok := true;
    if |names| > 0 {
      ok := CheckIdent(names[0]);
    }
    if ok && |names| > 1 {
      ok := CheckIdent(names[1]);
    }
    if !ok {
      assert exists name <- names :: !ValidIdent(name);
      return InvalidIdent;
    }
    return Got(f.value, rest);
  }
}
