/** writeRecord's two passes over an event: the streaming checksum and the copy
    into the write buffer. */
module RecordWriter {
  import opened Bytes
  import opened Crc32c
  import opened Record

  // ---------------------------------------------------------------------------
  // One record, field by field
  // ---------------------------------------------------------------------------

  function FieldBytes(fs: seq<Bytes>): Bytes {
    if fs == [] then [] else FieldBytes(fs[..|fs| - 1]) + Field(fs[|fs| - 1])
  }

  function FieldsOf(e: Event): (fs: seq<Bytes>)
    ensures |fs| == 4
  {
    [e.namespace, e.queue, e.group, e.msgID]
  }

  lemma BodyByFields(e: Event)
    ensures Body(e) == Header(e) + FieldBytes(FieldsOf(e)) + PutBE(|e.payload|, 4) + e.payload
  {
    hide Header, Field, PutBE;
    var fs := FieldsOf(e);
    assert fs[..3][..2] == fs[..2] && fs[..2][..1] == fs[..1] && fs[..1][..0] == [];
    assert FieldBytes(fs[..1]) == [] + Field(fs[0]);
    assert FieldBytes(fs[..2]) == FieldBytes(fs[..1]) + Field(fs[1]);
    assert FieldBytes(fs[..3]) == FieldBytes(fs[..2]) + Field(fs[2]);
    assert FieldBytes(fs) == FieldBytes(fs[..3]) + Field(fs[3]);
    assert Header(e) + FieldBytes(fs)
        == Header(e) + Field(e.namespace) + Field(e.queue) + Field(e.group) + Field(e.msgID);
  }

  lemma FieldBytesSnoc(fs: seq<Bytes>, i: nat)
    requires i < |fs|
    ensures FieldBytes(fs[..i + 1]) == FieldBytes(fs[..i]) + Field(fs[i])
  {
    assert fs[..i + 1][..i] == fs[..i];
  }

  lemma UpdateField(pre: Bytes, f: Bytes)
    ensures Update(Update(Checksum(pre), PutBE(|f|, 2)), f) == Checksum(pre + Field(f))
  {
    hide Update, PutBE;
    UpdateAppend(0, pre, PutBE(|f|, 2));
    UpdateAppend(0, pre + PutBE(|f|, 2), f);
    assert pre + PutBE(|f|, 2) + f == pre + Field(f);
  }

  lemma ChecksumStart(s: Bytes)
    ensures Update(0, s) == Checksum(s)
  {
  }

  /** The streaming checksum of a record: header, fields, payload. */
  method RecordChecksum(e: Event) returns (h: bv32)
    ensures h == Checksum(Body(e))
  {
    hide Update, Checksum, PutBE, Header, Field;
    var header := Header(e);
    var payloadLen := PutBE(|e.payload|, 4);
    var fs := FieldsOf(e);
    ChecksumStart(header);
    h := Update(0, header);
    assert header + FieldBytes(fs[..0]) == header;
    for i := 0 to |fs|
      invariant h == Checksum(header + FieldBytes(fs[..i]))
    {
      UpdateField(header + FieldBytes(fs[..i]), fs[i]);
      FieldBytesSnoc(fs, i);
      assert header + FieldBytes(fs[..i + 1]) == header + FieldBytes(fs[..i]) + Field(fs[i]);
      h := Update(h, PutBE(|fs[i]|, 2));
      h := Update(h, fs[i]);
    }
    assert fs[..|fs|] == fs;
    var pre := header + FieldBytes(fs);
    h := ChecksumPayload(h, pre, e.payload);
    BodyByFields(e);
  }

  method ChecksumPayload(h0: bv32, ghost pre: Bytes, payload: Bytes) returns (h: bv32)
    requires h0 == Checksum(pre)
    ensures h == Checksum(pre + PutBE(|payload|, 4) + payload)
  {
    hide Update, PutBE;
    var len := PutBE(|payload|, 4);
    UpdateAppend(0, pre, len);
    h := Update(h0, len);
    if |payload| > 0 {
      UpdateAppend(0, pre + len, payload);
      h := Update(h, payload);
    } else {
      assert pre + len + payload == pre + len;
    }
  }

  /** The bytes copied into the write buffer, in the order they are copied. */
  method CopyRecord(e: Event, footer: Bytes) returns (out: Bytes)
    ensures out == Body(e) + footer
  {
    hide PutBE, Header, Field;
    out := Header(e);
    var fs := FieldsOf(e);
    assert out + FieldBytes(fs[..0]) == out;
    for i := 0 to |fs|
      invariant out == Header(e) + FieldBytes(fs[..i])
    {
      FieldBytesSnoc(fs, i);
      FieldLayout(fs[i]);
      out := out + PutBE(|fs[i]|, 2) + fs[i];
    }
    assert fs[..|fs|] == fs;
    out := out + PutBE(|e.payload|, 4);
    if |e.payload| > 0 {
      out := out + e.payload;
    }
    BodyByFields(e);
    out := out + footer;
  }

  lemma FieldLayout(f: Bytes)
    ensures Field(f) == PutBE(|f|, 2) + f
  {
  }

  /** The bytes of a record with its checksum. */
  method EncodeRecord(e: Event) returns (out: Bytes)
    ensures out == Encode(e)
  {
    hide Body, Checksum, PutCrc;
    var sum := RecordChecksum(e);
    out := CopyRecord(e, PutCrc(sum));
  }
}
