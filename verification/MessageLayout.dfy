/** The bytes of every message, field by field with the tag bytes of its schema, and what each field alone does. */
module MessageLayout {
  import opened Common
  import opened Varints
  import opened Wire
  import opened Messages

  /** A number under a one-byte tag, left out when zero. */
  function NumBytes(tag: byte, value: u32): Bytes {
    if value == 0 then [] else [tag] + Encode(value)
  }

  /** Bytes under a one-byte tag, left out when empty. */
  function BlobBytes(tag: byte, content: Bytes): Bytes {
    if content == [] then [] else [tag] + Encode(|content|) + content
  }

  /** Each of these under the same one-byte tag, the empty ones too. */
  function EachBytes(tag: byte, contents: seq<Bytes>): Bytes {
    if contents == [] then [] else [tag] + Encode(|contents[0]|) + contents[0] + EachBytes(tag, contents[1..])
  }

  lemma {:induction false} NumPrinted(tag: byte, field: nat, value: u32)
    requires tag == 8 * field && tag < 128
    ensures PrintAll(NumIf(field, value)) == NumBytes(tag, value)
  {
    assert Encode(tag) == [tag];
    if value != 0 {
      assert PrintAll([Num(field, value)]) == Print(Num(field, value)) + PrintAll([]);
    }
  }

  lemma {:induction false} BlobPrinted(tag: byte, field: nat, content: Bytes)
    requires tag == 8 * field + 2 && tag < 128
    ensures PrintAll(BlobIf(field, content)) == BlobBytes(tag, content)
  {
    assert Encode(tag) == [tag];
    if content != [] {
      assert PrintAll([Blob(field, content)]) == Print(Blob(field, content)) + PrintAll([]);
    }
  }

  lemma {:induction false} EachPrinted(tag: byte, field: nat, contents: seq<Bytes>)
    requires tag == 8 * field + 2 && tag < 128
    ensures PrintAll(Blobs(field, contents)) == EachBytes(tag, contents)
    decreases |contents|
  {
    assert Encode(tag) == [tag];
    if contents != [] {
      EachPrinted(tag, field, contents[1..]);
      assert Blobs(field, contents)[1..] == Blobs(field, contents[1..]);
    }
  }

  // ---------------------------------------------------------------- what is printed

  lemma {:induction false} AddOnionsLayout(m: AddOnionsRequest)
    ensures PrintAll(AddOnionsFields(m)) == NumBytes(0x08, m.offset) + EachBytes(0x12, m.onions)
  {
    PrintAllComposes(NumIf(1, m.offset), Blobs(2, m.onions));
    NumPrinted(0x08, 1, m.offset);
    EachPrinted(0x12, 2, m.onions);
  }

  lemma {:induction false} GetOnionsLayout(m: GetOnionsRequest)
    ensures PrintAll(GetOnionsFields(m))
         == BlobBytes(0x0a, m.service) + NumBytes(0x10, m.round) + NumBytes(0x18, m.offset) + NumBytes(0x20, m.count)
  {
    var a, b, c, d := BlobIf(1, m.service), NumIf(2, m.round), NumIf(3, m.offset), NumIf(4, m.count);
    BlobPrinted(0x0a, 1, m.service);
    NumPrinted(0x10, 2, m.round);
    NumPrinted(0x18, 3, m.offset);
    NumPrinted(0x20, 4, m.count);
    hide PrintAll, NumIf, BlobIf, NumBytes, BlobBytes;
    FourPrinted(a, b, c, d);
  }

  lemma {:induction false} FourPrinted(a: seq<Record>, b: seq<Record>, c: seq<Record>, d: seq<Record>)
    ensures PrintAll(a + b + c + d) == PrintAll(a) + PrintAll(b) + PrintAll(c) + PrintAll(d)
  {
    hide PrintAll;
    PrintAllComposes(a, b);
    PrintAllComposes(a + b, c);
    PrintAllComposes(a + b + c, d);
  }

  lemma {:induction false} SettingsLayout(m: RoundSettings)
    ensures PrintAll(SettingsFields(m))
         == BlobBytes(0x0a, m.service) + NumBytes(0x10, m.round) + EachBytes(0x1a, m.onionKeys)
            + BlobBytes(0x22, m.serviceData)
  {
    var a, b, c, d := BlobIf(1, m.service), NumIf(2, m.round), Blobs(3, m.onionKeys), BlobIf(4, m.serviceData);
    BlobPrinted(0x0a, 1, m.service);
    NumPrinted(0x10, 2, m.round);
    EachPrinted(0x1a, 3, m.onionKeys);
    BlobPrinted(0x22, 4, m.serviceData);
    hide PrintAll, NumIf, BlobIf, Blobs, NumBytes, BlobBytes, EachBytes;
    FourPrinted(a, b, c, d);
  }

  lemma {:induction false} ServerLayout(m: PublicServerConfig)
    ensures PrintAll(ServerFields(m)) == BlobBytes(0x0a, m.key) + BlobBytes(0x12, m.address)
  {
    PrintAllComposes(BlobIf(1, m.key), BlobIf(2, m.address));
    BlobPrinted(0x0a, 1, m.key);
    BlobPrinted(0x12, 2, m.address);
  }

  function ServerBytes(m: PublicServerConfig): Bytes {
    BlobBytes(0x0a, m.key) + BlobBytes(0x12, m.address)
  }

  function AllServerBytes(chain: seq<PublicServerConfig>): (b: seq<Bytes>)
    ensures |b| == |chain| && forall i :: 0 <= i < |b| ==> b[i] == ServerBytes(chain[i])
  {
    seq(|chain|, i requires 0 <= i < |chain| => ServerBytes(chain[i]))
  }

  lemma {:induction false} NewRoundLayout(m: NewRoundRequest)
    ensures PrintAll(NewRoundFields(m))
         == BlobBytes(0x0a, m.service) + NumBytes(0x10, m.round) + EachBytes(0x1a, AllServerBytes(m.chain))
  {
    var a, b, c := BlobIf(1, m.service), NumIf(2, m.round), Blobs(3, ServersPrinted(m.chain));
    forall i | 0 <= i < |m.chain|
      ensures ServersPrinted(m.chain)[i] == AllServerBytes(m.chain)[i]
    {
      ServerLayout(m.chain[i]);
    }
    assert ServersPrinted(m.chain) == AllServerBytes(m.chain);
    BlobPrinted(0x0a, 1, m.service);
    NumPrinted(0x10, 2, m.round);
    EachPrinted(0x1a, 3, ServersPrinted(m.chain));
    hide PrintAll, NumIf, BlobIf, Blobs, NumBytes, BlobBytes, EachBytes, ServersPrinted;
    PrintAllComposes(a, b);
    PrintAllComposes(a + b, c);
  }

  // ---------------------------------------------------------------- what one field does

  /** A number under a tag: that field of the message is read as it. */
  lemma {:induction false} OneNumber<M>(format: Format<M>, m: M, tag: byte, field: nat, value: u32)
    requires tag == 8 * field && 0 < field && tag < 128 && field in format.kinds && format.kinds[field] == Numeric
    ensures Unmarshal(format, m, [tag] + Encode(value)) == format.apply(m, Num(field, value))
  {
    assert Encode(tag) == [tag];
    assert PrintAll([Num(field, value)]) == Print(Num(field, value)) + PrintAll([]);
    assert [tag] + Encode(value) == PrintAll([Num(field, value)]);
    UnmarshalPrinted(format, m, [Num(field, value)]);
    hide Unmarshal, PrintAll;
    FoldSingle(format, m, Num(field, value));
  }

  lemma {:induction false} OneBlob<M>(format: Format<M>, m: M, tag: byte, field: nat, content: Bytes)
    requires tag == 8 * field + 2 && 0 < field && tag < 128 && field in format.kinds && format.kinds[field] == Lengthy
    requires Fits(content)
    ensures Unmarshal(format, m, [tag] + Encode(|content|) + content) == format.apply(m, Blob(field, content))
  {
    assert Encode(tag) == [tag];
    assert PrintAll([Blob(field, content)]) == Print(Blob(field, content)) + PrintAll([]);
    assert [tag] + Encode(|content|) + content == PrintAll([Blob(field, content)]);
    UnmarshalPrinted(format, m, [Blob(field, content)]);
    hide Unmarshal, PrintAll;
    FoldSingle(format, m, Blob(field, content));
  }

  lemma {:induction false} FoldSingle<M>(format: Format<M>, m: M, rec: Record)
    ensures Fold(format, m, [rec]) == format.apply(m, rec)
  {
  }

  lemma {:induction false} AddOnionsReads(m: AddOnionsRequest, v: u32, c: Bytes)
    requires Fits(c)
    ensures Unmarshal(AddOnionsFormat, m, [0x08] + Encode(v)) == Ok(m.(offset := v))
    ensures Unmarshal(AddOnionsFormat, m, [0x12] + Encode(|c|) + c) == Ok(m.(onions := m.onions + [c]))
  {
    hide Unmarshal, Encode;
    OneNumber(AddOnionsFormat, m, 0x08, 1, v);
    OneBlob(AddOnionsFormat, m, 0x12, 2, c);
  }

  lemma {:induction false} GetOnionsReads(m: GetOnionsRequest, v: u32, c: Bytes)
    requires Fits(c)
    ensures Unmarshal(GetOnionsFormat, m, [0x0a] + Encode(|c|) + c) == Ok(m.(service := c))
    ensures Unmarshal(GetOnionsFormat, m, [0x10] + Encode(v)) == Ok(m.(round := v))
    ensures Unmarshal(GetOnionsFormat, m, [0x18] + Encode(v)) == Ok(m.(offset := v))
    ensures Unmarshal(GetOnionsFormat, m, [0x20] + Encode(v)) == Ok(m.(count := v))
  {
    hide Unmarshal, Encode;
    OneBlob(GetOnionsFormat, m, 0x0a, 1, c);
    OneNumber(GetOnionsFormat, m, 0x10, 2, v);
    OneNumber(GetOnionsFormat, m, 0x18, 3, v);
    OneNumber(GetOnionsFormat, m, 0x20, 4, v);
  }

  lemma {:induction false} SettingsReads(m: RoundSettings, v: u32, c: Bytes)
    requires Fits(c)
    ensures Unmarshal(SettingsFormat, m, [0x0a] + Encode(|c|) + c) == Ok(m.(service := c))
    ensures Unmarshal(SettingsFormat, m, [0x10] + Encode(v)) == Ok(m.(round := v))
    ensures Unmarshal(SettingsFormat, m, [0x1a] + Encode(|c|) + c) == Ok(m.(onionKeys := m.onionKeys + [c]))
    ensures Unmarshal(SettingsFormat, m, [0x22] + Encode(|c|) + c) == Ok(m.(serviceData := c))
  {
    hide Unmarshal, Encode;
    OneBlob(SettingsFormat, m, 0x0a, 1, c);
    OneNumber(SettingsFormat, m, 0x10, 2, v);
    OneBlob(SettingsFormat, m, 0x1a, 3, c);
    OneBlob(SettingsFormat, m, 0x22, 4, c);
  }

  lemma {:induction false} ServerReads(m: PublicServerConfig, c: Bytes)
    requires Fits(c)
    ensures Unmarshal(ServerFormat, m, [0x0a] + Encode(|c|) + c) == Ok(m.(key := c))
    ensures Unmarshal(ServerFormat, m, [0x12] + Encode(|c|) + c) == Ok(m.(address := c))
  {
    hide Unmarshal, Encode;
    OneBlob(ServerFormat, m, 0x0a, 1, c);
    OneBlob(ServerFormat, m, 0x12, 2, c);
  }

  lemma {:induction false} NewRoundReads(m: NewRoundRequest, v: u32, c: Bytes, server: PublicServerConfig)
    requires Fits(c) && Fits(server.key) && Fits(server.address) && Fits(ServerBytes(server))
    ensures Unmarshal(NewRoundFormat, m, [0x0a] + Encode(|c|) + c) == Ok(m.(service := c))
    ensures Unmarshal(NewRoundFormat, m, [0x10] + Encode(v)) == Ok(m.(round := v))
    ensures var b := ServerBytes(server);
            Unmarshal(NewRoundFormat, m, [0x1a] + Encode(|b|) + b) == Ok(m.(chain := m.chain + [server]))
  {
    ServerLayout(server);
    NewRoundAppends(m, server);
    hide Unmarshal, Encode, PrintAll, BlobBytes;
    OneBlob(NewRoundFormat, m, 0x0a, 1, c);
    OneNumber(NewRoundFormat, m, 0x10, 2, v);
    OneBlob(NewRoundFormat, m, 0x1a, 3, ServerBytes(server));
  }

  // ---------------------------------------------------------------- numbers and fields, byte by byte

  function Power128(i: nat): (p: nat)
    ensures p > 0
  {
    if i == 0 then 1 else Power128(i - 1) * 128
  }

  /** The least significant seven bits come first; every byte but the last has its high bit set. */
  lemma {:induction false} VarintDigits(v: nat, i: nat)
    requires i < |Encode(v)|
    ensures Encode(v)[i] == v / Power128(i) % 128 + if i < |Encode(v)| - 1 then 128 else 0
    decreases i
  {
    if v >= 128 && i > 0 {
      VarintDigits(v / 128, i - 1);
      DivTwice(v, Power128(i - 1));
    } else if i == 0 {
      assert Power128(0) == 1;
    }
  }

  lemma {:induction false} DivTwice(v: nat, p: nat)
    requires p > 0
    ensures v / 128 / p == v / (p * 128)
  {
    var q := v / 128 / p;
    assert q * p <= v / 128 < q * p + p;
    assert q * (p * 128) <= v < q * (p * 128) + p * 128 by {
      Regroup(q, p);
    }
    QuotientIs(v, p * 128, q);
  }

  lemma {:induction false} Regroup(q: nat, p: nat)
    ensures q * (p * 128) == 128 * (q * p)
  {
  }

  lemma {:induction false} QuotientIs(v: nat, d: nat, q: nat)
    requires d > 0 && q * d <= v < q * d + d
    ensures v / d == q
  {
    var r := v - q * d;
    assert v == q * d + r;
    if v / d < q {
      LessTimes(v / d + 1, q, d);
    } else if v / d > q {
      LessTimes(q + 1, v / d, d);
    }
  }

  lemma {:induction false} LessTimes(a: nat, b: nat, d: nat)
    requires a <= b
    ensures a * d <= b * d
  {
  }
}
