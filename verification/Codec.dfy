/** The codec's loops over byte buffers. */
module Codec {
  import opened Common
  import opened Varints
  import opened Wire
  import M = Messages

  // ---------------------------------------------------------------- skipping and reading fields

  /** The size of a field of any wire type; the fields inside a group are skipped by recursion. */
  method SkipMixnet(dAtA: Bytes) returns (r: Result<nat>)
    ensures r == Skip(dAtA)
    decreases |dAtA|
  {
    hide Read, Decode, SkipGroup;
    var wire := ReadVarint(dAtA, 0);
    assert dAtA[0..] == dAtA;
    if wire.Err? {
      return Err(wire.error);
    }
    var iNdEx := wire.value.size;
    match wire.value.value % 8 {
      case 0 =>
        var n := SkipDigits(dAtA[iNdEx..]);
        if n.Err? {
          return Err(n.error);
        }
        return Ok(iNdEx + n.value);
      case 1 =>
        return Ok(iNdEx + 8);
      case 2 =>
        var length := ReadVarint(dAtA, iNdEx);
        if length.Err? {
          return Err(length.error);
        }
        if length.value.value >= TWO_TO_THE_63 {
          return Err(InvalidLength);
        }
        return Ok(iNdEx + length.value.size + length.value.value);
      case 3 =>
        r := SkipFields(dAtA, iNdEx);
      case 4 =>
        return Ok(iNdEx);
      case 5 =>
        return Ok(iNdEx + 4);
      case _ =>
        return Err(IllegalWireType);
    }
  }

  method SkipFields(dAtA: Bytes, start: nat) returns (r: Result<nat>)
    requires 0 < start <= |dAtA|
    ensures r == SkipGroup(dAtA, start)
    decreases |dAtA|, 0
  {
    hide Read, Skip;
    var iNdEx := start;
    while true
      invariant start <= iNdEx <= |dAtA|
      invariant SkipGroup(dAtA, start) == SkipGroup(dAtA, iNdEx)
      decreases |dAtA| - iNdEx
    {
      var inner := ReadVarint(dAtA, iNdEx);
      if inner.Err? {
        return Err(inner.error);
      }
      if inner.value.value % 8 == END_GROUP {
        return Ok(iNdEx + inner.value.size);
      }
      var next := SkipMixnet(dAtA[iNdEx..]);
      if next.Err? {
        return Err(next.error);
      }
      if iNdEx + next.value > |dAtA| {
        return Err(UnexpectedEof);
      }
      iNdEx := iNdEx + next.value;
    }
  }

  /** The loop that steps over a number without keeping it. */
  method SkipDigits(dAtA: Bytes) returns (r: Result<nat>)
    ensures r == match Decode(dAtA, 0) { case Err(e) => Err(e) case Ok(n) => Ok(n.size) }
  {
    var i := 0;
    while true
      invariant i <= |dAtA|
      invariant Decode(dAtA, 0).Err? <==> Decode(dAtA[i..], i).Err?
      invariant Decode(dAtA, 0).Err? ==> Decode(dAtA, 0) == Decode(dAtA[i..], i)
      invariant Decode(dAtA, 0).Ok? ==> Decode(dAtA, 0).value.size == i + Decode(dAtA[i..], i).value.size
      decreases |dAtA| - i
    {
      if 7 * i >= 64 {
        return Err(IntOverflow);
      }
      if i >= |dAtA| {
        return Err(UnexpectedEof);
      }
      assert dAtA[i..][1..] == dAtA[i + 1..];
      i := i + 1;
      if dAtA[i - 1] < 128 {
        return Ok(i);
      }
    }
  }

  /** One turn of a parsing loop up to the switch, and the reading of the field's content. */
  method ReadField(kinds: map<nat, Kind>, dAtA: Bytes, preIndex: nat) returns (r: Result<Field>)
    requires preIndex <= |dAtA|
    ensures r == Next(kinds, dAtA[preIndex..])
  {
    hide Read, Skip, Int32;
    ghost var b := dAtA[preIndex..];
    var wire := ReadVarint(dAtA, preIndex);
    if wire.Err? {
      return Err(wire.error);
    }
    var iNdEx := preIndex + wire.value.size;
    assert b[wire.value.size..] == dAtA[iNdEx..];
    var fieldNum := Int32(wire.value.value / 8);
    var wireType := wire.value.value % 8;
    if wireType == END_GROUP {
      return Err(EndGroup);
    }
    if fieldNum <= 0 {
      return Err(IllegalTag);
    }
    if fieldNum !in kinds {
      var skippy := SkipMixnet(dAtA[preIndex..]);
      if skippy.Err? {
        return Err(skippy.error);
      }
      if preIndex + skippy.value > |dAtA| {
        return Err(UnexpectedEof);
      }
      return Ok(Field(None, skippy.value));
    }
    if wireType != (if kinds[fieldNum].Numeric? then VARINT else DELIMITED) {
      return Err(WrongWireType);
    }
    var number := ReadVarint(dAtA, iNdEx);
    if number.Err? {
      return Err(number.error);
    }
    iNdEx := iNdEx + number.value.size;
    if kinds[fieldNum].Numeric? {
      return Ok(Field(Some(Num(fieldNum, Wrap32(number.value.value))), iNdEx - preIndex));
    }
    if number.value.value >= TWO_TO_THE_63 {
      return Err(InvalidLength);
    }
    var postIndex := iNdEx + number.value.value;
    if postIndex > |dAtA| {
      return Err(UnexpectedEof);
    }
    assert b[iNdEx - preIndex..postIndex - preIndex] == dAtA[iNdEx..postIndex];
    return Ok(Field(Some(Blob(fieldNum, dAtA[iNdEx..postIndex])), postIndex - preIndex));
  }

  // ---------------------------------------------------------------- writing fields

  /** now is before with piece written at start, and nothing else changed. */
  ghost predicate Written(before: Bytes, now: Bytes, start: nat, piece: Bytes) {
    start + |piece| <= |before| && now == before[..start] + piece + before[start + |piece|..]
  }

  lemma {:induction false} WrittenNothing(b: Bytes, start: nat)
    requires start <= |b|
    ensures Written(b, b, start, [])
  {
  }

  lemma {:induction false} WrittenThen(a: Bytes, b: Bytes, c: Bytes, start: nat, p: Bytes, q: Bytes)
    requires Written(a, b, start, p) && Written(b, c, start + |p|, q)
    ensures Written(a, c, start, p + q)
  {
    assert b[..start + |p|] == a[..start] + p;
    assert b[start + |p| + |q|..] == a[start + |p| + |q|..];
  }

  lemma {:induction false} WrittenByte(a: Bytes, start: nat, v: byte)
    requires start < |a|
    ensures Written(a, a[start := v], start, [v])
  {
  }

  method WriteNum(dAtA: array<byte>, start: nat, tag: byte, field: nat, value: u32) returns (i: nat)
    requires tag == 8 * field + VARINT && tag < 128
    requires start + |PrintAll(M.NumIf(field, value))| <= dAtA.Length
    modifies dAtA
    ensures i == start + |PrintAll(M.NumIf(field, value))|
    ensures Written(old(dAtA[..]), dAtA[..], start, PrintAll(M.NumIf(field, value)))
  {
    i := start;
    if value != 0 {
      PrintedAlone(Num(field, value));
      TagByte(tag);
      assert PrintAll(M.NumIf(field, value)) == Head(tag, value);
      hide PrintAll, M.NumIf, Head, Written;
      i := WriteHead(dAtA, i, tag, value);
    } else {
      WrittenNothing(dAtA[..], start);
    }
  }

  lemma {:induction false} WrittenIs(before: Bytes, now: Bytes, start: nat, piece: Bytes)
    requires start + |piece| <= |before| && now == before[..start] + piece + before[start + |piece|..]
    ensures Written(before, now, start, piece)
  {
  }

  lemma {:induction false} TagByte(tag: byte)
    requires tag < 128
    ensures Encode(tag) == [tag]
  {
  }

  lemma {:induction false} PrintedAlone(rec: Record)
    ensures PrintAll([rec]) == Print(rec)
  {
  }

  method WriteBlob(dAtA: array<byte>, start: nat, tag: byte, field: nat, content: Bytes) returns (i: nat)
    requires tag == 8 * field + DELIMITED && tag < 128 && M.Fits(content)
    requires start + |Print(Blob(field, content))| <= dAtA.Length
    modifies dAtA
    ensures i == start + |Print(Blob(field, content))|
    ensures Written(old(dAtA[..]), dAtA[..], start, Print(Blob(field, content)))
  {
    HeadThenContent(tag, field, content);
    hide Head, Written, Print;
    ghost var before := dAtA[..];
    i := WriteHead(dAtA, start, tag, |content|);
    ghost var headed := dAtA[..];
    i := CopyBytes(dAtA, i, content);
    WrittenThen(before, headed, dAtA[..], start, Head(tag, |content|), content);
  }

  /** What comes before the bytes of a blob. */
  ghost function Head(tag: byte, v: nat): Bytes {
    [tag] + Encode(v)
  }

  lemma {:induction false} HeadThenContent(tag: byte, field: nat, content: Bytes)
    requires tag == 8 * field + DELIMITED && tag < 128
    ensures Print(Blob(field, content)) == Head(tag, |content|) + content
    ensures |Print(Blob(field, content))| == |Head(tag, |content|)| + |content|
  {
    TagByte(tag);
  }

  method CopyBytes(dAtA: array<byte>, start: nat, content: Bytes) returns (i: nat)
    requires start + |content| <= dAtA.Length
    modifies dAtA
    ensures i == start + |content| && Written(old(dAtA[..]), dAtA[..], start, content)
  {
    hide Written;
    ghost var before := dAtA[..];
    forall k | 0 <= k < |content| {
      dAtA[start + k] := content[k];
    }
    WrittenCopy(before, dAtA[..], start, content);
    i := start + |content|;
  }

  /** Writes a tag and the number after it. */
  method WriteHead(dAtA: array<byte>, start: nat, tag: byte, v: u64) returns (i: nat)
    requires start + |Head(tag, v)| <= dAtA.Length
    modifies dAtA
    ensures i == start + |Head(tag, v)|
    ensures Written(old(dAtA[..]), dAtA[..], start, Head(tag, v))
  {
    hide Encode, Written;
    ghost var before := dAtA[..];
    dAtA[start] := tag;
    WrittenByte(before, start, tag);
    ghost var tagged := dAtA[..];
    i := EncodeVarint(dAtA, start + 1, v);
    WrittenIs(tagged, dAtA[..], start + 1, Encode(v));
    WrittenThen(before, tagged, dAtA[..], start, [tag], Encode(v));
  }

  lemma {:induction false} WrittenCopy(before: Bytes, now: Bytes, start: nat, content: Bytes)
    requires |now| == |before| && start + |content| <= |now|
    requires forall k :: 0 <= k < |content| ==> now[start + k] == content[k]
    requires forall k :: 0 <= k < |now| && !(start <= k < start + |content|) ==> now[k] == before[k]
    ensures Written(before, now, start, content)
  {
    Assembled(now, before, content, start);
  }

  method WriteBlobIf(dAtA: array<byte>, start: nat, tag: byte, field: nat, content: Bytes) returns (i: nat)
    requires tag == 8 * field + DELIMITED && tag < 128 && M.Fits(content)
    requires start + |PrintAll(M.BlobIf(field, content))| <= dAtA.Length
    modifies dAtA
    ensures i == start + |PrintAll(M.BlobIf(field, content))|
    ensures Written(old(dAtA[..]), dAtA[..], start, PrintAll(M.BlobIf(field, content)))
  {
    PrintedAlone(Blob(field, content));
    i := start;
    if |content| > 0 {
      i := WriteBlob(dAtA, start, tag, field, content);
    } else {
      WrittenNothing(dAtA[..], start);
    }
  }

  lemma {:induction false} WrittenRecords(
    a: Bytes, b: Bytes, c: Bytes, start: nat, recs: seq<Record>, more: seq<Record>)
    requires Written(a, b, start, PrintAll(recs)) && Written(b, c, start + |PrintAll(recs)|, PrintAll(more))
    ensures Written(a, c, start, PrintAll(recs + more))
    ensures |PrintAll(recs + more)| == |PrintAll(recs)| + |PrintAll(more)|
  {
    PrintAllComposes(recs, more);
    WrittenThen(a, b, c, start, PrintAll(recs), PrintAll(more));
  }

  /** The first n of a repeated field, printed. */
  ghost function BlobsTo(field: nat, contents: seq<Bytes>, n: nat): Bytes
    requires n <= |contents|
  {
    PrintAll(M.Blobs(field, contents[..n]))
  }

  lemma {:induction false} BlobsGrow(field: nat, contents: seq<Bytes>, n: nat)
    requires n < |contents|
    ensures BlobsTo(field, contents, n + 1) == BlobsTo(field, contents, n) + Print(Blob(field, contents[n]))
    ensures |BlobsTo(field, contents, n + 1)| <= |PrintAll(M.Blobs(field, contents))|
  {
    hide PrintAll, Print;
    var blobs := M.Blobs(field, contents);
    assert M.Blobs(field, contents[..n + 1]) == M.Blobs(field, contents[..n]) + [blobs[n]];
    PrintAllComposes(M.Blobs(field, contents[..n]), [blobs[n]]);
    PrintedAlone(blobs[n]);
    assert blobs == M.Blobs(field, contents[..n + 1]) + blobs[n + 1..];
    PrintAllComposes(M.Blobs(field, contents[..n + 1]), blobs[n + 1..]);
  }

  lemma {:induction false} BlobsEnds(field: nat, contents: seq<Bytes>)
    ensures BlobsTo(field, contents, 0) == []
    ensures BlobsTo(field, contents, |contents|) == PrintAll(M.Blobs(field, contents))
  {
    assert contents[..|contents|] == contents;
  }

  method WriteBlobs(dAtA: array<byte>, start: nat, tag: byte, field: nat, contents: seq<Bytes>) returns (i: nat)
    requires tag == 8 * field + DELIMITED && tag < 128 && M.AllFit(contents)
    requires start + |PrintAll(M.Blobs(field, contents))| <= dAtA.Length
    modifies dAtA
    ensures i == start + |PrintAll(M.Blobs(field, contents))|
    ensures Written(old(dAtA[..]), dAtA[..], start, PrintAll(M.Blobs(field, contents)))
  {
    i := start;
    ghost var before := dAtA[..];
    ghost var all := PrintAll(M.Blobs(field, contents));
    BlobsEnds(field, contents);
    WrittenNothing(before, start);
    hide Written, Print, PrintAll, M.Blobs, M.AllFit, BlobsTo;
    for n := 0 to |contents|
      invariant i == start + |BlobsTo(field, contents, n)|
      invariant Written(before, dAtA[..], start, BlobsTo(field, contents, n))
    {
      i := WriteNext(dAtA, before, start, i, tag, field, contents, n);
    }
  }

  /** Writes blob n behind the blobs before it. */
  method WriteNext(dAtA: array<byte>, ghost before: Bytes, ghost start: nat, i: nat,
                   tag: byte, field: nat, contents: seq<Bytes>, n: nat) returns (next: nat)
    requires tag == 8 * field + DELIMITED && tag < 128 && M.AllFit(contents) && n < |contents|
    requires |before| == dAtA.Length && start + |PrintAll(M.Blobs(field, contents))| <= dAtA.Length
    requires i == start + |BlobsTo(field, contents, n)|
    requires Written(before, dAtA[..], start, BlobsTo(field, contents, n))
    modifies dAtA
    ensures next == start + |BlobsTo(field, contents, n + 1)|
    ensures Written(before, dAtA[..], start, BlobsTo(field, contents, n + 1))
  {
    assert M.Fits(contents[n]);
    hide Written, Print, PrintAll, M.Blobs, M.AllFit, BlobsTo;
    BlobsGrow(field, contents, n);
    ghost var was := dAtA[..];
    next := WriteBlob(dAtA, i, tag, field, contents[n]);
    WrittenThen(before, was, dAtA[..], start, BlobsTo(field, contents, n), Print(Blob(field, contents[n])));
  }

  // ---------------------------------------------------------------- sizes

  method SizeNum(field: nat, value: u32) returns (n: nat)
    requires 8 * field < 128
    ensures n == |PrintAll(M.NumIf(field, value))|
  {
    n := 0;
    if value != 0 {
      PrintedAlone(Num(field, value));
      var sov := Sov(value);
      n := 1 + sov;
    }
  }

  method SizeBlob(field: nat, content: Bytes) returns (n: nat)
    requires 8 * field + DELIMITED < 128 && M.Fits(content)
    ensures n == |Print(Blob(field, content))|
  {
    var sov := Sov(|content|);
    n := 1 + |content| + sov;
  }

  method SizeBlobIf(field: nat, content: Bytes) returns (n: nat)
    requires 8 * field + DELIMITED < 128 && M.Fits(content)
    ensures n == |PrintAll(M.BlobIf(field, content))|
  {
    n := 0;
    if |content| > 0 {
      PrintedAlone(Blob(field, content));
      n := SizeBlob(field, content);
    }
  }

  method SizeBlobs(field: nat, contents: seq<Bytes>) returns (n: nat)
    requires 8 * field + DELIMITED < 128 && M.AllFit(contents)
    ensures n == |PrintAll(M.Blobs(field, contents))|
  {
    hide BlobsTo, Print;
    BlobsEnds(field, contents);
    n := 0;
    for i := 0 to |contents|
      invariant n == |BlobsTo(field, contents, i)|
    {
      BlobsGrow(field, contents, i);
      var l := SizeBlob(field, contents[i]);
      n := n + l;
    }
  }

  lemma {:induction false} WrittenWhole(before: Bytes, now: Bytes, piece: Bytes)
    requires Written(before, now, 0, piece) && |piece| == |before|
    ensures now == piece
  {
  }

  lemma {:induction false} FourParts(a: seq<Record>, b: seq<Record>, c: seq<Record>, d: seq<Record>)
    ensures PrintAll(a + b + c + d) == PrintAll(a) + PrintAll(b) + PrintAll(c) + PrintAll(d)
  {
    hide PrintAll;
    PrintAllComposes(a, b);
    PrintAllComposes(a + b, c);
    PrintAllComposes(a + b + c, d);
  }

  lemma {:induction false} WrittenFour(b0: Bytes, b1: Bytes, b2: Bytes, b3: Bytes, b4: Bytes, start: nat,
                    p: Bytes, q: Bytes, r: Bytes, s: Bytes)
    requires Written(b0, b1, start, p) && Written(b1, b2, start + |p|, q)
    requires Written(b2, b3, start + |p| + |q|, r) && Written(b3, b4, start + |p| + |q| + |r|, s)
    ensures Written(b0, b4, start, p + q + r + s)
  {
    hide Written;
    WrittenThen(b0, b1, b2, start, p, q);
    WrittenThen(b0, b2, b3, start, p + q, r);
    WrittenThen(b0, b3, b4, start, p + q + r, s);
  }
}
