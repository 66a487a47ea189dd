/**
 The wire format of every message: a printer of fields, the parsing loop with its field-by-field effects,
 and the skipper of unknown fields.
 */
module Wire {
  import opened Common
  import opened Varints

  /** A field of a message, as it is written: a number or a run of bytes. */
  datatype Record = Num(field: nat, value: u32) | Blob(field: nat, content: Bytes)

  datatype Kind = Numeric | Lengthy

  /** A message type: the wire type of each field it knows and what a field that was read does to it. */
  datatype Format<!M> = Format(kinds: map<nat, Kind>, apply: (M, Record) -> Result<M>)

  // ---------------------------------------------------------------- printing

  const VARINT: nat := 0
  const FIXED64: nat := 1
  const DELIMITED: nat := 2
  const GROUP: nat := 3
  const END_GROUP: nat := 4
  const FIXED32: nat := 5

  function Print(rec: Record): (b: Bytes)
    ensures |b| > 0
  {
    match rec
    case Num(f, v) => Encode(8 * f + VARINT) + Encode(v)
    case Blob(f, c) => Encode(8 * f + DELIMITED) + Encode(|c|) + c
  }

  function PrintAll(recs: seq<Record>): Bytes {
    if recs == [] then [] else Print(recs[0]) + PrintAll(recs[1..])
  }

  /** Field numbers are read into an int32. */
  const FIELD_LIMIT: nat := 0x8000_0000

  /** A field of this message type whose number fits a uint32 and whose length fits an int. */
  predicate RecordOk(kinds: map<nat, Kind>, rec: Record) {
    && 0 < rec.field < FIELD_LIMIT && rec.field in kinds
    && match rec
       case Num(f, v) => kinds[f] == Numeric
       case Blob(f, c) => kinds[f] == Lengthy && |c| < TWO_TO_THE_63
  }

  // ---------------------------------------------------------------- skipping

  function ReadLength(b: Bytes): (r: Result<Number>)
    ensures r.Ok? ==> 0 < r.value.size <= |b| && r.value.value < TWO_TO_THE_63
  {
    match Read(b)
    case Err(e) => Err(e)
    case Ok(n) => if n.value >= TWO_TO_THE_63 then Err(InvalidLength) else Ok(n)
  }

  /** The size of the field at the start of b. The payload of the last field may lie past the end of b. */
  function Skip(b: Bytes): (r: Result<nat>)
    ensures r.Ok? ==> r.value > 0
    decreases |b|, |b|
  {
    match Read(b)
    case Err(e) => Err(e)
    case Ok(tag) =>
      match tag.value % 8 {
        case 0 => (match Decode(b[tag.size..], 0) case Err(e) => Err(e) case Ok(n) => Ok(tag.size + n.size))
        case 1 => Ok(tag.size + 8)
        case 2 => (match ReadLength(b[tag.size..]) case Err(e) => Err(e) case Ok(n) => Ok(tag.size + n.size + n.value))
        case 3 => SkipGroup(b, tag.size)
        case 4 => Ok(tag.size)
        case 5 => Ok(tag.size + 4)
        case _ => Err(IllegalWireType)
      }
  }

  /** The end of the group whose fields go on at index i. */
  function SkipGroup(b: Bytes, i: nat): (r: Result<nat>)
    requires 0 < i <= |b|
    ensures r.Ok? ==> i < r.value <= |b|
    decreases |b|, |b| - i
  {
    match Read(b[i..])
    case Err(e) => Err(e)
    case Ok(inner) =>
      if inner.value % 8 == END_GROUP then Ok(i + inner.size)
      else
        match Skip(b[i..])
        case Err(e) => Err(e)
        case Ok(next) => if i + next > |b| then Err(UnexpectedEof) else SkipGroup(b, i + next)
  }

  // ---------------------------------------------------------------- parsing

  /** The int32 a Go conversion makes of a uint64. */
  function Int32(x: nat): int {
    var low := x % TWO_TO_THE_32;
    if low < 0x8000_0000 then low else low - TWO_TO_THE_32
  }

  /** A field that was read, or skipped, and its size. */
  datatype Field = Field(record: Option<Record>, size: nat)

  /** What one turn of the parsing loop reads at the start of b. */
  function Next(kinds: map<nat, Kind>, b: Bytes): (r: Result<Field>)
    ensures r.Ok? ==> 0 < r.value.size <= |b|
  {
    match Read(b)
    case Err(e) => Err(e)
    case Ok(tag) =>
      var field := Int32(tag.value / 8);
      if tag.value % 8 == END_GROUP then Err(EndGroup)
      else if field <= 0 then Err(IllegalTag)
      else if field !in kinds then NextUnknown(b)
      else if kinds[field].Numeric? then NextNumber(b, tag, field)
      else NextBlob(b, tag, field)
  }

  function NextUnknown(b: Bytes): (r: Result<Field>)
    ensures r.Ok? ==> 0 < r.value.size <= |b|
  {
    match Skip(b)
    case Err(e) => Err(e)
    case Ok(n) => if n > |b| then Err(UnexpectedEof) else Ok(Field(None, n))
  }

  function NextNumber(b: Bytes, tag: Number, field: nat): (r: Result<Field>)
    requires 0 < tag.size <= |b|
    ensures r.Ok? ==> 0 < r.value.size <= |b|
  {
    if tag.value % 8 != VARINT then Err(WrongWireType)
    else
      match Read(b[tag.size..])
      case Err(e) => Err(e)
      case Ok(n) => Ok(Field(Some(Num(field, Wrap32(n.value))), tag.size + n.size))
  }

  function NextBlob(b: Bytes, tag: Number, field: nat): (r: Result<Field>)
    requires 0 < tag.size <= |b|
    ensures r.Ok? ==> 0 < r.value.size <= |b|
  {
    if tag.value % 8 != DELIMITED then Err(WrongWireType)
    else
      match ReadLength(b[tag.size..])
      case Err(e) => Err(e)
      case Ok(n) =>
        var start := tag.size + n.size;
        if start + n.value > |b| then Err(UnexpectedEof)
        else Ok(Field(Some(Blob(field, b[start..start + n.value])), start + n.value))
  }

  function Apply<M>(format: Format<M>, m: M, record: Option<Record>): Result<M> {
    match record
    case None => Ok(m)
    case Some(rec) => format.apply(m, rec)
  }

  function Unmarshal<M>(format: Format<M>, m: M, b: Bytes): Result<M>
    decreases |b|
  {
    if b == [] then Ok(m)
    else
      match Next(format.kinds, b)
      case Err(e) => Err(e)
      case Ok(f) =>
        match Apply(format, m, f.record)
        case Err(e) => Err(e)
        case Ok(after) => Unmarshal(format, after, b[f.size..])
  }

  /** The effects of the fields, in order. */
  function Fold<M>(format: Format<M>, m: M, recs: seq<Record>): Result<M> {
    if recs == [] then Ok(m)
    else
      match format.apply(m, recs[0])
      case Err(e) => Err(e)
      case Ok(after) => Fold(format, after, recs[1..])
  }

  // ---------------------------------------------------------------- what follows a field does not matter

  lemma {:induction false} ReadLocal(a: Bytes, b: Bytes)
    requires Read(a).Ok?
    ensures Read(a + b) == Read(a)
  {
    DecodeLocal(a, b, 0);
  }

  lemma {:induction false} DropPrefix(a: Bytes, b: Bytes, i: nat)
    requires i <= |a|
    ensures (a + b)[i..] == a[i..] + b
  {
  }

  lemma {:induction false} SkipLocal(a: Bytes, b: Bytes)
    requires Skip(a).Ok? && Skip(a).value <= |a|
    ensures Skip(a + b) == Skip(a)
    decreases |a|, |a|
  {
    hide Read, Decode;
    ReadLocal(a, b);
    var tag := Read(a).value;
    DropPrefix(a, b, tag.size);
    match tag.value % 8 {
      case 0 => DecodeLocal(a[tag.size..], b, 0);
      case 2 => ReadLocal(a[tag.size..], b);
      case 3 => SkipGroupLocal(a, b, tag.size);
      case _ =>
    }
  }

  lemma {:induction false} SkipGroupLocal(a: Bytes, b: Bytes, i: nat)
    requires 0 < i <= |a| && SkipGroup(a, i).Ok?
    ensures SkipGroup(a + b, i) == SkipGroup(a, i)
    decreases |a|, |a| - i
  {
    hide Read, Decode;
    ReadLocal(a[i..], b);
    DropPrefix(a, b, i);
    if Read(a[i..]).value.value % 8 != END_GROUP {
      SkipLocal(a[i..], b);
      SkipGroupLocal(a, b, i + Skip(a[i..]).value);
    }
  }

  lemma {:induction false} NextLocal(kinds: map<nat, Kind>, a: Bytes, b: Bytes)
    requires Next(kinds, a).Ok?
    ensures Next(kinds, a + b) == Next(kinds, a)
  {
    hide Read, Skip, ReadLength, Int32;
    ReadLocal(a, b);
    var tag := Read(a).value;
    DropPrefix(a, b, tag.size);
    var field := Int32(tag.value / 8);
    if field !in kinds {
      SkipLocal(a, b);
    } else if kinds[field].Numeric? {
      ReadLocal(a[tag.size..], b);
    } else {
      NextBlobLocal(a, b, tag, field);
    }
  }

  lemma {:induction false} NextBlobLocal(a: Bytes, b: Bytes, tag: Number, field: nat)
    requires 0 < tag.size <= |a| && NextBlob(a, tag, field).Ok?
    ensures NextBlob(a + b, tag, field) == NextBlob(a, tag, field)
  {
    hide Read;
    DropPrefix(a, b, tag.size);
    ReadLocal(a[tag.size..], b);
    var n := ReadLength(a[tag.size..]).value;
    var start := tag.size + n.size;
    assert (a + b)[start..start + n.value] == a[start..start + n.value];
  }

  /** Parsing a and then b, whatever was read before: the message goes on from where a left it. */
  lemma {:induction false} UnmarshalComposes<M>(format: Format<M>, m: M, a: Bytes, b: Bytes)
    requires Unmarshal(format, m, a).Ok?
    ensures Unmarshal(format, m, a + b) == Unmarshal(format, Unmarshal(format, m, a).value, b)
    decreases |a|
  {
    hide Next, Apply;
    if a == [] {
      assert a + b == b;
    } else {
      NextLocal(format.kinds, a, b);
      var f := Next(format.kinds, a).value;
      DropPrefix(a, b, f.size);
      UnmarshalComposes(format, Apply(format, m, f.record).value, a[f.size..], b);
    }
  }

  // ---------------------------------------------------------------- printed fields are read back

  lemma {:induction false} PrintedNumber(kinds: map<nat, Kind>, f: nat, v: u32, rest: Bytes)
    requires RecordOk(kinds, Num(f, v))
    ensures Next(kinds, Print(Num(f, v)) + rest) == Ok(Field(Some(Num(f, v)), |Print(Num(f, v))|))
  {
    hide Read, Encode;
    var b := Print(Num(f, v)) + rest;
    ReadEncode(8 * f + VARINT, Encode(v) + rest);
    assert b == Encode(8 * f + VARINT) + (Encode(v) + rest);
    ReadEncode(v, rest);
    assert b[|Encode(8 * f + VARINT)|..] == Encode(v) + rest;
  }

  lemma {:induction false} PrintedBlob(kinds: map<nat, Kind>, f: nat, c: Bytes, rest: Bytes)
    requires RecordOk(kinds, Blob(f, c))
    ensures Next(kinds, Print(Blob(f, c)) + rest) == Ok(Field(Some(Blob(f, c)), |Print(Blob(f, c))|))
  {
    hide Read, Encode;
    var b := Print(Blob(f, c)) + rest;
    var t := Encode(8 * f + DELIMITED);
    ReadEncode(8 * f + DELIMITED, Encode(|c|) + c + rest);
    assert b == t + (Encode(|c|) + c + rest);
    ReadEncode(|c|, c + rest);
    assert b[|t|..] == Encode(|c|) + (c + rest);
    var start := |t| + |Encode(|c|)|;
    assert b[start..start + |c|] == c;
  }

  /** Parsing what was printed has the effects of the fields, in order, whatever was read before. */
  lemma {:induction false} UnmarshalPrinted<M>(format: Format<M>, m: M, recs: seq<Record>)
    requires forall rec <- recs :: RecordOk(format.kinds, rec)
    ensures Unmarshal(format, m, PrintAll(recs)) == Fold(format, m, recs)
  {
    hide Next, Print, RecordOk;
    if recs != [] {
      var rec, rest := recs[0], PrintAll(recs[1..]);
      match rec {
        case Num(f, v) => PrintedNumber(format.kinds, f, v, rest);
        case Blob(f, c) => PrintedBlob(format.kinds, f, c, rest);
      }
      assert (Print(rec) + rest)[|Print(rec)|..] == rest;
      if format.apply(m, rec).Ok? {
        UnmarshalPrinted(format, format.apply(m, rec).value, recs[1..]);
      }
    }
  }

  lemma {:induction false} FoldComposes<M>(format: Format<M>, m: M, a: seq<Record>, b: seq<Record>)
    requires Fold(format, m, a).Ok?
    ensures Fold(format, m, a + b) == Fold(format, Fold(format, m, a).value, b)
    decreases |a|
  {
    if a == [] {
      assert a + b == b;
    } else {
      assert (a + b)[1..] == a[1..] + b;
      FoldComposes(format, format.apply(m, a[0]).value, a[1..], b);
    }
  }

  lemma {:induction false} PrintAllComposes(a: seq<Record>, b: seq<Record>)
    ensures PrintAll(a + b) == PrintAll(a) + PrintAll(b)
    decreases |a|
  {
    hide Print;
    if a == [] {
      assert a + b == b;
    } else {
      assert (a + b)[1..] == a[1..] + b;
      PrintAllComposes(a[1..], b);
    }
  }

  // ---------------------------------------------------------------- wire types and errors, number by number

  lemma {:induction false} TagOf(t: byte, rest: Bytes)
    requires t < 128
    ensures Read([t] + rest) == Ok(Number(t, 1)) && ([t] + rest)[1..] == rest
  {
    ReadEncode(t, rest);
    assert Encode(t) == [t];
  }

  /** What the skipper takes for each of the eight wire types. */
  lemma {:induction false} SkipSizes(t: byte, rest: Bytes)
    requires t < 128
    ensures t % 8 == 1 ==> Skip([t] + rest) == Ok(9)
    ensures t % 8 == 5 ==> Skip([t] + rest) == Ok(5)
    ensures t % 8 == 4 ==> Skip([t] + rest) == Ok(1)
    ensures t % 8 == 6 || t % 8 == 7 ==> Skip([t] + rest) == Err(IllegalWireType)
    ensures t % 8 == 0 && Decode(rest, 0).Ok? ==> Skip([t] + rest) == Ok(1 + Decode(rest, 0).value.size)
    ensures t % 8 == 2 && Read(rest).Ok? && Read(rest).value.value < 0x8000_0000_0000_0000 ==>
      Skip([t] + rest) == Ok(1 + Read(rest).value.size + Read(rest).value.value)
    ensures t % 8 == 2 && Read(rest).Ok? && Read(rest).value.value >= 0x8000_0000_0000_0000 ==>
      Skip([t] + rest) == Err(InvalidLength)
    ensures t % 8 == 3 ==> Skip([t] + rest) == SkipGroup([t] + rest, 1)
  {
    TagOf(t, rest);
    hide Read, Decode, SkipGroup;
  }

  /** A number is at most ten bytes, all but the last with the high bit set, and must end within the buffer. */
  lemma {:induction false} NumberErrors(b: Bytes, k: nat)
    requires k <= 10 && forall i :: 0 <= i < |b| && k + i < 10 ==> b[i] >= 128
    ensures Decode(b, k) == Err(if k + |b| >= 10 then IntOverflow else UnexpectedEof)
    decreases |b|
  {
    if k < 10 && b != [] {
      NumberErrors(b[1..], k + 1);
    }
  }

  /** The errors of a field: an end of group, field number zero, and a known field of another wire type. */
  lemma {:induction false} FieldErrors(kinds: map<nat, Kind>, t: byte, rest: Bytes)
    requires t < 128
    ensures t % 8 == 4 ==> Next(kinds, [t] + rest) == Err(EndGroup)
    ensures t % 8 != 4 && t / 8 == 0 ==> Next(kinds, [t] + rest) == Err(IllegalTag)
    ensures t % 8 != 4 && t / 8 > 0 && t / 8 in kinds && t % 8 != (if kinds[t / 8].Numeric? then 0 else 2) ==>
      Next(kinds, [t] + rest) == Err(WrongWireType)
  {
    TagOf(t, rest);
    hide Read;
  }

  // ---------------------------------------------------------------- unknown fields

  /** A well-formed field by the encoding's grammar; a number is any bytes that read as one. */
  datatype Unknown =
    | UVarint(field: nat, number: Bytes)
    | UFixed64(field: nat, eight: Bytes)
    | UDelimited(field: nat, content: Bytes)
    | UGroup(field: nat, fields: Unknowns, end: nat)
    | UFixed32(field: nat, four: Bytes)

  datatype Unknowns = Nil | Cons(head: Unknown, tail: Unknowns)

  predicate UnknownOk(u: Unknown) {
    && 0 < u.field < FIELD_LIMIT
    && match u
       case UVarint(_, number) => Decode(number, 0).Ok? && Decode(number, 0).value.size == |number|
       case UFixed64(_, eight) => |eight| == 8
       case UDelimited(_, content) => |content| < TWO_TO_THE_63
       case UGroup(_, fields, end) => end < FIELD_LIMIT && UnknownsOk(fields)
       case UFixed32(_, four) => |four| == 4
  }

  predicate UnknownsOk(us: Unknowns) {
    us.Cons? ==> UnknownOk(us.head) && UnknownsOk(us.tail)
  }

  function WireType(u: Unknown): (t: nat)
    ensures t < 8 && t != END_GROUP
  {
    match u
    case UVarint(_, _) => VARINT
    case UFixed64(_, _) => FIXED64
    case UDelimited(_, _) => DELIMITED
    case UGroup(_, _, _) => GROUP
    case UFixed32(_, _) => FIXED32
  }

  function Tag(u: Unknown): (b: Bytes)
    ensures |b| > 0
  {
    Encode(8 * u.field + WireType(u))
  }

  function PrintUnknown(u: Unknown): (b: Bytes)
    ensures |b| > 0
    decreases u, 1
  {
    Tag(u) + Payload(u)
  }

  function Payload(u: Unknown): Bytes
    decreases u, 0
  {
    match u
    case UVarint(_, number) => number
    case UFixed64(_, eight) => eight
    case UDelimited(_, content) => Encode(|content|) + content
    case UGroup(_, fields, end) => PrintUnknowns(fields) + Encode(8 * end + END_GROUP)
    case UFixed32(_, four) => four
  }

  function PrintUnknowns(us: Unknowns): Bytes
    decreases us, 0
  {
    match us
    case Nil => []
    case Cons(u, tail) => PrintUnknown(u) + PrintUnknowns(tail)
  }

  lemma {:induction false} TagRead(u: Unknown, rest: Bytes)
    requires UnknownOk(u)
    ensures PrintUnknown(u) + rest == Tag(u) + (Payload(u) + rest)
    ensures Read(PrintUnknown(u) + rest) == Ok(Number(8 * u.field + WireType(u), |Tag(u)|))
    ensures (PrintUnknown(u) + rest)[|Tag(u)|..] == Payload(u) + rest
  {
    hide Read, Encode, Payload;
    ReadEncode(8 * u.field + WireType(u), Payload(u) + rest);
    assert PrintUnknown(u) + rest == Tag(u) + (Payload(u) + rest);
  }

  /** The skipper takes exactly a well-formed field, groups of any depth included, whatever follows it. */
  lemma {:induction false} SkipsUnknown(u: Unknown, rest: Bytes)
    requires UnknownOk(u)
    ensures Skip(PrintUnknown(u) + rest) == Ok(|PrintUnknown(u)|)
    decreases u, 1
  {
    hide Skip, UnknownOk, PrintUnknown;
    if u.UGroup? {
      SkipsGroup(u, rest);
    } else {
      SkipsPlain(u, rest);
    }
  }

  lemma {:induction false} SkipsPlain(u: Unknown, rest: Bytes)
    requires UnknownOk(u) && !u.UGroup?
    ensures Skip(PrintUnknown(u) + rest) == Ok(|PrintUnknown(u)|)
  {
    hide Read, Encode, Decode, Tag, UnknownOk;
    TagRead(u, rest);
    match u {
      case UVarint(_, number) =>
        OkNumber(u);
        DecodeLocal(number, rest, 0);
      case UDelimited(_, content) =>
        OkContent(u);
        ReadEncode(|content|, content + rest);
        assert Payload(u) + rest == Encode(|content|) + (content + rest);
      case _ =>
        OkFixed(u);
    }
  }

  lemma {:induction false} SkipsGroup(u: Unknown, rest: Bytes)
    requires UnknownOk(u) && u.UGroup?
    ensures Skip(PrintUnknown(u) + rest) == Ok(|PrintUnknown(u)|)
    decreases u, 0
  {
    hide Read, Encode, Decode, Tag, UnknownOk, SkipGroup, PrintUnknowns;
    TagRead(u, rest);
    OkGroup(u);
    SkipsUnknowns(u.fields, Tag(u), u.end, rest);
    assert PrintUnknown(u) + rest == Tag(u) + PrintUnknowns(u.fields) + Encode(8 * u.end + END_GROUP) + rest;
  }

  /** A field that is not the end of its group is stepped over. */
  lemma {:induction false} SkipGroupStep(b: Bytes, i: nat, next: nat)
    requires 0 < i <= |b| && Read(b[i..]).Ok? && Read(b[i..]).value.value % 8 != END_GROUP
    requires Skip(b[i..]) == Ok(next) && i + next <= |b|
    ensures SkipGroup(b, i) == SkipGroup(b, i + next)
  {
    hide Read, Skip;
  }

  lemma {:induction false} SkipGroupEnd(b: Bytes, i: nat, end: nat, rest: Bytes)
    requires 0 < i <= |b| && end < FIELD_LIMIT && b[i..] == Encode(8 * end + END_GROUP) + rest
    ensures SkipGroup(b, i) == Ok(i + |Encode(8 * end + END_GROUP)|)
  {
    hide Read, Skip, Encode;
    ReadEncode(8 * end + END_GROUP, rest);
  }

  lemma {:induction false} SkipsUnknowns(us: Unknowns, before: Bytes, end: nat, rest: Bytes)
    requires UnknownsOk(us) && before != [] && end < FIELD_LIMIT
    ensures SkipGroup(before + PrintUnknowns(us) + Encode(8 * end + END_GROUP) + rest, |before|)
         == Ok(|before + PrintUnknowns(us) + Encode(8 * end + END_GROUP)|)
    decreases us, 0
  {
    hide Read, Encode, Decode, Tag, UnknownOk, Skip, SkipGroup, PrintUnknown, Payload, WireType;
    var close := Encode(8 * end + END_GROUP);
    var b := before + PrintUnknowns(us) + close + rest;
    match us {
      case Nil =>
        assert b[|before|..] == close + rest;
        SkipGroupEnd(b, |before|, end, rest);
      case Cons(u, tail) =>
        var after := PrintUnknowns(tail) + close + rest;
        SkipsUnknown(u, after);
        FieldTag(u, after);
        assert b[|before|..] == PrintUnknown(u) + after;
        SkipGroupStep(b, |before|, |PrintUnknown(u)|);
        SkipsUnknowns(tail, before + PrintUnknown(u), end, rest);
        assert b == before + PrintUnknown(u) + PrintUnknowns(tail) + close + rest;
    }
  }

  /** A field never starts with the end of a group. */
  lemma {:induction false} FieldTag(u: Unknown, after: Bytes)
    requires UnknownOk(u)
    ensures Read(PrintUnknown(u) + after).Ok? && Read(PrintUnknown(u) + after).value.value % 8 != END_GROUP
  {
    hide Read, PrintUnknown, Tag, Payload;
    TagRead(u, after);
    FieldOfTag(u.field, WireType(u));
  }

  lemma {:induction false} OkNumber(u: Unknown)
    requires UnknownOk(u) && u.UVarint?
    ensures Decode(u.number, 0).Ok? && Decode(u.number, 0).value.size == |u.number|
  {
  }

  lemma {:induction false} OkContent(u: Unknown)
    requires UnknownOk(u) && u.UDelimited?
    ensures |u.content| < TWO_TO_THE_63
  {
  }

  lemma {:induction false} OkGroup(u: Unknown)
    requires UnknownOk(u) && u.UGroup?
    ensures u.end < FIELD_LIMIT && UnknownsOk(u.fields)
  {
  }

  lemma {:induction false} OkFixed(u: Unknown)
    requires UnknownOk(u)
    ensures u.UFixed64? ==> |u.eight| == 8
    ensures u.UFixed32? ==> |u.four| == 4
  {
  }

  lemma {:induction false} FieldOfTag(field: nat, wireType: nat)
    requires 0 < field < FIELD_LIMIT && wireType < 8
    ensures Int32((8 * field + wireType) / 8) == field && (8 * field + wireType) % 8 == wireType
  {
  }

  lemma {:induction false} UnknownNext(kinds: map<nat, Kind>, u: Unknown, rest: Bytes)
    requires UnknownOk(u) && u.field !in kinds
    ensures Next(kinds, PrintUnknown(u) + rest) == Ok(Field(None, |PrintUnknown(u)|))
  {
    FieldOfTag(u.field, WireType(u));
    hide Read, Encode, Decode, Tag, UnknownOk, Skip, Payload, PrintUnknown, WireType, Int32, NextNumber, NextBlob;
    SkipsUnknown(u, rest);
    TagRead(u, rest);
  }

  /** An unknown field between two others changes nothing, whether or not what follows it parses. */
  lemma {:induction false} UnknownFieldIgnored<M>(format: Format<M>, m: M, a: Bytes, u: Unknown, b: Bytes)
    requires Unmarshal(format, m, a).Ok?
    requires UnknownOk(u) && u.field !in format.kinds
    ensures Unmarshal(format, m, a + PrintUnknown(u) + b) == Unmarshal(format, m, a + b)
  {
    hide Next, PrintUnknown, UnknownOk;
    var after := Unmarshal(format, m, a).value;
    UnmarshalComposes(format, m, a, PrintUnknown(u) + b);
    UnmarshalComposes(format, m, a, b);
    UnknownNext(format.kinds, u, b);
    assert a + PrintUnknown(u) + b == a + (PrintUnknown(u) + b);
    assert (PrintUnknown(u) + b)[|PrintUnknown(u)|..] == b;
  }
}
