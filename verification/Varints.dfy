/**
 Base 128 varints: the printer, its size function and the shift-by-7 reading loop, over values of any
 size with Go's 64-bit truncation written out.
 */
module Varints {
  import opened Common

  datatype Error = IntOverflow | UnexpectedEof | InvalidLength | EndGroup | IllegalTag | WrongWireType | IllegalWireType

  datatype Result<+T> = Ok(value: T) | Err(error: Error)

  const TWO_TO_THE_63: nat := 0x8000_0000_0000_0000
  const TWO_TO_THE_64: nat := 0x1_0000_0000_0000_0000

  type u64 = x: int | 0 <= x < TWO_TO_THE_64

  /** A number that was read, and how many bytes it took. */
  datatype Number = Number(value: nat, size: nat)

  function Pow128(k: nat): (p: nat)
    ensures p > 0
  {
    if k == 0 then 1 else 128 * Pow128(k - 1)
  }

  function Encode(v: nat): (b: Bytes)
    ensures |b| > 0
  {
    if v < 128 then [v] else [v % 128 + 128] + Encode(v / 128)
  }

  /** The number at the start of b, untruncated; k bytes of it came before. */
  function Decode(b: Bytes, k: nat): (r: Result<Number>)
    ensures r.Ok? ==> 0 < r.value.size <= |b| && k + r.value.size <= 10
    decreases |b|
  {
    if 7 * k >= 64 then Err(IntOverflow)
    else if b == [] then Err(UnexpectedEof)
    else if b[0] < 128 then Ok(Number(b[0], 1))
    else
      match Decode(b[1..], k + 1)
      case Err(e) => Err(e)
      case Ok(rest) => Ok(Number(b[0] - 128 + 128 * rest.value, rest.size + 1))
  }

  /** The value a Go uint64 holds after an operation with result x. */
  function Wrap64(x: nat): (r: u64) {
    x % TWO_TO_THE_64
  }

  /** The low seven bits of b, shifted to the place of digit k. */
  function Shift(b: byte, k: nat): nat {
    b % 128 * Pow128(k)
  }

  /** What a reading loop with a uint64 accumulator finds at the start of b. */
  function Read(b: Bytes): (r: Result<Number>)
    ensures r.Ok? ==> 0 < r.value.size <= |b| && r.value.value < TWO_TO_THE_64
  {
    match Decode(b, 0)
    case Err(e) => Err(e)
    case Ok(n) => Ok(Number(Wrap64(n.value), n.size))
  }

  // ---------------------------------------------------------------- printing and reading back

  /** The size is the number of base-128 digits. */
  lemma {:induction false} SizeExact(v: nat, k: nat)
    requires k > 0
    ensures |Encode(v)| <= k <==> v < Pow128(k)
  {
    if v >= 128 && k > 1 {
      SizeExact(v / 128, k - 1);
      DivBelow(v, Pow128(k - 1));
    } else if k > 1 {
      assert Pow128(k - 1) > 0;
    } else {
      assert Pow128(1) == 128 * Pow128(0);
    }
  }

  lemma {:induction false} DivBelow(v: nat, p: nat)
    ensures v / 128 < p <==> v < 128 * p
  {
  }

  lemma {:induction false} SizeOfUint64(v: u64)
    ensures |Encode(v)| <= 10
  {
    SizeExact(v, 10);
    Pow128Ten();
  }

  lemma {:induction false} Pow128Ten()
    ensures Pow128(9) == TWO_TO_THE_63 && Pow128(10) == 64 * TWO_TO_THE_64
  {
    assert Pow128(3) == 0x20_0000;
    assert Pow128(6) == 0x20_0000 * 0x20_0000;
    assert Pow128(9) == 0x20_0000 * 0x20_0000 * 0x20_0000;
  }

  lemma {:induction false} DecodeEncode(v: nat, rest: Bytes, k: nat)
    requires k + |Encode(v)| <= 10
    ensures Decode(Encode(v) + rest, k) == Ok(Number(v, |Encode(v)|))
  {
    if v >= 128 {
      DecodeEncode(v / 128, rest, k + 1);
      assert (Encode(v) + rest)[1..] == Encode(v / 128) + rest;
    }
  }

  /** Reading gives back every uint64 that was printed, whatever follows it. */
  lemma {:induction false} ReadEncode(v: u64, rest: Bytes)
    ensures Read(Encode(v) + rest) == Ok(Number(v, |Encode(v)|))
  {
    SizeOfUint64(v);
    DecodeEncode(v, rest, 0);
  }

  lemma {:induction false} DecodedBelow(b: Bytes, k: nat)
    requires Decode(b, k).Ok?
    ensures Decode(b, k).value.value < Pow128(Decode(b, k).value.size)
  {
    if b[0] >= 128 {
      DecodedBelow(b[1..], k + 1);
    }
  }

  /** Printing is the shortest form: no bytes that read as v are fewer. */
  lemma {:induction false} EncodeIsShortest(b: Bytes)
    requires Decode(b, 0).Ok?
    ensures |Encode(Decode(b, 0).value.value)| <= Decode(b, 0).value.size
  {
    DecodedBelow(b, 0);
    SizeExact(Decode(b, 0).value.value, Decode(b, 0).value.size);
  }

  /** What follows a number does not matter. */
  lemma {:induction false} DecodeLocal(a: Bytes, b: Bytes, k: nat)
    requires Decode(a, k).Ok?
    ensures Decode(a + b, k) == Decode(a, k)
  {
    if a[0] >= 128 {
      DecodeLocal(a[1..], b, k + 1);
      assert (a + b)[1..] == a[1..] + b;
    }
  }

  // ---------------------------------------------------------------- the loops

  method Sov(x: u64) returns (n: nat)
    ensures n == |Encode(x)|
  {
    n := 1;
    var y: nat := x / 128;
    while y != 0
      invariant n + (if y == 0 then 0 else |Encode(y)|) == |Encode(x)|
      decreases y
    {
      n := n + 1;
      y := y / 128;
    }
  }

  /** Writes v from offset on and returns the offset after it. */
  method EncodeVarint(dAtA: array<byte>, offset: nat, v: u64) returns (next: nat)
    requires offset + |Encode(v)| <= dAtA.Length
    modifies dAtA
    ensures next == offset + |Encode(v)|
    ensures dAtA[..] == old(dAtA[..offset]) + Encode(v) + old(dAtA[next..])
  {
    hide Encode;
    var rest: nat := v;
    next := offset;
    while rest >= 128
      invariant offset <= next < offset + |Encode(v)|
      invariant forall i :: 0 <= i < next - offset ==> dAtA[offset + i] == Encode(v)[i]
      invariant Encode(v)[next - offset..] == Encode(rest)
      invariant forall i :: 0 <= i < dAtA.Length && !(offset <= i < next) ==> dAtA[i] == old(dAtA[i])
      decreases rest
    {
      EncodeHead(v, rest, next - offset);
      dAtA[next] := rest % 128 + 128;
      rest := rest / 128;
      next := next + 1;
    }
    EncodeLast(rest);
    assert Encode(v)[next - offset] == Encode(v)[next - offset..][0];
    dAtA[next] := rest;
    next := next + 1;
    Assembled(dAtA[..], old(dAtA[..]), Encode(v), offset);
  }

  lemma {:induction false} EncodeHead(v: nat, rest: nat, k: nat)
    requires rest >= 128 && k < |Encode(v)| && Encode(v)[k..] == Encode(rest)
    ensures k + 1 < |Encode(v)|
    ensures Encode(v)[k] == rest % 128 + 128 && Encode(v)[k + 1..] == Encode(rest / 128)
  {
    hide Encode;
    assert Encode(rest) == [rest % 128 + 128] + Encode(rest / 128) by {
      EncodeUnfolds(rest);
    }
    assert Encode(v)[k + 1..] == Encode(v)[k..][1..];
    assert Encode(v)[k] == Encode(v)[k..][0];
  }

  lemma {:induction false} EncodeUnfolds(v: nat)
    requires v >= 128
    ensures Encode(v) == [v % 128 + 128] + Encode(v / 128)
  {
  }

  lemma {:induction false} EncodeLast(v: nat)
    requires v < 128
    ensures Encode(v) == [v]
  {
  }

  /** A sequence with one stretch written. */
  lemma {:induction false} Assembled(now: Bytes, before: Bytes, piece: Bytes, offset: nat)
    requires |now| == |before| && offset + |piece| <= |now|
    requires forall i :: 0 <= i < |piece| ==> now[offset + i] == piece[i]
    requires forall i :: 0 <= i < |now| && !(offset <= i < offset + |piece|) ==> now[i] == before[i]
    ensures now == before[..offset] + piece + before[offset + |piece|..]
  {
    assert forall i :: offset <= i < offset + |piece| ==> now[i] == now[offset + (i - offset)];
  }

  /** The reading loop: the value is truncated at every step, as the shift into a uint64 does. */
  method ReadVarint(dAtA: Bytes, start: nat) returns (r: Result<Number>)
    requires start <= |dAtA|
    ensures r == Read(dAtA[start..])
  {
    hide Decode, Pow128, Wrap64, Shift, Shifted;
    var wire: nat, i, k := 0, start, 0;
    WrapAdds(0, 0);
    ghost var sum: nat := 0;
    ShiftedByNone(Decode(dAtA[start..], 0));
    while true
      invariant k == i - start && start <= i <= |dAtA|
      invariant wire == Wrap64(sum)
      invariant Decode(dAtA[start..], 0) == Shifted(sum, k, Decode(dAtA[i..], k))
      decreases |dAtA| - i
    {
      ReadStep(sum, k, dAtA, i);
      if 7 * k >= 64 {
        return Err(IntOverflow);
      }
      if i >= |dAtA| {
        return Err(UnexpectedEof);
      }
      var b := dAtA[i];
      WrapAdds(sum, Shift(b, k));
      wire := Wrap64(wire + Shift(b, k));
      sum := sum + Shift(b, k);
      i := i + 1;
      k := k + 1;
      if b < 128 {
        return Ok(Number(wire, i - start));
      }
    }
  }

  /** A number whose first k digits add up to sum. */
  ghost function Shifted(sum: nat, k: nat, rest: Result<Number>): Result<Number> {
    match rest
    case Err(e) => Err(e)
    case Ok(n) => Ok(Number(sum + Pow128(k) * n.value, k + n.size))
  }

  lemma {:induction false} ShiftedByNone(rest: Result<Number>)
    ensures Shifted(0, 0, rest) == rest
  {
  }

  lemma {:induction false} WrapAdds(sum: nat, x: nat)
    ensures Wrap64(Wrap64(sum) + x) == Wrap64(sum + x)
    ensures Wrap64(0) == 0
  {
  }

  /** One turn of the reading loop. */
  lemma {:induction false} ReadStep(sum: nat, k: nat, data: Bytes, i: nat)
    requires i <= |data|
    ensures var r := Shifted(sum, k, Decode(data[i..], k));
      if 7 * k >= 64 then r == Err(IntOverflow)
      else if i == |data| then r == Err(UnexpectedEof)
      else if data[i] < 128 then r == Ok(Number(sum + Shift(data[i], k), k + 1))
      else r == Shifted(sum + Shift(data[i], k), k + 1, Decode(data[i + 1..], k + 1))
  {
    if 7 * k < 64 && i < |data| {
      assert data[i..][1..] == data[i + 1..];
      AddDigit(sum, k, data[i], Decode(data[i + 1..], k + 1));
    }
  }

  lemma {:induction false} AddDigit(sum: nat, k: nat, b: byte, rest: Result<Number>)
    ensures b < 128 ==> Shifted(sum, k, Ok(Number(b, 1))) == Ok(Number(sum + Shift(b, k), k + 1))
    ensures b >= 128 && rest.Ok? ==>
      Shifted(sum, k, Ok(Number(b - 128 + 128 * rest.value.value, rest.value.size + 1)))
      == Shifted(sum + Shift(b, k), k + 1, rest)
  {
    hide Pow128;
    assert Pow128(k + 1) == 128 * Pow128(k) by {
      NextPower(k);
    }
    if b >= 128 && rest.Ok? {
      Distribute(Pow128(k), b - 128, rest.value.value);
    }
  }

  lemma {:induction false} NextPower(k: nat)
    ensures Pow128(k + 1) == 128 * Pow128(k)
  {
  }

  lemma {:induction false} Distribute(p: nat, low: nat, high: nat)
    ensures p * (low + 128 * high) == low * p + 128 * p * high
  {
  }
}
