/** Types and small facts shared by every part of the model. */
module Common {

  datatype Option<+T> = None | Some(value: T)

  type byte = x: int | 0 <= x < 256
  type Bytes = seq<byte>

  const TWO_TO_THE_32: nat := 0x1_0000_0000

  /** A Go uint32. */
  type u32 = x: int | 0 <= x < TWO_TO_THE_32

  /** The value a Go uint32 holds after an arithmetic operation with result x. */
  function Wrap32(x: int): (r: u32)
    ensures 0 <= x < TWO_TO_THE_32 ==> r == x
  {
    x % TWO_TO_THE_32
  }

  function Zeros(n: nat): (z: Bytes)
    ensures |z| == n
    ensures forall i :: 0 <= i < n ==> z[i] == 0
  {
    seq(n, i => 0)
  }

  /** The indices 0 to n - 1. */
  function Indices(n: nat): (r: set<nat>)
    ensures forall i :: i in r <==> 0 <= i < n
  {
    if n == 0 then {} else Indices(n - 1) + {n - 1}
  }

  function Max(x: int, y: int): int {
    if x > y then x else y
  }

  ghost predicate StrictlyIncreasing(s: seq<nat>) {
    forall i, j :: 0 <= i < j < |s| ==> s[i] < s[j]
  }

  /** The elements of a sequence, as a set. */
  ghost function Elements<T(!new)>(s: seq<T>): set<T> {
    set x | x in s
  }
}
