/** The cover traffic a mixer adds: lone messages and pairs that meet in a drop. */
module Noise {
  import opened Common
  import opened DeadDrops
  import opened AccessCounts

  /** The random bytes a mixer draws, one full message per slot. */
  type Random = nat -> Message

  /** Sealing a message for the servers that follow, with fresh keys per slot. */
  type Sealer = (nat, Message) -> Bytes

  function WithDrop(m: Message, drop: Bytes): (r: Message)
    requires |drop| == SIZE_DROP
    ensures DropOf(r) == drop && Body(r) == Body(m)
  {
    var r := drop + m[SIZE_DROP..];
    assert r[..SIZE_DROP] == drop;
    r
  }

  /** The message in a slot: the second of a pair takes the drop of the first. */
  function NoiseMessage(rnd: Random, singles: nat, slot: nat): Message {
    if slot < singles || (slot - singles) % 2 == 0 then rnd(slot) else WithDrop(rnd(slot), DropOf(rnd(slot - 1)))
  }

  function NoiseMessages(rnd: Random, singles: nat, doubles: nat): (r: seq<Message>)
    ensures |r| == singles + doubles
    ensures forall i :: 0 <= i < |r| ==> r[i] == NoiseMessage(rnd, singles, i)
  {
    seq(singles + doubles, i requires 0 <= i < singles + doubles => NoiseMessage(rnd, singles, i))
  }

  /** What the last mixer's counters show for a batch. */
  ghost function Counts(batch: seq<Message>): (nat, nat) {
    (|Once(batch, |batch|)|, |Often(batch, |batch|)|)
  }

  ghost predicate FreshDrop(batch: seq<Message>, drop: Bytes) {
    forall i :: 0 <= i < |batch| ==> DropOf(batch[i]) != drop
  }

  lemma {:induction false} FirstTwoPrefix(batch: seq<Message>, more: seq<Message>, drop: Bytes, n: nat)
    requires n <= |batch|
    ensures FirstTwo(batch + more, drop, n) == FirstTwo(batch, drop, n)
  {
    if n > 0 {
      FirstTwoPrefix(batch, more, drop, n - 1);
    }
  }

  lemma {:induction false} CountsPrefix(batch: seq<Message>, more: seq<Message>)
    ensures Once(batch + more, |batch|) == Once(batch, |batch|) && Often(batch + more, |batch|) == Often(batch, |batch|)
  {
    forall d
      ensures d in Once(batch + more, |batch|) <==> d in Once(batch, |batch|)
      ensures d in Often(batch + more, |batch|) <==> d in Often(batch, |batch|)
    {
      OnceMember(batch + more, |batch|, d);
      OnceMember(batch, |batch|, d);
      FirstTwoPrefix(batch, more, d, |batch|);
    }
  }

  /** A message on a fresh drop adds one single. */
  lemma {:induction false} AddSingle(batch: seq<Message>, m: Message)
    requires FreshDrop(batch, DropOf(m))
    ensures Counts(batch + [m]) == (Counts(batch).0 + 1, Counts(batch).1)
  {
    var b := batch + [m];
    CountsPrefix(batch, [m]);
    FirstTwoPrefix(batch, [m], DropOf(m), |batch|);
    UnhitIsEmpty(batch, DropOf(m), |batch|);
    CountStep(b, |batch|);
  }

  /** Two messages that share a fresh drop add one double. */
  lemma {:induction false} AddPair(batch: seq<Message>, m: Message, m': Message)
    requires FreshDrop(batch, DropOf(m)) && DropOf(m') == DropOf(m)
    ensures Counts(batch + [m, m']) == (Counts(batch).0, Counts(batch).1 + 1)
  {
    var b := batch + [m];
    assert b + [m'] == batch + [m, m'];
    AddSingle(batch, m);
    CountsPrefix(b, [m']);
    FirstTwoPrefix(b, [m'], DropOf(m), |b|);
    FirstTwoPrefix(batch, [m], DropOf(m), |batch|);
    UnhitIsEmpty(batch, DropOf(m), |batch|);
    StepHits(b, |batch|, DropOf(m));
    CountStep(b + [m'], |b|);
  }

  /** The drops drawn for the noise are new to the batch and to each other. */
  ghost predicate FreshNoise(batch: seq<Message>, rnd: Random, n: nat) {
    && (forall i :: 0 <= i < n ==> FreshDrop(batch, DropOf(rnd(i))))
    && (forall i, j :: 0 <= i < j < n ==> DropOf(rnd(i)) != DropOf(rnd(j)))
  }

  lemma {:induction false} NoiseStaysFresh(batch: seq<Message>, rnd: Random, singles: nat, n: nat, slot: nat)
    requires n <= slot && FreshNoise(batch, rnd, slot + 1)
    ensures FreshDrop(batch + NoiseMessages(rnd, singles, Max(n - singles, 0))[..n], DropOf(rnd(slot)))
  {
    var noise := NoiseMessages(rnd, singles, Max(n - singles, 0))[..n];
    forall i | 0 <= i < |batch + noise|
      ensures DropOf((batch + noise)[i]) != DropOf(rnd(slot))
    {
      if i >= |batch| {
        var k := i - |batch|;
        assert noise[k] == NoiseMessage(rnd, singles, k);
      }
    }
  }

  lemma {:induction false} SinglesCounted(batch: seq<Message>, rnd: Random, singles: nat)
    requires FreshNoise(batch, rnd, singles)
    ensures Counts(batch + NoiseMessages(rnd, singles, 0)) == (Counts(batch).0 + singles, Counts(batch).1)
  {
    hide Counts;
    if singles == 0 {
      assert batch + NoiseMessages(rnd, 0, 0) == batch;
    } else {
      SinglesCounted(batch, rnd, singles - 1);
      var before := NoiseMessages(rnd, singles - 1, 0);
      NoiseStaysFresh(batch, rnd, singles - 1, singles - 1, singles - 1);
      assert before[..singles - 1] == before;
      AddSingle(batch + before, rnd(singles - 1));
      assert batch + NoiseMessages(rnd, singles, 0) == batch + before + [rnd(singles - 1)];
    }
  }

  lemma {:induction false} NextPair(rnd: Random, singles: nat, pairs: nat)
    ensures var n := singles + 2 * pairs;
            && NoiseMessages(rnd, singles, 2 * pairs + 2)
               == NoiseMessages(rnd, singles, 2 * pairs) + [rnd(n), WithDrop(rnd(n + 1), DropOf(rnd(n)))]
  {
    hide WithDrop;
    var n := singles + 2 * pairs;
    assert NoiseMessage(rnd, singles, n) == rnd(n);
    assert NoiseMessage(rnd, singles, n + 1) == WithDrop(rnd(n + 1), DropOf(rnd(n)));
  }

  /** The noise raises the two counts by exactly what was drawn. */
  lemma {:induction false} NoiseCounted(batch: seq<Message>, rnd: Random, singles: nat, pairs: nat)
    requires FreshNoise(batch, rnd, singles + 2 * pairs)
    ensures Counts(batch + NoiseMessages(rnd, singles, 2 * pairs))
         == (Counts(batch).0 + singles, Counts(batch).1 + pairs)
    decreases pairs
  {
    hide Counts, WithDrop;
    if pairs == 0 {
      SinglesCounted(batch, rnd, singles);
    } else {
      NoiseCounted(batch, rnd, singles, pairs - 1);
      var n := singles + 2 * (pairs - 1);
      var before := NoiseMessages(rnd, singles, 2 * (pairs - 1));
      NoiseStaysFresh(batch, rnd, singles, n, n);
      assert before[..n] == before;
      var pair := [rnd(n), WithDrop(rnd(n + 1), DropOf(rnd(n)))];
      AddPair(batch + before, pair[0], pair[1]);
      NextPair(rnd, singles, pairs - 1);
      assert batch + (before + pair) == batch + before + pair;
    }
  }

  // ---------------------------------------------------------------- filling the slots

  function SealedNoise(seal: Sealer, rnd: Random, singles: nat, doubles: nat): (r: seq<Bytes>)
    ensures |r| == singles + doubles
    ensures forall i :: 0 <= i < |r| ==> r[i] == seal(i, NoiseMessage(rnd, singles, i))
  {
    seq(singles + doubles, i requires 0 <= i < singles + doubles => seal(i, NoiseMessage(rnd, singles, i)))
  }

  method FillWithFakeSingles(dest: array<Bytes>, count: nat, seal: Sealer, rnd: Random)
    requires count <= dest.Length
    modifies dest
    ensures forall i :: 0 <= i < count ==> dest[i] == seal(i, NoiseMessage(rnd, count, i))
    ensures forall i :: count <= i < dest.Length ==> dest[i] == old(dest[i])
  {
    var todo := Indices(count);
    while todo != {}
      invariant forall i :: i in todo ==> i < count
      invariant forall i :: 0 <= i < count && i !in todo ==> dest[i] == seal(i, NoiseMessage(rnd, count, i))
      invariant forall i :: count <= i < dest.Length ==> dest[i] == old(dest[i])
      decreases todo
    {
      var i :| i in todo;
      dest[i] := seal(i, rnd(i));
      todo := todo - {i};
    }
  }

  method FillWithFakeDoubles(dest: array<Bytes>, from: nat, seal: Sealer, rnd: Random)
    requires from <= dest.Length
    modifies dest
    ensures forall i :: from <= i < from + (dest.Length - from) / 2 * 2 ==>
              dest[i] == seal(i, NoiseMessage(rnd, from, i))
    ensures forall i :: 0 <= i < from ==> dest[i] == old(dest[i])
    ensures (dest.Length - from) % 2 == 1 ==> dest[dest.Length - 1] == old(dest[dest.Length - 1])
  {
    hide WithDrop, NoiseMessage, PairFilled;
    var pairs := (dest.Length - from) / 2;
    var todo := Indices(pairs);
    while todo != {}
      invariant forall k :: k in todo ==> k < pairs
      invariant forall k :: 0 <= k < pairs && k !in todo ==> PairFilled(dest, from, k, seal, rnd)
      invariant forall i :: 0 <= i < from || from + 2 * pairs <= i < dest.Length ==> dest[i] == old(dest[i])
      decreases todo
    {
      var k :| k in todo;
      FillPair(dest, from, k, seal, rnd);
      todo := todo - {k};
    }
    forall i | from <= i < from + 2 * pairs
      ensures dest[i] == seal(i, NoiseMessage(rnd, from, i))
    {
      FilledAt(dest, from, (i - from) / 2, seal, rnd);
    }
  }

  lemma {:induction false} FilledAt(dest: array<Bytes>, from: nat, k: nat, seal: Sealer, rnd: Random)
    requires PairFilled(dest, from, k, seal, rnd)
    ensures var i := from + 2 * k;
            && i + 1 < dest.Length && dest[i] == seal(i, NoiseMessage(rnd, from, i))
            && dest[i + 1] == seal(i + 1, NoiseMessage(rnd, from, i + 1))
  {
  }

  /** Pair k of the doubles is in its two slots. */
  predicate PairFilled(dest: array<Bytes>, from: nat, k: nat, seal: Sealer, rnd: Random)
    reads dest
  {
    var i := from + 2 * k;
    && i + 1 < dest.Length
    && dest[i] == seal(i, NoiseMessage(rnd, from, i)) && dest[i + 1] == seal(i + 1, NoiseMessage(rnd, from, i + 1))
  }

  method FillPair(dest: array<Bytes>, from: nat, k: nat, seal: Sealer, rnd: Random)
    requires from + 2 * k + 1 < dest.Length
    modifies dest
    ensures PairFilled(dest, from, k, seal, rnd)
    ensures forall m :: m != k && old(PairFilled(dest, from, m, seal, rnd)) ==> PairFilled(dest, from, m, seal, rnd)
    ensures forall i :: 0 <= i < dest.Length && i != from + 2 * k && i != from + 2 * k + 1 ==> dest[i] == old(dest[i])
  {
    hide WithDrop;
    var i := from + 2 * k;
    dest[i] := seal(i, rnd(i));
    dest[i + 1] := seal(i + 1, WithDrop(rnd(i + 1), DropOf(rnd(i))));
    assert NoiseMessage(rnd, from, i) == rnd(i);
    assert NoiseMessage(rnd, from, i + 1) == WithDrop(rnd(i + 1), DropOf(rnd(i)));
  }

  /** The number of fake doubles for a draw, as a uint32: even, and zero for the largest draw. */
  function Doubles(draw: u32): (d: u32)
    ensures d % 2 == 0
    ensures if draw == 0xFFFF_FFFF then d == 0 else draw <= d <= draw + 1
  {
    Wrap32(draw + draw % 2)
  }

  /**
   A mixer that is not the last fills singles and an even number of doubles; the last adds nothing. When
   the two numbers do not fit in a uint32 together, slicing the slots fails, and there is no result.
   */
  method GenerateNoise(myPos: nat, servers: nat, numFakeSingles: u32, draw: u32, seal: Sealer, rnd: Random)
    returns (noise: Option<seq<Bytes>>)
    ensures noise ==
      if myPos + 1 >= servers then Some([])
      else if numFakeSingles + Doubles(draw) < TWO_TO_THE_32 then
        Some(SealedNoise(seal, rnd, numFakeSingles, Doubles(draw)))
      else None
  {
    if !(myPos < servers - 1) {
      return Some([]);
    }
    var numFakeDoubles := Doubles(draw);
    var total := Wrap32(numFakeSingles + numFakeDoubles);
    if numFakeSingles > total {
      return None;
    }
    var slots := new Bytes[total](_ => []);
    FillWithFakeSingles(slots, numFakeSingles, seal, rnd);
    FillWithFakeDoubles(slots, numFakeSingles, seal, rnd);
    assert (slots.Length - numFakeSingles) / 2 * 2 == numFakeDoubles;
    assert slots[..] == SealedNoise(seal, rnd, numFakeSingles, numFakeDoubles);
    noise := Some(slots[..]);
  }
}
