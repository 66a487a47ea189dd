/** The contract of the mixers' shuffler: a permutation of a batch, and its undoing. */
module Shuffles {
  import opened Common

  /** Slot i goes to slot to[i], and slot j came from slot from[j]. */
  datatype Perm = Perm(to: seq<nat>, from: seq<nat>)

  ghost predicate IsPerm(p: Perm, n: nat) {
    && |p.to| == n && |p.from| == n
    && (forall i :: 0 <= i < n ==> p.to[i] < n && p.from[p.to[i]] == i)
    && (forall j :: 0 <= j < n ==> p.from[j] < n && p.to[p.from[j]] == j)
  }

  function Shuffle<T>(p: Perm, batch: seq<T>): (r: seq<T>)
    requires IsPerm(p, |batch|)
    ensures |r| == |batch|
    ensures forall j :: 0 <= j < |r| ==> r[j] == batch[p.from[j]]
    ensures forall i :: 0 <= i < |batch| ==> r[p.to[i]] == batch[i]
  {
    seq(|batch|, j requires 0 <= j < |batch| => batch[p.from[j]])
  }

  function Unshuffle<T>(p: Perm, batch: seq<T>): (r: seq<T>)
    requires IsPerm(p, |batch|)
    ensures |r| == |batch|
    ensures forall i :: 0 <= i < |batch| ==> r[i] == batch[p.to[i]]
  {
    seq(|batch|, i requires 0 <= i < |batch| => batch[p.to[i]])
  }

  /** Where x is in a batch. */
  ghost function Places<T>(s: seq<T>, x: T): (r: set<nat>)
    ensures forall i :: i in r <==> 0 <= i < |s| && s[i] == x
  {
    set i: nat | 0 <= i < |s| && s[i] == x
  }

  lemma {:induction false} CountIsPlaces<T>(s: seq<T>, x: T)
    ensures multiset(s)[x] == |Places(s, x)|
  {
    if s == [] {
      assert Places(s, x) == {};
    } else {
      var rest := s[..|s| - 1];
      CountIsPlaces(rest, x);
      assert s == rest + [s[|s| - 1]];
      assert Places(s, x) == Places(rest, x) + if s[|s| - 1] == x then {|s| - 1} else {};
    }
  }

  /** A set that goes one to one into another is no larger. */
  lemma {:induction false} Injected(a: set<nat>, b: set<nat>, to: seq<nat>)
    requires forall i :: i in a ==> 0 <= i < |to| && to[i] in b
    requires forall i, j :: i in a && j in a && to[i] == to[j] ==> i == j
    ensures |a| <= |b|
    decreases |a|
  {
    if a != {} {
      var i :| i in a;
      Injected(a - {i}, b - {to[i]}, to);
    }
  }

  /** A shuffle loses, adds and changes nothing. */
  lemma {:induction false} ShuffleKeepsAll<T>(p: Perm, s: seq<T>)
    requires IsPerm(p, |s|)
    ensures multiset(Shuffle(p, s)) == multiset(s)
  {
    var t := Shuffle(p, s);
    forall x: T
      ensures multiset(t)[x] == multiset(s)[x]
    {
      CountIsPlaces(s, x);
      CountIsPlaces(t, x);
      Injected(Places(s, x), Places(t, x), p.to);
      Injected(Places(t, x), Places(s, x), p.from);
    }
  }

  /** Exchanges slots 0 and i. */
  function Swap(n: nat, i: nat): (p: Perm)
    requires i < n
    ensures IsPerm(p, n) && p.from[0] == i && p.to[i] == 0
  {
    var s := seq(n, k => if k == 0 then i else if k == i then 0 else k);
    Perm(s, s)
  }
}
