/** What the last mixer learns of a batch: how many drops were hit once, and how many more often. */
module AccessCounts {
  import opened Common
  import opened Shuffles
  import opened DeadDrops

  /** Drops hit exactly once, and drops hit at least twice, among the first n slots. */
  ghost function Once(batch: seq<Message>, n: nat): set<Bytes>
    requires n <= |batch|
  {
    set i | 0 <= i < n && |FirstTwo(batch, DropOf(batch[i]), n)| == 1 :: DropOf(batch[i])
  }

  ghost function Often(batch: seq<Message>, n: nat): set<Bytes>
    requires n <= |batch|
  {
    set i | 0 <= i < n && |FirstTwo(batch, DropOf(batch[i]), n)| == 2 :: DropOf(batch[i])
  }

  lemma {:induction false} UnhitIsEmpty(batch: seq<Message>, drop: Bytes, n: nat)
    requires n <= |batch|
    ensures FirstTwo(batch, drop, n) == [] <==> forall i :: 0 <= i < n ==> DropOf(batch[i]) != drop
  {
    if n > 0 {
      UnhitIsEmpty(batch, drop, n - 1);
      FirstTwoHits(batch, drop, n - 1);
    }
  }

  lemma {:induction false} OnceMember(batch: seq<Message>, n: nat, drop: Bytes)
    requires n <= |batch|
    ensures drop in Once(batch, n) <==> |FirstTwo(batch, drop, n)| == 1
    ensures drop in Often(batch, n) <==> |FirstTwo(batch, drop, n)| == 2
  {
    FirstTwoHits(batch, drop, n);
    var hits := FirstTwo(batch, drop, n);
    if hits != [] {
      assert DropOf(batch[hits[0]]) == drop;
    }
  }

  lemma {:induction false} StepHits(batch: seq<Message>, n: nat, drop: Bytes)
    requires n < |batch|
    ensures var before, after := FirstTwo(batch, drop, n), FirstTwo(batch, drop, n + 1);
            && |before| <= 2
            && after == if drop == DropOf(batch[n]) && |before| < 2 then before + [n] else before
  {
    FirstTwoHits(batch, drop, n);
  }

  /** What one more slot does to the two sets. */
  lemma {:induction false} SetsStep(batch: seq<Message>, n: nat)
    requires n < |batch|
    ensures var drop := DropOf(batch[n]);
            var hits := |FirstTwo(batch, drop, n)|;
            && Once(batch, n + 1) == (if hits == 0 then Once(batch, n) + {drop} else Once(batch, n) - {drop})
            && Often(batch, n + 1) == (if hits == 0 then Often(batch, n) - {drop} else Often(batch, n) + {drop})
            && (drop in Once(batch, n) <==> hits == 1) && (drop in Often(batch, n) <==> hits == 2)
  {
    hide Once, Often, FirstTwo;
    var drop := DropOf(batch[n]);
    forall d
      ensures d in Once(batch, n) <==> |FirstTwo(batch, d, n)| == 1
      ensures d in Often(batch, n) <==> |FirstTwo(batch, d, n)| == 2
      ensures d in Once(batch, n + 1) <==> |FirstTwo(batch, d, n + 1)| == 1
      ensures d in Often(batch, n + 1) <==> |FirstTwo(batch, d, n + 1)| == 2
      ensures |FirstTwo(batch, d, n + 1)|
           == |FirstTwo(batch, d, n)| + if d == drop && |FirstTwo(batch, d, n)| < 2 then 1 else 0
      ensures |FirstTwo(batch, d, n)| <= 2
    {
      OnceMember(batch, n, d);
      OnceMember(batch, n + 1, d);
      StepHits(batch, n, d);
    }
  }

  /** What one more slot does to the two counts. */
  lemma {:induction false} CountStep(batch: seq<Message>, n: nat)
    requires n < |batch|
    ensures var hits := |FirstTwo(batch, DropOf(batch[n]), n)|;
            && hits <= 2
            && |Once(batch, n + 1)| == |Once(batch, n)| + (if hits == 0 then 1 else if hits == 1 then -1 else 0)
            && |Often(batch, n + 1)| == |Often(batch, n)| + (if hits == 1 then 1 else 0)
  {
    hide Once, Often, FirstTwo;
    var drop := DropOf(batch[n]);
    SetsStep(batch, n);
    StepHits(batch, n, drop);
    assert Often(batch, n) - {drop} == Often(batch, n) || drop in Often(batch, n);
    assert Once(batch, n) - {drop} == Once(batch, n) || drop in Once(batch, n);
    assert Often(batch, n) + {drop} == Often(batch, n) || drop !in Often(batch, n);
  }

  /** The slots, among the first n, that come third or later in their drop. */
  function Surplus(batch: seq<Message>, n: nat): nat
    requires n <= |batch|
  {
    if n == 0 then 0
    else Surplus(batch, n - 1) + if |FirstTwo(batch, DropOf(batch[n - 1]), n - 1)| == 2 then 1 else 0
  }

  lemma {:induction false} CountsAddUp(batch: seq<Message>, n: nat)
    requires n <= |batch|
    ensures |Once(batch, n)| + 2 * |Often(batch, n)| + Surplus(batch, n) == n
  {
    hide Once, Often, FirstTwo;
    if n == 0 {
      NothingCounted(batch);
    } else {
      CountsAddUp(batch, n - 1);
      CountStep(batch, n - 1);
    }
  }

  ghost predicate HitThrice(batch: seq<Message>) {
    exists i, j, k :: 0 <= i < j < k < |batch| && SameDrop(batch, k, i) && SameDrop(batch, k, j)
  }

  lemma {:induction false} SurplusMeansThrice(batch: seq<Message>, n: nat)
    requires n <= |batch| && Surplus(batch, n) > 0
    ensures HitThrice(batch)
  {
    var hits := FirstTwo(batch, DropOf(batch[n - 1]), n - 1);
    FirstTwoHits(batch, DropOf(batch[n - 1]), n - 1);
    if |hits| == 2 {
      assert SameDrop(batch, n - 1, hits[0]) && SameDrop(batch, n - 1, hits[1]);
    } else {
      SurplusMeansThrice(batch, n - 1);
    }
  }

  lemma {:induction false} SurplusFromThird(batch: seq<Message>, n: nat, k: nat)
    requires k < n <= |batch| && |FirstTwo(batch, DropOf(batch[k]), k)| == 2
    ensures Surplus(batch, n) > 0
  {
    if k < n - 1 {
      SurplusFromThird(batch, n - 1, k);
    }
  }

  /** The two counts account for the whole batch exactly when no drop is hit three times. */
  lemma {:induction false} CountsCoverBatch(batch: seq<Message>)
    ensures |Once(batch, |batch|)| + 2 * |Often(batch, |batch|)| == |batch| <==> !HitThrice(batch)
  {
    CountsAddUp(batch, |batch|);
    if Surplus(batch, |batch|) > 0 {
      SurplusMeansThrice(batch, |batch|);
    }
    if HitThrice(batch) {
      var i, j, k :| 0 <= i < j < k < |batch| && SameDrop(batch, k, i) && SameDrop(batch, k, j);
      FirstTwoMisses(batch, DropOf(batch[k]), k, i);
      FirstTwoMisses(batch, DropOf(batch[k]), k, j);
      FirstTwoHits(batch, DropOf(batch[k]), k);
      SurplusFromThird(batch, |batch|, k);
    }
  }

  /** The sets are what their names say. */
  lemma {:induction false} OnceIsAlone(batch: seq<Message>, i: nat)
    requires i < |batch|
    ensures DropOf(batch[i]) in Once(batch, |batch|) <==> Alone(batch, i)
    ensures DropOf(batch[i]) in Often(batch, |batch|) <==> !Alone(batch, i)
  {
    var drop := DropOf(batch[i]);
    OnceMember(batch, |batch|, drop);
    FirstTwoHits(batch, drop, |batch|);
    FirstTwoMisses(batch, drop, |batch|, i);
    var hits := FirstTwo(batch, drop, |batch|);
    assert SameDrop(batch, i, hits[0]) && (|hits| == 2 ==> SameDrop(batch, i, hits[1]));
    if |hits| == 1 && !Alone(batch, i) {
      var j :| 0 <= j < |batch| && j != i && SameDrop(batch, i, j);
      FirstTwoMisses(batch, drop, |batch|, j);
    }
  }

  /** The counts do not depend on the order of the batch. */
  lemma {:induction false} CountsOrderFree(batch: seq<Message>, p: Perm)
    requires IsPerm(p, |batch|)
    ensures Once(Shuffle(p, batch), |batch|) == Once(batch, |batch|)
    ensures Often(Shuffle(p, batch), |batch|) == Often(batch, |batch|)
  {
    var mixed := Shuffle(p, batch);
    forall i | 0 <= i < |batch|
      ensures DropOf(batch[i]) in Once(mixed, |batch|) <==> DropOf(batch[i]) in Once(batch, |batch|)
      ensures DropOf(batch[i]) in Often(mixed, |batch|) <==> DropOf(batch[i]) in Often(batch, |batch|)
    {
      OnceIsAlone(batch, i);
      OnceIsAlone(mixed, p.to[i]);
      AloneMoves(batch, p, i);
    }
    forall j | 0 <= j < |batch|
      ensures DropOf(mixed[j]) == DropOf(batch[p.from[j]])
    {
    }
  }

  lemma {:induction false} AloneMoves(batch: seq<Message>, p: Perm, i: nat)
    requires IsPerm(p, |batch|) && i < |batch|
    ensures Alone(Shuffle(p, batch), p.to[i]) <==> Alone(batch, i)
  {
    var mixed := Shuffle(p, batch);
    if Alone(batch, i) {
      forall j | 0 <= j < |mixed| && j != p.to[i]
        ensures !SameDrop(mixed, p.to[i], j)
      {
        assert !SameDrop(batch, i, p.from[j]);
      }
    } else {
      var j :| 0 <= j < |batch| && j != i && SameDrop(batch, i, j);
      assert SameDrop(mixed, p.to[i], p.to[j]);
    }
  }

  // ---------------------------------------------------------------- the counting pass

  /** The first two slots of every drop that is hit. */
  ghost predicate IsDropTable(table: map<Bytes, seq<nat>>, batch: seq<Message>, n: nat)
    requires n <= |batch|
  {
    && (forall d :: d in table ==> table[d] == FirstTwo(batch, d, n))
    && (forall d :: d !in table ==> FirstTwo(batch, d, n) == [])
  }

  lemma {:induction false} NothingCounted(batch: seq<Message>)
    ensures Once(batch, 0) == {} && Often(batch, 0) == {} && IsDropTable(map[], batch, 0)
  {
  }

  lemma {:induction false} TableStep(table: map<Bytes, seq<nat>>, batch: seq<Message>, n: nat)
    requires n < |batch| && IsDropTable(table, batch, n)
    ensures var drop := DropOf(batch[n]);
            var hits := if drop in table then table[drop] else [];
            && hits == FirstTwo(batch, drop, n)
            && IsDropTable(if |hits| < 2 then table[drop := hits + [n]] else table, batch, n + 1)
  {
    hide FirstTwo;
    forall d
      ensures FirstTwo(batch, d, n + 1)
           == if d == DropOf(batch[n]) && |FirstTwo(batch, d, n)| < 2 then FirstTwo(batch, d, n) + [n]
              else FirstTwo(batch, d, n)
    {
      StepHits(batch, n, d);
    }
  }

  method CountPass(incoming: seq<Message>) returns (deadDrops: map<Bytes, seq<nat>>, singles: int, doubles: int)
    ensures IsDropTable(deadDrops, incoming, |incoming|)
    ensures singles == |Once(incoming, |incoming|)|
    ensures doubles == |Often(incoming, |incoming|)|
  {
    hide FirstTwo, Once, Often;
    deadDrops, singles, doubles := map[], 0, 0;
    NothingCounted(incoming);
    var n := 0;
    while n < |incoming|
      invariant n <= |incoming|
      invariant IsDropTable(deadDrops, incoming, n)
      invariant singles == |Once(incoming, n)|
      invariant doubles == |Often(incoming, n)|
    {
      var dest := DropOf(incoming[n]);
      var hits := if dest in deadDrops then deadDrops[dest] else [];
      CountStep(incoming, n);
      TableStep(deadDrops, incoming, n);
      match |hits| {
        case 0 =>
          singles := singles + 1;
          deadDrops := deadDrops[dest := hits + [n]];
        case 1 =>
          singles := singles - 1;
          doubles := doubles + 1;
          deadDrops := deadDrops[dest := hits + [n]];
        case _ =>
      }
      n := n + 1;
    }
  }

  method HandleMessages(incoming: seq<Message>) returns (replies: array<Bytes>, singles: int, doubles: int)
    ensures replies[..] == Answers(incoming)
    ensures singles == |Once(incoming, |incoming|)|
    ensures doubles == |Often(incoming, |incoming|)|
  {
    var deadDrops;
    deadDrops, singles, doubles := CountPass(incoming);
    replies := new Bytes[|incoming|](_ => []);
    var todo := Indices(|incoming|);
    while todo != {}
      invariant forall i :: i in todo ==> i < |incoming|
      invariant forall i :: 0 <= i < |incoming| && i !in todo ==> replies[i] == Answer(incoming, i)
      decreases todo
    {
      var i :| i in todo;
      FirstTwoHits(incoming, DropOf(incoming[i]), |incoming|);
      FirstTwoMisses(incoming, DropOf(incoming[i]), |incoming|, i);
      var drop := deadDrops[DropOf(incoming[i])];
      if |drop| == 1 {
        replies[i] := Body(incoming[i]);
      }
      if |drop| == 2 {
        var other := if i == drop[0] then drop[1] else drop[0];
        replies[i] := Body(incoming[other]);
      }
      todo := todo - {i};
    }
  }
}
