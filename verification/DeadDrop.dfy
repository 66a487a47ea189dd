/** The dead-drop exchange of the last mixer. */
module DeadDrops {
  import opened Common
  import opened Shuffles

  const SIZE_DROP: nat := 16
  const SIZE_ENCRYPTED_BODY: nat := 240 + 16
  const SIZE_DEAD_DROP_MESSAGE: nat := SIZE_DROP + SIZE_ENCRYPTED_BODY

  type Message = m: Bytes | |m| == SIZE_DEAD_DROP_MESSAGE witness Zeros(SIZE_DEAD_DROP_MESSAGE)

  function DropOf(m: Message): Bytes {
    m[..SIZE_DROP]
  }

  function Body(m: Message): (b: Bytes)
    ensures |b| == SIZE_ENCRYPTED_BODY
  {
    m[SIZE_DROP..SIZE_DROP + SIZE_ENCRYPTED_BODY]
  }

  /** The first two slots, among the first n, that hit a drop. */
  function FirstTwo(batch: seq<Message>, drop: Bytes, n: nat): seq<nat>
    requires n <= |batch|
  {
    if n == 0 then []
    else
      var before := FirstTwo(batch, drop, n - 1);
      if DropOf(batch[n - 1]) == drop && |before| < 2 then before + [n - 1] else before
  }

  /** What slot i is answered. */
  function Answer(batch: seq<Message>, i: nat): (b: Bytes)
    requires i < |batch|
    ensures |b| == SIZE_ENCRYPTED_BODY
  {
    FirstTwoHits(batch, DropOf(batch[i]), |batch|);
    FirstTwoMisses(batch, DropOf(batch[i]), |batch|, i);
    var hits := FirstTwo(batch, DropOf(batch[i]), |batch|);
    if |hits| == 1 then Body(batch[i]) else Body(batch[if i == hits[0] then hits[1] else hits[0]])
  }

  /** HandleMessages: the bodies are exchanged within each drop. */
  function Answers(batch: seq<Message>): (r: seq<Bytes>)
    ensures |r| == |batch|
    ensures forall i :: 0 <= i < |r| ==> r[i] == Answer(batch, i)
  {
    seq(|batch|, i requires 0 <= i < |batch| => Answer(batch, i))
  }

  lemma {:induction false} FirstTwoHits(batch: seq<Message>, drop: Bytes, n: nat)
    requires n <= |batch|
    ensures var hits := FirstTwo(batch, drop, n);
            && |hits| <= 2
            && (forall k :: 0 <= k < |hits| ==> hits[k] < n && DropOf(batch[hits[k]]) == drop)
            && (|hits| == 2 ==> hits[0] < hits[1])
  {
    if n > 0 {
      FirstTwoHits(batch, drop, n - 1);
    }
  }

  /** Every slot that hits the drop is one of the first two or comes after them. */
  lemma {:induction false} FirstTwoMisses(batch: seq<Message>, drop: Bytes, n: nat, i: nat)
    requires n <= |batch| && i < n && DropOf(batch[i]) == drop
    ensures var hits := FirstTwo(batch, drop, n);
            && hits != [] && hits[0] <= i
            && (i != hits[0] ==> |hits| == 2 && hits[1] <= i)
  {
    FirstTwoHits(batch, drop, n - 1);
    if i < n - 1 {
      FirstTwoMisses(batch, drop, n - 1, i);
    }
  }

  // ---------------------------------------------------------------- the pairing

  ghost predicate SameDrop(batch: seq<Message>, i: nat, j: nat)
    requires i < |batch| && j < |batch|
  {
    DropOf(batch[i]) == DropOf(batch[j])
  }

  /** No other slot hits the drop of slot i. */
  ghost predicate Alone(batch: seq<Message>, i: nat)
    requires i < |batch|
  {
    forall j :: 0 <= j < |batch| && j != i ==> !SameDrop(batch, i, j)
  }

  /** Slots i and j hit one drop, and nothing else hits it. */
  ghost predicate Paired(batch: seq<Message>, i: nat, j: nat)
    requires i < |batch| && j < |batch|
  {
    && i != j && SameDrop(batch, i, j)
    && forall k :: 0 <= k < |batch| && k != i && k != j ==> !SameDrop(batch, i, k)
  }

  ghost predicate IsFirst(batch: seq<Message>, i: nat)
    requires i < |batch|
  {
    forall j :: 0 <= j < i ==> !SameDrop(batch, i, j)
  }

  /** A lone user of a drop gets the own body back. */
  lemma {:induction false} AloneGetsOwn(batch: seq<Message>, i: nat)
    requires i < |batch| && Alone(batch, i)
    ensures Answer(batch, i) == Body(batch[i])
  {
    FirstTwoHits(batch, DropOf(batch[i]), |batch|);
    FirstTwoMisses(batch, DropOf(batch[i]), |batch|, i);
    var hits := FirstTwo(batch, DropOf(batch[i]), |batch|);
    assert SameDrop(batch, i, hits[0]) && (|hits| == 2 ==> SameDrop(batch, i, hits[1]));
  }

  /** Two users of a drop get each other's body. */
  lemma {:induction false} PairedGetsOther(batch: seq<Message>, i: nat, j: nat)
    requires i < |batch| && j < |batch| && Paired(batch, i, j)
    ensures Answer(batch, i) == Body(batch[j])
  {
    var drop := DropOf(batch[i]);
    FirstTwoHits(batch, drop, |batch|);
    FirstTwoMisses(batch, drop, |batch|, i);
    FirstTwoMisses(batch, drop, |batch|, j);
    var hits := FirstTwo(batch, drop, |batch|);
    assert forall k :: 0 <= k < |hits| ==> SameDrop(batch, i, hits[k]);
  }

  /** Whoever else uses a drop, a user who is not the first gets the body of the first. */
  lemma {:induction false} LaterGetsFirst(batch: seq<Message>, i: nat, first: nat)
    requires i < |batch| && first < |batch| && i != first
    requires SameDrop(batch, i, first) && IsFirst(batch, first)
    ensures Answer(batch, i) == Body(batch[first])
  {
    var drop := DropOf(batch[i]);
    FirstTwoHits(batch, drop, |batch|);
    FirstTwoMisses(batch, drop, |batch|, i);
    FirstTwoMisses(batch, drop, |batch|, first);
    var hits := FirstTwo(batch, drop, |batch|);
    assert SameDrop(batch, first, hits[0]);
  }

  /** The first of several users gets the body of the second. */
  lemma {:induction false} FirstGetsSecond(batch: seq<Message>, first: nat, second: nat)
    requires first < second < |batch| && SameDrop(batch, first, second) && IsFirst(batch, first)
    requires forall k :: first < k < second ==> !SameDrop(batch, first, k)
    ensures Answer(batch, first) == Body(batch[second])
  {
    var drop := DropOf(batch[first]);
    FirstTwoHits(batch, drop, |batch|);
    FirstTwoMisses(batch, drop, |batch|, first);
    FirstTwoMisses(batch, drop, |batch|, second);
    var hits := FirstTwo(batch, drop, |batch|);
    assert SameDrop(batch, first, hits[0]) && SameDrop(batch, first, hits[1]);
  }

  /** The pairing byte by byte: a message is 272 bytes, of which the first 16 name the drop and the rest is answered. */
  lemma {:induction false} PairedByBytes(batch: seq<Message>, i: nat, j: nat)
    requires i < |batch| && j < |batch| && batch[i][..16] == batch[j][..16]
    requires forall k :: 0 <= k < |batch| && k != i && k != j ==> batch[k][..16] != batch[i][..16]
    ensures |batch[i]| == 272 && Answer(batch, i) == batch[j][16..]
  {
    forall k | 0 <= k < |batch|
      ensures DropOf(batch[k]) == batch[k][..16] && Body(batch[k]) == batch[k][16..]
    {
    }
    if i == j {
      AloneGetsOwn(batch, i);
    } else {
      PairedGetsOther(batch, i, j);
    }
  }

  // ---------------------------------------------------------------- independence of the order

  /** A drop hit three times or more carries one body only. */
  ghost predicate CrowdsAgree(batch: seq<Message>) {
    forall i, j, k | 0 <= i < |batch| && 0 <= j < |batch| && 0 <= k < |batch| && i != j && j != k && i != k ::
      SameDrop(batch, k, i) && SameDrop(batch, k, j) ==> Body(batch[i]) == Body(batch[j])
  }

  /** The exchange of a shuffled batch is the shuffled exchange. */
  ghost predicate Commutes(batch: seq<Message>, p: Perm)
    requires IsPerm(p, |batch|)
  {
    Answers(Shuffle(p, batch)) == Shuffle(p, Answers(batch))
  }

  /** Every answer in a drop with one body is that body. */
  lemma {:induction false} AnswerFromDrop(batch: seq<Message>, i: nat) returns (j: nat)
    requires i < |batch|
    ensures j < |batch| && SameDrop(batch, i, j) && Answer(batch, i) == Body(batch[j])
    ensures j == i <==> Alone(batch, i)
  {
    var drop := DropOf(batch[i]);
    FirstTwoHits(batch, drop, |batch|);
    FirstTwoMisses(batch, drop, |batch|, i);
    var hits := FirstTwo(batch, drop, |batch|);
    if |hits| == 1 {
      j := i;
      forall k | 0 <= k < |batch| && k != i
        ensures !SameDrop(batch, i, k)
      {
        if SameDrop(batch, i, k) {
          FirstTwoMisses(batch, drop, |batch|, k);
        }
      }
    } else {
      j := if i == hits[0] then hits[1] else hits[0];
      assert SameDrop(batch, i, j);
    }
  }

  lemma {:induction false} AgreeingCrowdsCommute(batch: seq<Message>, p: Perm, i: nat)
    requires IsPerm(p, |batch|) && CrowdsAgree(batch) && i < |batch|
    ensures Answer(Shuffle(p, batch), p.to[i]) == Answer(batch, i)
  {
    var mixed := Shuffle(p, batch);
    var j := AnswerFromDrop(batch, i);
    var m := AnswerFromDrop(mixed, p.to[i]);
    var k := p.from[m];
    assert SameDrop(batch, i, k);
    if j == i {
      assert k == i;
    } else {
      assert SameDrop(mixed, p.to[i], p.to[j]);
      assert k != i;
      if k != j {
        assert SameDrop(batch, i, j);
      }
    }
  }

  lemma {:induction false} CommutingCrowdAgrees(batch: seq<Message>, i: nat, j: nat, k: nat)
    requires i < |batch| && j < |batch| && k < |batch| && i != j && j != k && i != k
    requires SameDrop(batch, k, i) && SameDrop(batch, k, j)
    requires Commutes(batch, Swap(|batch|, i)) && Commutes(batch, Swap(|batch|, j))
    ensures Body(batch[i]) == Body(batch[j])
  {
    FirstOfSwap(batch, i, k);
    FirstOfSwap(batch, j, k);
  }

  /** Swapped to the front, slot i is the first user of its drop, so slot k is answered its body. */
  lemma {:induction false} FirstOfSwap(batch: seq<Message>, i: nat, k: nat)
    requires i < |batch| && k < |batch| && i != k && SameDrop(batch, k, i)
    requires Commutes(batch, Swap(|batch|, i))
    ensures Answer(batch, k) == Body(batch[i])
  {
    var p := Swap(|batch|, i);
    var mixed := Shuffle(p, batch);
    assert mixed[0] == batch[i] && mixed[p.to[k]] == batch[k];
    assert p.to[k] != 0;
    LaterGetsFirst(mixed, p.to[k], 0);
    assert Answers(mixed)[p.to[k]] == Shuffle(p, Answers(batch))[p.to[k]];
  }

  /**
   The exchange is independent of the order of the batch exactly when every drop that is hit three
   times or more carries one body only; in particular when no drop is hit more than twice.
   */
  lemma {:induction false} OrderIndependentExactly(batch: seq<Message>)
    ensures (forall p :: IsPerm(p, |batch|) ==> Commutes(batch, p)) <==> CrowdsAgree(batch)
  {
    if CrowdsAgree(batch) {
      forall p | IsPerm(p, |batch|)
        ensures Commutes(batch, p)
      {
        var mixed := Shuffle(p, batch);
        forall s | 0 <= s < |batch|
          ensures Answers(mixed)[s] == Shuffle(p, Answers(batch))[s]
        {
          AgreeingCrowdsCommute(batch, p, p.from[s]);
        }
      }
    }
    if forall p :: IsPerm(p, |batch|) ==> Commutes(batch, p) {
      forall i, j, k | 0 <= i < |batch| && 0 <= j < |batch| && 0 <= k < |batch|
        && i != j && j != k && i != k && SameDrop(batch, k, i) && SameDrop(batch, k, j)
        ensures Body(batch[i]) == Body(batch[j])
      {
        CommutingCrowdAgrees(batch, i, j, k);
      }
    }
  }
}
