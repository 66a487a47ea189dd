/** The per-round key ratchet of a conversation, and its roll-from-the-seed twin. */
module Ratchet {
  import opened Common

  /** sha512/256 over a round number and a key; any function with 32-byte results will do. */
  type HashFn = (nat, Bytes) -> Bytes

  const SIZE_KEY: nat := 32

  ghost predicate IsHash(h: HashFn) {
    forall r, k :: |h(r, k)| == SIZE_KEY
  }

  /** The key of round target, rolled from the key of round from. */
  function Roll(h: HashFn, key: Bytes, from: nat, target: nat): Bytes
    requires from <= target
    decreases target - from
  {
    if from == target then key else Roll(h, h(from, key), from + 1, target)
  }

  /** rollKey: no key for a round that the ratchet has passed. */
  function RollKey(h: HashFn, key: Bytes, keyRound: nat, target: nat): Option<Bytes> {
    if keyRound > target then None else Some(Roll(h, key, keyRound, target))
  }

  /** Rolling in two strides is rolling in one: forgetting the seed loses no later key. */
  lemma {:induction false} RollComposes(h: HashFn, key: Bytes, a: nat, b: nat, c: nat)
    requires a <= b <= c
    ensures Roll(h, Roll(h, key, a, b), b, c) == Roll(h, key, a, c)
    decreases b - a
  {
    if a < b {
      RollComposes(h, h(a, key), a + 1, b, c);
    }
  }

  lemma {:induction false} RollLast(h: HashFn, key: Bytes, a: nat, b: nat)
    requires a <= b
    ensures Roll(h, key, a, b + 1) == h(b, Roll(h, key, a, b))
    decreases b - a
  {
    if a < b {
      RollLast(h, h(a, key), a + 1, b);
    } else {
      assert Roll(h, h(a, key), a + 1, b + 1) == h(a, key);
    }
  }

  /** The in-place loop: one buffer, overwritten with its own hash once per round. */
  method RollKeyInPlace(h: HashFn, currentKey: Bytes, keyRound: nat, targetRound: nat) returns (newKey: Option<Bytes>)
    requires IsHash(h)
    requires |currentKey| == SIZE_KEY
    ensures newKey == RollKey(h, currentKey, keyRound, targetRound)
    ensures newKey.Some? ==> |newKey.value| == SIZE_KEY
  {
    if keyRound > targetRound {
      return None;
    }
    var key := new byte[SIZE_KEY](i requires 0 <= i < SIZE_KEY => currentKey[i]);
    var r := keyRound;
    assert key[..] == currentKey;
    while r < targetRound
      invariant keyRound <= r <= targetRound
      invariant key[..] == Roll(h, currentKey, keyRound, r)
    {
      var sum := h(r, key[..]);
      RollLast(h, currentKey, keyRound, r);
      forall i | 0 <= i < SIZE_KEY {
        key[i] := sum[i];
      }
      assert key[..] == sum;
      r := r + 1;
    }
    newKey := Some(key[..]);
  }

  /** A stored ratchet: the last key used and its round. */
  datatype Stored = Stored(key: Bytes, round: nat)

  /** rollAndReplaceKey: the rolled key replaces the stored one; a passed round changes nothing. */
  function RollAndReplace(h: HashFn, s: Stored, target: nat): (Stored, Option<Bytes>) {
    match RollKey(h, s.key, s.round, target)
    case None => (s, None)
    case Some(k) => (Stored(k, target), Some(k))
  }

  /** The stored ratchet after it has been asked for each of the rounds in turn. */
  function Visit(h: HashFn, s: Stored, rounds: seq<nat>): Stored
    decreases |rounds|
  {
    if rounds == [] then s else Visit(h, RollAndReplace(h, s, rounds[0]).0, rounds[1..])
  }

  lemma {:induction false} VisitKeepsLine(h: HashFn, s: Stored, rounds: seq<nat>)
    ensures var v := Visit(h, s, rounds); s.round <= v.round && v.key == Roll(h, s.key, s.round, v.round)
    ensures var v := Visit(h, s, rounds); v.round == s.round || v.round in rounds
    decreases |rounds|
  {
    if rounds != [] {
      var s' := RollAndReplace(h, s, rounds[0]).0;
      VisitKeepsLine(h, s', rounds[1..]);
      RollComposes(h, s.key, s.round, s'.round, Visit(h, s, rounds).round);
    }
  }

  /**
   Two peers with one seed, one storing the rolled key after any visits whatever,
   one always rolling from the seed: whenever both have a key for a round it is the same key,
   and the storing peer has one exactly for rounds it has not passed.
   */
  lemma {:induction false} RatchetAgreement(h: HashFn, seed: Stored, visited: seq<nat>, round: nat)
    ensures var mine := RollAndReplace(h, Visit(h, seed, visited), round).1;
            var theirs := RollKey(h, seed.key, seed.round, round);
            (mine.Some? <==> Visit(h, seed, visited).round <= round) && (mine.Some? ==> theirs == mine)
  {
    VisitKeepsLine(h, seed, visited);
    var v := Visit(h, seed, visited);
    if v.round <= round {
      RollComposes(h, seed.key, seed.round, v.round, round);
    }
  }
}

/** How two users agree on the past round their ratchet starts from. */
module RoundSync {
  import opened Common

  function EpochStart(c: nat, round: nat): (nat, nat)
    requires c > 0
  {
    (round / c * c, round / c % 2)
  }

  function Outgoing(c: nat, latest: nat): (nat, nat)
    requires c > 0
  {
    EpochStart(c, latest)
  }

  /** The receiver's round; the subtraction wraps as on uint32. */
  function Incoming(c: nat, latest: nat, intent: nat): nat
    requires c > 0
  {
    var (start, current) := EpochStart(c, latest);
    if current == intent then start else Wrap32(start - c)
  }

  lemma {:induction false} Products(c: nat, a: nat, b: nat)
    ensures a <= b ==> a * c <= b * c
    ensures a < b ==> a * c + c <= b * c
    decreases b
  {
    if a < b {
      Products(c, a, b - 1);
      assert b * c == (b - 1) * c + c;
    }
  }

  /** Round n lies in epoch q of length c. */
  ghost predicate InEpoch(c: nat, q: nat, n: nat) {
    q * c <= n < q * c + c
  }

  lemma {:induction false} QuotientEpoch(c: nat, n: nat)
    requires c > 0
    ensures InEpoch(c, n / c, n)
  {
  }

  /** Later rounds lie in later epochs, and one increment reaches at most the next one. */
  lemma {:induction false} EpochsOrdered(c: nat, q: nat, p: nat, n: nat, m: nat)
    requires InEpoch(c, q, n) && InEpoch(c, p, m)
    requires n <= m
    ensures q <= p
    ensures m <= n + c ==> p <= q + 1
  {
    Products(c, p + 1, q);
    Products(c, q + 2, p);
    assert (p + 1) * c == p * c + c;
    assert (q + 2) * c == q * c + c + c;
  }

  /** What the receiver in epoch p with the caller's intent answers is the start of epoch q only if p is q or q + 1. */
  lemma {:induction false} StartsDiffer(c: nat, q: nat, p: nat)
    requires 0 < c && q <= p
    ensures q * c == p * c <==> p == q
    ensures p > 0 ==> p * c - c >= 0 && (q * c == p * c - c <==> p == q + 1)
  {
    Products(c, q, p);
    if p > 0 {
      Products(c, q, p - 1);
      Products(c, 0, p - 1);
      assert p * c == (p - 1) * c + c;
    }
  }

  /** The round a receiver in epoch p answers a caller whose intent is that of epoch q. */
  function Answer(c: nat, q: nat, p: nat): nat {
    if p % 2 == q % 2 then p * c else Wrap32(p * c - c)
  }

  lemma {:induction false} AnswerExact(c: nat, q: nat, p: nat)
    requires 0 < c && q <= p
    requires p * c < TWO_TO_THE_32
    ensures Answer(c, q, p) == q * c <==> p == q || p == q + 1
  {
    StartsDiffer(c, q, p);
    if p % 2 != q % 2 {
      assert Wrap32(p * c - c) == p * c - c;
    }
  }

  lemma {:induction false} EpochFacts(c: nat, n: nat, m: nat)
    requires 0 < c && n <= m
    ensures n / c <= m / c
    ensures m <= n + c ==> m / c <= n / c + 1
    ensures m / c * c <= m
  {
    QuotientEpoch(c, n);
    QuotientEpoch(c, m);
    EpochsOrdered(c, n / c, m / c, n, m);
  }

  /**
   The two sides agree exactly when the receiver is in the caller's epoch or the next one.
   Both rounds are uint32 values.
   */
  lemma {:induction false} AgreementExact(c: nat, r: nat, x: nat)
    requires 0 < c
    requires r + x < TWO_TO_THE_32
    ensures var (round, intent) := Outgoing(c, r);
            Incoming(c, r + x, intent) == round <==> (r + x) / c - r / c == 0 || (r + x) / c - r / c == 1
  {
    EpochFacts(c, r, r + x);
    AnswerExact(c, r / c, (r + x) / c);
  }

  /** The round they agree on has passed for both, and for the caller within one increment. */
  lemma {:induction false} AgreedRoundIsRecent(c: nat, r: nat, x: nat)
    requires 0 < c && r + x < TWO_TO_THE_32
    ensures var (round, intent) := Outgoing(c, r);
            && round <= r < round + c && (intent == 0 || intent == 1)
            && (exists q: nat :: round == q * c && intent == q % 2)
            && (Incoming(c, r + x, intent) == round ==> r + x < round + 2 * c)
  {
    QuotientEpoch(c, r);
    QuotientEpoch(c, r + x);
    AgreementExact(c, r, x);
    EpochFacts(c, r, r + x);
    var q := r / c;
    assert Outgoing(c, r).0 == q * c;
    if (r + x) / c == q + 1 {
      assert (q + 1) * c == q * c + c;
    }
  }

  /**
   A receiver answers with the start of the latest epoch of the intent's parity that is not after its
   own; in the very first epoch there is none of parity 1, and the subtraction wraps.
   */
  lemma {:induction false} IncomingExactly(c: nat, latest: u32, intent: nat)
    requires 0 < c < TWO_TO_THE_32 && (intent == 0 || intent == 1)
    ensures var round := Incoming(c, latest, intent);
            if latest < c && intent == 1 then round == TWO_TO_THE_32 - c
            else round <= latest < round + 2 * c && exists q: nat :: round == q * c && q % 2 == intent
  {
    var p := latest / c;
    QuotientEpoch(c, latest);
    if p == 0 {
      assert p * c == 0;
    } else {
      Products(c, 1, p);
      assert p * c == (p - 1) * c + c;
      var q := if p % 2 == intent then p else p - 1;
      assert Incoming(c, latest, intent) == q * c && q % 2 == intent;
    }
  }

  /** The documented claim: agreement whenever the receiver is at most one increment behind. */
  lemma {:induction false} AgreementWithinIncrement(c: nat, r: nat, x: nat)
    requires 0 < c
    requires x <= c
    requires r + x < TWO_TO_THE_32
    ensures var (round, intent) := Outgoing(c, r); Incoming(c, r + x, intent) == round
  {
    AgreementExact(c, r, x);
    EpochFacts(c, r, r + x);
  }
}
