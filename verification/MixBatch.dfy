/** What reaches the last mixer of a round in which nothing is lost: every client's message and every mixer's noise. */
module MixBatch {
  import opened Common
  import opened Onions
  import opened MixRounds
  import opened ChainRouting
  import opened DeadDrops
  import opened AccessCounts
  import opened Noise

  /** The batches that the mixers of a chain were handed, and what the last one handled. */
  ghost predicate Handed(r: Round, chain: seq<Mixer>, batches: seq<seq<Bytes>>, handled: seq<Bytes>) {
    && chain != [] && |batches| == |chain|
    && (forall k :: 0 <= k < |chain| - 1 ==> HandsOn(r, chain[k], |chain| - k, batches[k], batches[k + 1]))
    && (var incoming := Decrypted(r, chain[|chain| - 1], 1, batches[|chain| - 1]);
        handled == FirstOnes(incoming, |incoming|) + chain[|chain| - 1].noise)
  }

  /** Every onion of a batch opens, and no two of them end alike. */
  ghost predicate Lossless(incoming: seq<Option<Bytes>>) {
    && (forall i :: 0 <= i < |incoming| ==> incoming[i].Some?)
    && (forall i, j :: 0 <= i < j < |incoming| && incoming[i].Some? && incoming[j].Some? ==>
          !SameEnd(incoming[i].value, incoming[j].value))
  }

  ghost predicate AllLossless(r: Round, chain: seq<Mixer>, batches: seq<seq<Bytes>>)
    requires |batches| == |chain|
  {
    forall k :: 0 <= k < |chain| ==> Lossless(Decrypted(r, chain[k], |chain| - k, batches[k]))
  }

  function Opened(incoming: seq<Option<Bytes>>): (o: seq<Bytes>)
    ensures |o| == |incoming|
    ensures forall i :: 0 <= i < |o| && incoming[i].Some? ==> o[i] == incoming[i].value
  {
    seq(|incoming|, i requires 0 <= i < |incoming| => if incoming[i].Some? then incoming[i].value else [])
  }

  lemma {:induction false} AllAreFirst(incoming: seq<Option<Bytes>>, n: nat)
    requires Lossless(incoming) && n <= |incoming|
    ensures FirstOnes(incoming, n) == Opened(incoming)[..n]
  {
    hide SameEnd;
    if n > 0 {
      AllAreFirst(incoming, n - 1);
      assert Opened(incoming)[..n] == Opened(incoming)[..n - 1] + [Opened(incoming)[n - 1]];
    }
  }

  /** What is inside an onion for the rest of a chain; nothing is an empty message. */
  function Inside(r: Round, chain: seq<Mixer>, onion: Bytes): Bytes {
    match Payload(r, chain, onion)
    case None => []
    case Some(msg) => msg
  }

  function AllInside(r: Round, chain: seq<Mixer>, onions: seq<Bytes>): (m: seq<Bytes>)
    ensures |m| == |onions|
    ensures forall i :: 0 <= i < |m| ==> m[i] == Inside(r, chain, onions[i])
  {
    seq(|onions|, i requires 0 <= i < |onions| => Inside(r, chain, onions[i]))
  }

  /** The messages inside the noise of every mixer but the last, for the mixers after it. */
  function NoiseInside(r: Round, chain: seq<Mixer>): seq<Bytes>
    decreases |chain|
  {
    if |chain| <= 1 then []
    else AllInside(r, chain[1..], chain[0].noise) + NoiseInside(r, chain[1..])
  }

  // ---------------------------------------------------------------- the same messages in another order

  lemma {:induction false} RemoveOne<T>(a: seq<T>, b: seq<T>) returns (i: nat)
    requires multiset(a) == multiset(b) && a != []
    ensures i < |b| && b[i] == a[0] && multiset(a[1..]) == multiset(b[..i] + b[i + 1..])
  {
    assert a == [a[0]] + a[1..];
    assert a[0] in multiset(b);
    i :| 0 <= i < |b| && b[i] == a[0];
    assert b == b[..i] + ([b[i]] + b[i + 1..]);
    assert multiset(b) == multiset(b[..i]) + multiset{b[i]} + multiset(b[i + 1..]);
    assert multiset(a[1..]) == multiset(a) - multiset{a[0]};
  }

  lemma {:induction false} InsideKeepsAll(r: Round, chain: seq<Mixer>, a: seq<Bytes>, b: seq<Bytes>)
    requires multiset(a) == multiset(b)
    ensures multiset(AllInside(r, chain, a)) == multiset(AllInside(r, chain, b))
    decreases |a|
  {
    if a == [] {
      assert |multiset(b)| == 0;
      assert b == [];
    } else {
      var i := RemoveOne(a, b);
      var rest := b[..i] + b[i + 1..];
      InsideKeepsAll(r, chain, a[1..], rest);
      hide Inside;
      var x, y := AllInside(r, chain, a), AllInside(r, chain, b);
      assert x == [x[0]] + AllInside(r, chain, a[1..]);
      assert AllInside(r, chain, rest) == y[..i] + y[i + 1..];
      assert y == y[..i] + ([y[i]] + y[i + 1..]);
      assert multiset(y) == multiset(y[..i]) + multiset{y[i]} + multiset(y[i + 1..]);
    }
  }

  lemma {:induction false} InsideOfBoth(r: Round, chain: seq<Mixer>, a: seq<Bytes>, b: seq<Bytes>)
    ensures AllInside(r, chain, a + b) == AllInside(r, chain, a) + AllInside(r, chain, b)
  {
    hide Inside;
  }

  // ---------------------------------------------------------------- everything arrives

  lemma {:induction false} HandedTail(r: Round, chain: seq<Mixer>, batches: seq<seq<Bytes>>, handled: seq<Bytes>)
    requires Handed(r, chain, batches, handled) && AllLossless(r, chain, batches) && |chain| > 1
    ensures Handed(r, chain[1..], batches[1..], handled) && AllLossless(r, chain[1..], batches[1..])
    ensures HandsOn(r, chain[0], |chain|, batches[0], batches[1])
    ensures Lossless(Decrypted(r, chain[0], |chain|, batches[0]))
  {
    hide HandsOn, Lossless, FirstOnes;
    var rest, tail := chain[1..], batches[1..];
    forall k | 0 <= k < |rest| - 1
      ensures HandsOn(r, rest[k], |rest| - k, tail[k], tail[k + 1])
    {
      assert HandsOn(r, chain[k + 1], |chain| - (k + 1), batches[k + 1], batches[k + 2]);
    }
    forall k | 0 <= k < |rest|
      ensures Lossless(Decrypted(r, rest[k], |rest| - k, tail[k]))
    {
      assert Lossless(Decrypted(r, chain[k + 1], |chain| - (k + 1), batches[k + 1]));
    }
  }

  /** One mixer: the messages inside its batch, and inside its noise, are those inside what it hands on. */
  lemma {:induction false} OneHop(r: Round, chain: seq<Mixer>, batch: seq<Bytes>, next: seq<Bytes>)
    requires |chain| > 1 && HandsOn(r, chain[0], |chain|, batch, next)
    requires Lossless(Decrypted(r, chain[0], |chain|, batch))
    ensures multiset(AllInside(r, chain[1..], next))
         == multiset(AllInside(r, chain, batch)) + multiset(AllInside(r, chain[1..], chain[0].noise))
  {
    var incoming := Decrypted(r, chain[0], |chain|, batch);
    AllAreFirst(incoming, |incoming|);
    var inner := Opened(incoming);
    assert inner[..|incoming|] == inner;
    forall i | 0 <= i < |batch|
      ensures Inside(r, chain[1..], inner[i]) == Inside(r, chain, batch[i])
    {
    }
    hide Inside, FirstOnes, Lossless, Decrypt;
    InsideKeepsAll(r, chain[1..], next, inner + chain[0].noise);
    InsideOfBoth(r, chain[1..], inner, chain[0].noise);
    assert AllInside(r, chain[1..], inner) == AllInside(r, chain, batch);
  }

  /**
   Nothing is lost on the way: when every onion opens everywhere and no two end alike, the last mixer
   handles exactly the clients' messages, the messages inside every mixer's noise, and its own noise.
   */
  lemma {:induction false} EverythingIsHandled(
    r: Round, chain: seq<Mixer>, batches: seq<seq<Bytes>>, handled: seq<Bytes>)
    requires Handed(r, chain, batches, handled) && AllLossless(r, chain, batches)
    ensures multiset(handled)
         == multiset(AllInside(r, chain, batches[0])) + multiset(NoiseInside(r, chain))
            + multiset(chain[|chain| - 1].noise)
    decreases |chain|
  {
    if |chain| == 1 {
      LastHop(r, chain, batches[0], handled);
    } else {
      HandedTail(r, chain, batches, handled);
      OneHop(r, chain, batches[0], batches[1]);
      hide Handed, AllLossless, HandsOn, Lossless, AllInside;
      EverythingIsHandled(r, chain[1..], batches[1..], handled);
      assert NoiseInside(r, chain) == AllInside(r, chain[1..], chain[0].noise) + NoiseInside(r, chain[1..]);
    }
  }

  lemma {:induction false} LastHop(r: Round, chain: seq<Mixer>, batch: seq<Bytes>, handled: seq<Bytes>)
    requires |chain| == 1 && Handed(r, chain, [batch], handled)
    requires Lossless(Decrypted(r, chain[0], 1, batch))
    ensures multiset(handled) == multiset(AllInside(r, chain, batch)) + multiset(chain[0].noise)
  {
    var incoming := Decrypted(r, chain[0], 1, batch);
    AllAreFirst(incoming, |incoming|);
    var inner := Opened(incoming);
    assert inner[..|incoming|] == inner;
    forall i | 0 <= i < |batch|
      ensures Inside(r, chain, batch[i]) == inner[i]
    {
      assert Payload(r, chain[1..], inner[i]) == Some(inner[i]);
    }
    assert AllInside(r, chain, batch) == inner;
  }

  // ---------------------------------------------------------------- with losses: what survives arrives

  /** What was handed on is what the routing results call the next batch. */
  lemma {:induction false} HandedIsNext(r: Round, chain: seq<Mixer>, batch: seq<Bytes>, next: seq<Bytes>)
    requires RoundOk(r) && ChainOk(chain) && |chain| > 1 && HandsOn(r, chain[0], |chain|, batch, next)
    ensures next == NextBatch(r, chain, batch)
    ensures var incoming := Decrypted(r, chain[0], |chain|, batch);
            Outgoing(r, chain, batch) == FirstOnes(incoming, |incoming|) + chain[0].noise
  {
    DecryptedLong(r, chain[0], |chain|, batch);
    var incoming := Decrypted(r, chain[0], |chain|, batch);
    ValidIsFirstOnes(incoming, |incoming|);
    hide FirstOnes, Valid, Lawful, Decrypt;
    var all := FirstOnes(incoming, |incoming|) + chain[0].noise;
    var p := chain[0].perm(|all|);
    forall j | 0 <= j < |next|
      ensures next[j] == all[p.from[j]]
    {
      assert next[p.to[p.from[j]]] == all[p.from[j]];
    }
  }

  lemma {:induction false} HandledIsLast(r: Round, chain: seq<Mixer>, batches: seq<seq<Bytes>>, handled: seq<Bytes>)
    requires RoundOk(r) && ChainOk(chain) && Handed(r, chain, batches, handled)
    ensures handled == LastBatch(r, chain, batches[0])
    decreases |chain|
  {
    if |chain| == 1 {
      DecryptedLong(r, chain[0], 1, batches[0]);
      ValidIsFirstOnes(Decrypted(r, chain[0], 1, batches[0]), |batches[0]|);
    } else {
      HandedFrom(r, chain, batches, handled, 1);
      HandedStep(r, chain, batches, handled, 0);
      HandedIsNext(r, chain, batches[0], batches[1]);
      hide Handed, HandsOn, RoundOk;
      HandledIsLast(r, chain[1..], batches[1..], handled);
    }
  }

  lemma {:induction false} HandedStep(
    r: Round, chain: seq<Mixer>, batches: seq<seq<Bytes>>, handled: seq<Bytes>, k: nat)
    requires Handed(r, chain, batches, handled) && k + 1 < |chain|
    ensures HandsOn(r, chain[k], |chain| - k, batches[k], batches[k + 1])
  {
    hide HandsOn, FirstOnes;
  }

  lemma {:induction false} HandedFrom(
    r: Round, chain: seq<Mixer>, batches: seq<seq<Bytes>>, handled: seq<Bytes>, n: nat)
    requires Handed(r, chain, batches, handled) && n < |chain|
    ensures Handed(r, chain[n..], batches[n..], handled)
  {
    hide HandsOn, FirstOnes;
    var rest, tail := chain[n..], batches[n..];
    forall k | 0 <= k < |rest| - 1
      ensures HandsOn(r, rest[k], |rest| - k, tail[k], tail[k + 1])
    {
      assert HandsOn(r, chain[n + k], |chain| - (n + k), batches[n + k], batches[n + k + 1]);
    }
  }

  /** Where mixer m's noise onion q is in the batch that it hands on. */
  ghost function NoisePlace(r: Round, m: Mixer, hops: nat, batch: seq<Bytes>, q: nat): int {
    var incoming := Decrypted(r, m, hops, batch);
    var first := |FirstOnes(incoming, |incoming|)|;
    var p := m.perm(first + |m.noise|);
    if first + q < |p.to| then p.to[first + q] else -1
  }

  /** What is at a place of a batch is handled at the end of the chain, if it survives the filters. */
  ghost predicate Arrives(r: Round, chain: seq<Mixer>, batch: seq<Bytes>, handled: seq<Bytes>, place: int)
    requires ChainOk(chain) && chain != []
  {
    0 <= place < |batch| && (Trace(r, chain, batch, place) >= 0 ==>
      var f := Trace(r, chain, batch, place);
      f < |handled| && Payload(r, chain, batch[place]) == Some(handled[f]))
  }

  lemma {:induction false} EveryoneArrives(
    r: Round, chain: seq<Mixer>, batches: seq<seq<Bytes>>, handled: seq<Bytes>, place: nat)
    requires RoundOk(r) && ChainOk(chain) && Handed(r, chain, batches, handled) && place < |batches[0]|
    ensures Arrives(r, chain, batches[0], handled, place)
  {
    HandledIsLast(r, chain, batches, handled);
    hide Handed, RunRound, RoundOk, Trace, LastBatch, Payload, ChainOk;
    if Trace(r, chain, batches[0], place) >= 0 {
      ChainRoutes(r, chain, batches[0], place);
    }
  }

  /**
   Whatever else is lost: a noise onion of any mixer is handed to the next one, and if it survives the
   filters after that, the last mixer handles the message inside it.
   */
  lemma {:induction false} NoiseArrives(
    r: Round, chain: seq<Mixer>, batches: seq<seq<Bytes>>, handled: seq<Bytes>, k: nat, q: nat)
    requires RoundOk(r) && ChainOk(chain) && Handed(r, chain, batches, handled)
    requires k + 1 < |chain| && q < |chain[k].noise|
    ensures var place := NoisePlace(r, chain[k], |chain| - k, batches[k], q);
            && 0 <= place < |batches[k + 1]| && batches[k + 1][place] == chain[k].noise[q]
            && Arrives(r, chain[k + 1..], batches[k + 1], handled, place)
  {
    hide Handed, HandsOn, NoisePlace, RoundOk, Arrives, MixerOk;
    LengthsMatch(r, chain, batches, handled);
    var place := NoisePlace(r, chain[k], |chain| - k, batches[k], q);
    HandedStep(r, chain, batches, handled, k);
    NoisePlaced(r, chain[k], |chain| - k, batches[k], batches[k + 1], q);
    HandedFrom(r, chain, batches, handled, k + 1);
    LaterOk(chain, k + 1);
    hide ChainOk;
    assert batches[k + 1..][0] == batches[k + 1];
    EveryoneArrives(r, chain[k + 1..], batches[k + 1..], handled, place);
  }

  lemma {:induction false} LengthsMatch(r: Round, chain: seq<Mixer>, batches: seq<seq<Bytes>>, handled: seq<Bytes>)
    requires Handed(r, chain, batches, handled)
    ensures |batches| == |chain|
  {
    hide HandsOn, FirstOnes;
  }

  lemma {:induction false} LaterOk(chain: seq<Mixer>, n: nat)
    requires ChainOk(chain) && n <= |chain|
    ensures ChainOk(chain[n..])
  {
    hide MixerOk;
  }

  lemma {:induction false} NoisePlaced(r: Round, m: Mixer, hops: nat, batch: seq<Bytes>, next: seq<Bytes>, q: nat)
    requires HandsOn(r, m, hops, batch, next) && q < |m.noise|
    ensures var place := NoisePlace(r, m, hops, batch, q); 0 <= place < |next| && next[place] == m.noise[q]
  {
    hide FirstOnes, Decrypt;
    var incoming := Decrypted(r, m, hops, batch);
    var all := FirstOnes(incoming, |incoming|) + m.noise;
    assert all[|FirstOnes(incoming, |incoming|)| + q] == m.noise[q];
  }

  // ---------------------------------------------------------------- what the last mixer counts

  function Drops(batch: seq<Message>): (d: seq<Bytes>)
    ensures |d| == |batch| && forall i :: 0 <= i < |d| ==> d[i] == DropOf(batch[i])
  {
    seq(|batch|, i requires 0 <= i < |batch| => DropOf(batch[i]))
  }

  lemma {:induction false} HitsCounted(batch: seq<Message>, drop: Bytes, n: nat)
    requires n <= |batch|
    ensures var hits := multiset(Drops(batch)[..n])[drop];
            |FirstTwo(batch, drop, n)| == if hits > 2 then 2 else hits
  {
    if n > 0 {
      HitsCounted(batch, drop, n - 1);
      assert Drops(batch)[..n] == Drops(batch)[..n - 1] + [Drops(batch)[n - 1]];
    }
  }

  lemma {:induction false} DropsOfSame(a: seq<Message>, b: seq<Message>)
    requires multiset(a) == multiset(b)
    ensures multiset(Drops(a)) == multiset(Drops(b))
    decreases |a|
  {
    if a == [] {
      assert |multiset(b)| == 0;
      assert b == [];
    } else {
      var i := RemoveOne(a, b);
      DropsOfSame(a[1..], b[..i] + b[i + 1..]);
      var x, y := Drops(a), Drops(b);
      assert x == [x[0]] + Drops(a[1..]);
      assert Drops(b[..i] + b[i + 1..]) == y[..i] + y[i + 1..];
      assert y == y[..i] + ([y[i]] + y[i + 1..]);
      assert multiset(y) == multiset(y[..i]) + multiset{y[i]} + multiset(y[i + 1..]);
    }
  }

  /** The counters depend on what is in the batch and on nothing else. */
  lemma {:induction false} CountsOfSame(a: seq<Message>, b: seq<Message>)
    requires multiset(a) == multiset(b)
    ensures Counts(a) == Counts(b)
  {
    DropsOfSame(a, b);
    assert Drops(a)[..|a|] == Drops(a) && Drops(b)[..|b|] == Drops(b);
    forall d
      ensures d in Once(a, |a|) <==> d in Once(b, |b|)
      ensures d in Often(a, |a|) <==> d in Often(b, |b|)
    {
      OnceMember(a, |a|, d);
      OnceMember(b, |b|, d);
      HitsCounted(a, d, |a|);
      HitsCounted(b, d, |b|);
    }
    assert Once(a, |a|) == Once(b, |b|) && Often(a, |a|) == Often(b, |b|);
  }

  /** What a mixer drew: its random bytes, its singles and its pairs. */
  datatype Draw = Draw(rnd: Random, singles: nat, pairs: nat)

  function Drawn(d: Draw): (m: seq<Message>) {
    NoiseMessages(d.rnd, d.singles, 2 * d.pairs)
  }

  function AllDrawn(draws: seq<Draw>): seq<Message> {
    if draws == [] then [] else Drawn(draws[0]) + AllDrawn(draws[1..])
  }

  /** Every mixer's drops are new to the batch before it. */
  ghost predicate AllFresh(batch: seq<Message>, draws: seq<Draw>)
    decreases |draws|
  {
    draws != [] ==>
      && FreshNoise(batch, draws[0].rnd, draws[0].singles + 2 * draws[0].pairs)
      && AllFresh(batch + Drawn(draws[0]), draws[1..])
  }

  function Singles(draws: seq<Draw>): nat {
    if draws == [] then 0 else draws[0].singles + Singles(draws[1..])
  }

  function Pairs(draws: seq<Draw>): nat {
    if draws == [] then 0 else draws[0].pairs + Pairs(draws[1..])
  }

  lemma {:induction false} DrawsCounted(batch: seq<Message>, draws: seq<Draw>)
    requires AllFresh(batch, draws)
    ensures Counts(batch + AllDrawn(draws)) == (Counts(batch).0 + Singles(draws), Counts(batch).1 + Pairs(draws))
    decreases |draws|
  {
    hide Counts, FreshNoise, Drawn;
    if draws == [] {
      assert batch + AllDrawn(draws) == batch;
    } else {
      DrawCounted(batch, draws[0]);
      DrawsCounted(batch + Drawn(draws[0]), draws[1..]);
      assert batch + AllDrawn(draws) == batch + Drawn(draws[0]) + AllDrawn(draws[1..]);
    }
  }

  lemma {:induction false} DrawCounted(batch: seq<Message>, d: Draw)
    requires FreshNoise(batch, d.rnd, d.singles + 2 * d.pairs)
    ensures Counts(batch + Drawn(d)) == (Counts(batch).0 + d.singles, Counts(batch).1 + d.pairs)
  {
    NoiseCounted(batch, d.rnd, d.singles, d.pairs);
  }

  /** Every mixer but the last sealed, for the mixers after it, what it drew. */
  ghost predicate NoiseDrawn(r: Round, chain: seq<Mixer>, draws: seq<Draw>)
    requires chain != []
    decreases |chain|
  {
    if |chain| == 1 then draws == [] && chain[0].noise == []
    else
      && draws != [] && AllInside(r, chain[1..], chain[0].noise) == Drawn(draws[0])
      && NoiseDrawn(r, chain[1..], draws[1..])
  }

  lemma {:induction false} NoiseIsDrawn(r: Round, chain: seq<Mixer>, draws: seq<Draw>)
    requires chain != [] && NoiseDrawn(r, chain, draws)
    ensures NoiseInside(r, chain) == AllDrawn(draws) && chain[|chain| - 1].noise == []
    decreases |chain|
  {
    hide Drawn, AllInside;
    if |chain| > 1 {
      NoiseIsDrawn(r, chain[1..], draws[1..]);
    }
  }

  /** Inside onions that were sealed for a chain are the messages that were sealed. */
  lemma {:induction false} SealedInside(
    r: Round, chain: seq<Mixer>, onions: seq<Bytes>, ephs: seq<seq<Key>>, msgs: seq<Bytes>)
    requires Lawful(r.crypto) && |onions| == |ephs| == |msgs|
    requires forall i :: 0 <= i < |msgs| ==> |msgs[i]| == r.sizeIncoming && |ephs[i]| == |chain|
    requires forall i :: 0 <= i < |msgs| ==>
               onions[i] == SealOnion(r.crypto, r.forward, ephs[i], PublicKeys(r.crypto, chain), msgs[i])
    ensures AllInside(r, chain, onions) == msgs
  {
    hide SealOnion, Payload, Lawful;
    forall i | 0 <= i < |msgs|
      ensures Inside(r, chain, onions[i]) == msgs[i]
    {
      ClientOnionOpens(r, chain, ephs[i], msgs[i]);
    }
  }

  /**
   What GenerateNoise fills the slots with, if its sealer seals for the mixers after this one: inside it
   is exactly what was drawn, its singles and half as many pairs as doubles.
   */
  lemma {:induction false} GeneratedIsDrawn(
    r: Round, rest: seq<Mixer>, seal: Sealer, ephs: nat -> seq<Key>, rnd: Random, singles: u32, draw: u32)
    requires Lawful(r.crypto) && r.sizeIncoming == 272
    requires forall i :: |ephs(i)| == |rest|
    requires forall i: nat, m: Message ::
               seal(i, m) == SealOnion(r.crypto, r.forward, ephs(i), PublicKeys(r.crypto, rest), m)
    ensures AllInside(r, rest, SealedNoise(seal, rnd, singles, Doubles(draw)))
         == Drawn(Draw(rnd, singles, Doubles(draw) / 2))
  {
    var n := singles + Doubles(draw);
    var keys := seq(n, i requires 0 <= i < n => ephs(i));
    var msgs := NoiseMessages(rnd, singles, Doubles(draw));
    hide SealOnion, Lawful, NoiseMessage;
    SealedInside(r, rest, SealedNoise(seal, rnd, singles, Doubles(draw)), keys, msgs);
    assert 2 * (Doubles(draw) / 2) == Doubles(draw);
  }

  /**
   The counters of a whole round: when nothing is lost and the drops of the noise are new, the last
   mixer counts what the clients' messages alone would give, plus every mixer's singles and pairs.
   */
  lemma {:induction false} LastMixerCounts(
    r: Round, chain: seq<Mixer>, batches: seq<seq<Bytes>>, handled: seq<Message>, msgs: seq<Message>, draws: seq<Draw>)
    requires Handed(r, chain, batches, handled) && AllLossless(r, chain, batches)
    requires AllInside(r, chain, batches[0]) == msgs && NoiseDrawn(r, chain, draws) && AllFresh(msgs, draws)
    ensures Counts(handled) == (Counts(msgs).0 + Singles(draws), Counts(msgs).1 + Pairs(draws))
  {
    EverythingIsHandled(r, chain, batches, handled);
    NoiseIsDrawn(r, chain, draws);
    DrawsCounted(msgs, draws);
    hide Handed, AllLossless, Counts, AllFresh, NoiseDrawn, AllDrawn, NoiseInside, AllInside;
    SameBytes(handled, msgs + AllDrawn(draws));
    CountsOfSame(handled, msgs + AllDrawn(draws));
  }

  lemma {:induction false} SameBytes(a: seq<Message>, b: seq<Message>)
    requires var x: seq<Bytes>, y: seq<Bytes> := a, b; multiset(x) == multiset(y)
    ensures multiset(a) == multiset(b)
  {
  }
}
