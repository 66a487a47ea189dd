/** End-to-end routing through a chain of mixers: reply i belongs to onion i. */
module ChainRouting {
  import opened Common
  import opened Onions
  import opened Shuffles
  import opened MixRounds

  /** The batch the next mixer receives. */
  ghost function NextBatch(r: Round, chain: seq<Mixer>, onions: seq<Bytes>): seq<Bytes>
    requires ChainOk(chain) && chain != []
  {
    var out := Outgoing(r, chain, onions);
    Shuffle(chain[0].perm(|out|), out)
  }

  /** Where slot i's message is in the last mixer's batch, or -1 if some mixer drops it. */
  ghost function Trace(r: Round, chain: seq<Mixer>, onions: seq<Bytes>, i: nat): (f: int)
    requires ChainOk(chain) && chain != [] && i < |onions|
    decreases |chain|
  {
    var v := Index(Decrypted(r, chain[0], |chain|, onions), i);
    if v < 0 then -1
    else if |chain| == 1 then v
    else
      IndexesInOutgoing(r, chain, onions);
      var out := Outgoing(r, chain, onions);
      assert v == Indexes(Decrypted(r, chain[0], |chain|, onions))[i];
      Trace(r, chain[1..], NextBatch(r, chain, onions), chain[0].perm(|out|).to[v])
  }

  /** The messages the last mixer handles. */
  ghost function LastBatch(r: Round, chain: seq<Mixer>, onions: seq<Bytes>): seq<Bytes>
    requires ChainOk(chain) && chain != []
    decreases |chain|
  {
    if |chain| == 1 then Outgoing(r, chain, onions) else LastBatch(r, chain[1..], NextBatch(r, chain, onions))
  }

  /** The keys the mixers compute for an onion, the first mixer's first. */
  function KeysOf(r: Round, chain: seq<Mixer>, onion: Bytes): seq<Key>
    decreases |chain|
  {
    if chain == [] then []
    else
      [SharedKey(r, chain[0], |chain|, onion)] +
      match Decrypt(r, chain[0], |chain|, onion)
      case None => []
      case Some(inner) => KeysOf(r, chain[1..], inner)
  }

  /** The message inside an onion. */
  function Payload(r: Round, chain: seq<Mixer>, onion: Bytes): Option<Bytes>
    decreases |chain|
  {
    if chain == [] then Some(onion)
    else
      match Decrypt(r, chain[0], |chain|, onion)
      case None => None
      case Some(inner) => Payload(r, chain[1..], inner)
  }

  // ---------------------------------------------------------------- sizes

  lemma {:induction false} SealReplySize(
    r: Round, m: Mixer, hops: nat, index: int, key: Key, replies: seq<Bytes>, slot: nat)
    requires SizesOk(r.crypto) && index < |replies| && hops > 0
    ensures |SealReply(r, m, hops, index, key, replies, slot)| == ReplySize(r, hops)
  {
  }

  /** Every reply of a chain has one size, whatever became of its onion. */
  lemma {:induction false} ReplySizes(r: Round, chain: seq<Mixer>, onions: seq<Bytes>, i: nat)
    requires RoundOk(r) && ChainOk(chain) && chain != [] && i < |onions|
    ensures |RunRound(r, chain, onions)[i]| == ReplySize(r, |chain|)
  {
    var m := chain[0];
    var incoming := Decrypted(r, m, |chain|, onions);
    var keys := SharedKeys(r, m, |chain|, onions);
    var out := Outgoing(r, chain, onions);
    var answers :=
      if |chain| == 1 then r.handle(out)
      else Unshuffle(m.perm(|out|), RunRound(r, chain[1..], Shuffle(m.perm(|out|), out)));
    IndexesInOutgoing(r, chain, onions);
    var used := answers[..|Valid(incoming, |incoming|)|];
    assert RunRound(r, chain, onions) == SealReplies(r, m, |chain|, Indexes(incoming), keys, used);
    SealReplySize(r, m, |chain|, Indexes(incoming)[i], keys[i], used, i);
  }

  // ---------------------------------------------------------------- routing

  /** What a mixer seals: the answers to its filtered messages. */
  ghost function AnswersOf(r: Round, chain: seq<Mixer>, onions: seq<Bytes>): (a: seq<Bytes>)
    requires RoundOk(r) && ChainOk(chain) && chain != []
    ensures var incoming := Decrypted(r, chain[0], |chain|, onions); |a| == |Valid(incoming, |incoming|)|
  {
    var m := chain[0];
    var incoming := Decrypted(r, m, |chain|, onions);
    var out := Outgoing(r, chain, onions);
    var answers :=
      if |chain| == 1 then r.handle(out)
      else Unshuffle(m.perm(|out|), RunRound(r, chain[1..], Shuffle(m.perm(|out|), out)));
    answers[..|Valid(incoming, |incoming|)|]
  }

  /** The answer to the message at place v of what a mixer hands on. */
  ghost function AnswerTo(r: Round, chain: seq<Mixer>, onions: seq<Bytes>, v: nat): Bytes
    requires RoundOk(r) && ChainOk(chain) && chain != [] && v < |Outgoing(r, chain, onions)|
  {
    var out := Outgoing(r, chain, onions);
    if |chain| == 1 then r.handle(out)[v]
    else RunRound(r, chain[1..], NextBatch(r, chain, onions))[chain[0].perm(|out|).to[v]]
  }

  lemma {:induction false} AnswerAt(r: Round, chain: seq<Mixer>, onions: seq<Bytes>, v: nat)
    requires RoundOk(r) && ChainOk(chain) && chain != [] && v < |AnswersOf(r, chain, onions)|
    ensures v < |Outgoing(r, chain, onions)| && AnswersOf(r, chain, onions)[v] == AnswerTo(r, chain, onions, v)
  {
    hide RunRound, Valid, Lawful;
  }

  lemma {:induction false} SealedFromAnswers(r: Round, chain: seq<Mixer>, onions: seq<Bytes>, i: nat)
    requires RoundOk(r) && ChainOk(chain) && chain != [] && i < |onions|
    ensures var v := Index(Decrypted(r, chain[0], |chain|, onions), i);
            var answers := AnswersOf(r, chain, onions);
            && v < |answers|
            && RunRound(r, chain, onions)[i]
               == SealReply(r, chain[0], |chain|, v, SharedKey(r, chain[0], |chain|, onions[i]), answers, i)
  {
    hide Lawful, Decrypt, SharedKey, Kept, Valid, SealReply;
    var m := chain[0];
    var incoming := Decrypted(r, m, |chain|, onions);
    var keys := SharedKeys(r, m, |chain|, onions);
    IndexesInOutgoing(r, chain, onions);
    var answers := AnswersOf(r, chain, onions);
    assert RunRound(r, chain, onions) == SealReplies(r, m, |chain|, Indexes(incoming), keys, answers);
    hide RunRound, Index;
    assert Indexes(incoming)[i] == Index(incoming, i);
  }

  /** A kept slot's message is handed on at the slot's index. */
  lemma {:induction false} KeptPlace(r: Round, chain: seq<Mixer>, onions: seq<Bytes>, i: nat)
    requires chain != [] && i < |onions| && Kept(Decrypted(r, chain[0], |chain|, onions), i)
    ensures var v := Index(Decrypted(r, chain[0], |chain|, onions), i);
            var out := Outgoing(r, chain, onions);
            0 <= v < |out| && Decrypt(r, chain[0], |chain|, onions[i]) == Some(out[v])
  {
    IndexPointsToMessage(Decrypted(r, chain[0], |chain|, onions), i);
    hide Decrypt;
  }

  /** What a mixer seals for a kept slot: the answer at the slot's index, under the slot's own key. */
  lemma {:induction false} KeptSlotSealed(r: Round, chain: seq<Mixer>, onions: seq<Bytes>, i: nat)
    requires RoundOk(r) && ChainOk(chain) && chain != [] && i < |onions|
    requires Kept(Decrypted(r, chain[0], |chain|, onions), i)
    ensures var v := Index(Decrypted(r, chain[0], |chain|, onions), i);
            var out := Outgoing(r, chain, onions);
            && 0 <= v < |out| && Decrypt(r, chain[0], |chain|, onions[i]) == Some(out[v])
            && (|AnswerTo(r, chain, onions, v)| == (|chain| - 1) * 16 + r.sizeReply ==>
                  RunRound(r, chain, onions)[i]
                  == r.crypto.seal(SharedKey(r, chain[0], |chain|, onions[i]), r.backward,
                                   AnswerTo(r, chain, onions, v)))
  {
    KeptPlace(r, chain, onions, i);
    SealedFromAnswers(r, chain, onions, i);
    AnswerAt(r, chain, onions, Index(Decrypted(r, chain[0], |chain|, onions), i));
    hide RoundOk, ChainOk, Decrypt, SharedKey, Kept, Valid, Index, RunRound, AnswersOf, AnswerTo, Outgoing;
  }

  lemma {:induction false} WrongSizeReply(
    r: Round, m: Mixer, hops: nat, index: int, key: Key, replies: seq<Bytes>, slot: nat)
    requires 0 <= index < |replies| && hops > 0 && |replies[index]| != (hops - 1) * 16 + r.sizeReply
    ensures SealReply(r, m, hops, index, key, replies, slot)
         == r.crypto.seal(m.freshKey(slot), r.backward, Zeros((hops - 1) * 16 + r.sizeReply))
  {
  }

  /** A kept slot whose answer has a wrong size gets zeros, under a fresh key. */
  lemma {:induction false} WrongSizeSealed(r: Round, chain: seq<Mixer>, onions: seq<Bytes>, i: nat)
    requires RoundOk(r) && ChainOk(chain) && chain != [] && i < |onions|
    requires var v := Index(Decrypted(r, chain[0], |chain|, onions), i);
             && 0 <= v < |Outgoing(r, chain, onions)|
             && |AnswerTo(r, chain, onions, v)| != (|chain| - 1) * 16 + r.sizeReply
    ensures RunRound(r, chain, onions)[i]
         == r.crypto.seal(chain[0].freshKey(i), r.backward, Zeros((|chain| - 1) * 16 + r.sizeReply))
  {
    hide RoundOk, ChainOk, Decrypt, SharedKey, Kept, Valid, Index, RunRound, AnswersOf, AnswerTo, Outgoing, SealReply;
    var v := Index(Decrypted(r, chain[0], |chain|, onions), i);
    SealedFromAnswers(r, chain, onions, i);
    AnswerAt(r, chain, onions, v);
    var answers := AnswersOf(r, chain, onions);
    var key := SharedKey(r, chain[0], |chain|, onions[i]);
    WrongSizeReply(r, chain[0], |chain|, v, key, answers, i);
  }

  /** What a mixer seals for a dropped slot: zeros under the slot's fresh key, whatever the others got. */
  lemma {:induction false} DroppedSlotSealed(r: Round, chain: seq<Mixer>, onions: seq<Bytes>, i: nat)
    requires RoundOk(r) && ChainOk(chain) && chain != [] && i < |onions|
    requires Index(Decrypted(r, chain[0], |chain|, onions), i) == -1
    ensures RunRound(r, chain, onions)[i]
         == r.crypto.seal(chain[0].freshKey(i), r.backward, Zeros((|chain| - 1) * 16 + r.sizeReply))
  {
    hide Lawful, Decrypt, Valid, Kept, Index, RunRound, AnswersOf;
    SealedFromAnswers(r, chain, onions, i);
  }

  /**
   Chain routing: an onion that survives every mixer's filter arrives as its payload, and peeling the
   reply in its slot with its keys gives what the last mixer answered to that payload, for any number
   of mixers and whatever they shuffle and add.
   */
  lemma {:induction false} ChainRoutes(r: Round, chain: seq<Mixer>, onions: seq<Bytes>, i: nat)
    requires RoundOk(r) && ChainOk(chain) && chain != [] && i < |onions|
    requires Trace(r, chain, onions, i) >= 0
    ensures var f := Trace(r, chain, onions, i);
            var batch := LastBatch(r, chain, onions);
            && f < |batch|
            && Payload(r, chain, onions[i]) == Some(batch[f])
            && (|r.handle(batch)[f]| == r.sizeReply ==>
                  Peel(r.crypto, r.backward, KeysOf(r, chain, onions[i]), RunRound(r, chain, onions)[i])
                  == Some(r.handle(batch)[f]))
    decreases |chain|
  {
    hide RunRound, Lawful, Decrypt;
    KeptSlotSealed(r, chain, onions, i);
    var out := Outgoing(r, chain, onions);
    var v := Index(Decrypted(r, chain[0], |chain|, onions), i);
    if |chain| == 1 {
      SealedReplyOpens(r, KeysOf(r, chain, onions[i]), r.handle(out)[v]);
    } else {
      var next := NextBatch(r, chain, onions);
      var w := chain[0].perm(|out|).to[v];
      ChainRoutes(r, chain[1..], next, w);
      ReplySizes(r, chain[1..], next, w);
      SealedReplyOpens(r, KeysOf(r, chain, onions[i]), RunRound(r, chain[1..], next)[w]);
      assert KeysOf(r, chain, onions[i])[1..] == KeysOf(r, chain[1..], out[v]);
    }
  }

  lemma {:induction false} SealedReplyOpens(r: Round, keys: seq<Key>, answer: Bytes)
    requires Lawful(r.crypto) && keys != []
    ensures Peel(r.crypto, r.backward, keys, r.crypto.seal(keys[0], r.backward, answer))
         == Peel(r.crypto, r.backward, keys[1..], answer)
  {
  }

  /** Surviving onions keep apart: no two of them become one message. */
  lemma {:induction false} TraceInjective(r: Round, chain: seq<Mixer>, onions: seq<Bytes>, i: nat, j: nat)
    requires ChainOk(chain) && chain != [] && i < |onions| && j < |onions|
    requires Trace(r, chain, onions, i) >= 0
    requires Trace(r, chain, onions, i) == Trace(r, chain, onions, j)
    ensures i == j
    decreases |chain|
  {
    var incoming := Decrypted(r, chain[0], |chain|, onions);
    var v, w := Index(incoming, i), Index(incoming, j);
    if |chain| > 1 {
      var out := Outgoing(r, chain, onions);
      IndexPointsToMessage(incoming, i);
      IndexPointsToMessage(incoming, j);
      var to := chain[0].perm(|out|).to;
      TraceInjective(r, chain[1..], NextBatch(r, chain, onions), to[v], to[w]);
      assert chain[0].perm(|out|).from[chain[0].perm(|out|).to[v]] == v;
      assert chain[0].perm(|out|).from[chain[0].perm(|out|).to[w]] == w;
    }
    if i < j {
      IndexKeepsOrder(incoming, i, j);
    } else if j < i {
      IndexKeepsOrder(incoming, j, i);
    }
  }

  /** At some mixer an earlier slot carries the same last 8 bytes. */
  ghost predicate Collides(r: Round, chain: seq<Mixer>, onions: seq<Bytes>, i: nat)
    requires ChainOk(chain) && chain != [] && i < |onions|
    decreases |chain|
  {
    var incoming := Decrypted(r, chain[0], |chain|, onions);
    || (incoming[i].Some? &&
        exists j :: 0 <= j < i && incoming[j].Some? && SameEnd(incoming[j].value, incoming[i].value))
    || (|chain| > 1 && Kept(incoming, i) &&
        (IndexPointsToMessage(incoming, i);
         Collides(r, chain[1..], NextBatch(r, chain, onions),
                  chain[0].perm(|Outgoing(r, chain, onions)|).to[Index(incoming, i)])))
  }

  /** A well-formed onion is lost to a collision and to nothing else. */
  lemma {:induction false} LostOnlyToCollision(r: Round, chain: seq<Mixer>, onions: seq<Bytes>, i: nat)
    requires RoundOk(r) && ChainOk(chain) && chain != [] && i < |onions|
    requires Payload(r, chain, onions[i]).Some?
    ensures Trace(r, chain, onions, i) >= 0 <==> !Collides(r, chain, onions, i)
    decreases |chain|
  {
    var incoming := Decrypted(r, chain[0], |chain|, onions);
    DecryptedLong(r, chain[0], |chain|, onions);
    KeptExactly(incoming, i);
    hide Decrypt, Lawful, SameEnd;
    if Kept(incoming, i) && |chain| > 1 {
      IndexPointsToMessage(incoming, i);
      var out := Outgoing(r, chain, onions);
      var v := Index(incoming, i);
      assert out[v] == incoming[i].value;
      LostOnlyToCollision(r, chain[1..], NextBatch(r, chain, onions), chain[0].perm(|out|).to[v]);
    }
  }

  // ---------------------------------------------------------------- the client's onion

  function PublicKeys(c: Crypto, chain: seq<Mixer>): (p: seq<Bytes>)
    ensures |p| == |chain|
    ensures forall i :: 0 <= i < |p| ==> p[i] == c.public(chain[i].private)
  {
    seq(|chain|, i requires 0 <= i < |chain| => c.public(chain[i].private))
  }

  /** A mixer opens its layer of a client's onion, and computes the key that the client kept for it. */
  lemma {:induction false} LayerOpens(r: Round, m: Mixer, hops: nat, eph: Key, inner: Bytes)
    requires Lawful(r.crypto) && hops > 0 && |inner| == OnionSize(hops - 1, r.sizeIncoming)
    ensures var onion := SealLayer(r.crypto, r.forward, eph, r.crypto.public(m.private), inner);
            && Decrypt(r, m, hops, onion) == Some(inner)
            && SharedKey(r, m, hops, onion) == r.crypto.shared(r.crypto.public(m.private), eph)
  {
    var onion := SealLayer(r.crypto, r.forward, eph, r.crypto.public(m.private), inner);
    assert onion[..SIZE_PUBLIC_KEY] == r.crypto.public(eph);
    assert onion[SIZE_PUBLIC_KEY..]
        == r.crypto.seal(r.crypto.shared(r.crypto.public(m.private), eph), r.forward, inner);
  }

  /** The chain finds in a client's onion the client's message and the client's keys. */
  lemma {:induction false} ClientOnionOpens(r: Round, chain: seq<Mixer>, ephs: seq<Key>, msg: Bytes)
    requires Lawful(r.crypto) && |ephs| == |chain| && |msg| == r.sizeIncoming
    ensures var onion := SealOnion(r.crypto, r.forward, ephs, PublicKeys(r.crypto, chain), msg);
            && Payload(r, chain, onion) == Some(msg)
            && KeysOf(r, chain, onion) == ClientKeys(r.crypto, ephs, PublicKeys(r.crypto, chain))
    decreases |chain|
  {
    hide Lawful, Decrypt, SharedKey;
    if chain != [] {
      var publics := PublicKeys(r.crypto, chain);
      assert publics[1..] == PublicKeys(r.crypto, chain[1..]);
      var inner := SealOnion(r.crypto, r.forward, ephs[1..], publics[1..], msg);
      InnerSize(r, ephs[1..], publics[1..], msg);
      LayerOpens(r, chain[0], |chain|, ephs[0], inner);
      ClientOnionOpens(r, chain[1..], ephs[1..], msg);
      assert ClientKeys(r.crypto, ephs, publics)
          == [r.crypto.shared(publics[0], ephs[0])] + ClientKeys(r.crypto, ephs[1..], publics[1..]);
    }
  }

  lemma {:induction false} InnerSize(r: Round, ephs: seq<Key>, publics: seq<Bytes>, msg: Bytes)
    requires Lawful(r.crypto) && |ephs| == |publics| && |msg| == r.sizeIncoming
    ensures |SealOnion(r.crypto, r.forward, ephs, publics, msg)| == OnionSize(|publics|, r.sizeIncoming)
  {
    SealOnionSize(r.crypto, r.forward, ephs, publics, msg);
  }
}
