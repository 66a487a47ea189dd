/** A whole round of the conversation service: clients' onions in, the partners' bodies out. */
module EndToEnd {
  import opened Common
  import opened Onions
  import opened MixRounds
  import opened ChainRouting
  import opened DeadDrops

  ghost predicate AllMessages(batch: seq<Bytes>) {
    forall i :: 0 <= i < |batch| ==> |batch[i]| == SIZE_DEAD_DROP_MESSAGE
  }

  /** HandleMessages on batches of right-sized messages, the only ones a last mixer hands to it. */
  ghost function Handle(batch: seq<Bytes>): (r: seq<Bytes>)
    ensures |r| == |batch|
  {
    if AllMessages(batch) then Answers(batch) else seq(|batch|, i => [])
  }

  ghost function ConvoRound(c: Crypto, round: u32): Round {
    Round(c, ForwardNonce(round), BackwardNonce(round), SIZE_DEAD_DROP_MESSAGE, SIZE_ENCRYPTED_BODY, b => Handle(b))
  }

  /** What a mixer of the conversation service makes of an onion, byte by byte. */
  lemma {:induction false} DecryptByBytes(c: Crypto, round: u32, m: Mixer, hops: nat, onion: Bytes)
    requires hops > 0
    ensures Decrypt(ConvoRound(c, round), m, hops, onion)
         == if |onion| != 48 * hops + 272 then None
            else c.open(c.shared(onion[..32], m.private), ForwardNonce(round), onion[32..])
  {
    var r := ConvoRound(c, round);
    assert OnionSize(hops, r.sizeIncoming) == 48 * hops + 272;
  }

  /** A chain of honest mixers whose last one adds no noise. */
  ghost predicate ConvoChain(chain: seq<Mixer>) {
    ChainOk(chain) && chain != [] && chain[|chain| - 1].noise == []
  }

  /** A client sealed this message into slot i, with these ephemeral keys. */
  ghost predicate SealedIn(
    c: Crypto, round: u32, chain: seq<Mixer>, onions: seq<Bytes>, i: nat, ephs: seq<Key>, msg: Message)
  {
    && i < |onions| && |ephs| == |chain|
    && onions[i] == SealOnion(c, ForwardNonce(round), ephs, PublicKeys(c, chain), msg)
  }

  lemma {:induction false} LastBatchMessages(r: Round, chain: seq<Mixer>, onions: seq<Bytes>)
    requires SizesOk(r.crypto) && ConvoChain(chain) && r.sizeIncoming == SIZE_DEAD_DROP_MESSAGE
    ensures AllMessages(LastBatch(r, chain, onions))
    decreases |chain|
  {
    if |chain| == 1 {
      var incoming := Decrypted(r, chain[0], 1, onions);
      forall v | 0 <= v < |Valid(incoming, |incoming|)|
        ensures |Valid(incoming, |incoming|)[v]| == SIZE_DEAD_DROP_MESSAGE
      {
        var i := IndexOnto(incoming, |incoming|, v);
        IndexPointsToMessage(incoming, i);
        DecryptSize(r, chain[0], 1, onions[i]);
      }
    } else {
      LastBatchMessages(r, chain[1..], NextBatch(r, chain, onions));
    }
  }

  /** The answer a surviving client peels out of its reply is the exchange's answer to its message. */
  lemma {:induction false} ClientGetsAnswer(
    c: Crypto, round: u32, chain: seq<Mixer>, onions: seq<Bytes>, i: nat, ephs: seq<Key>, msg: Message)
    requires Lawful(c) && ConvoChain(chain) && SealedIn(c, round, chain, onions, i, ephs, msg)
    requires Trace(ConvoRound(c, round), chain, onions, i) >= 0
    ensures var r := ConvoRound(c, round);
            var f := Trace(r, chain, onions, i);
            var batch := LastBatch(r, chain, onions);
            && RoundOk(r) && AllMessages(batch)
            && f < |batch| && batch[f] == msg
            && Peel(c, BackwardNonce(round), ClientKeys(c, ephs, PublicKeys(c, chain)), RunRound(r, chain, onions)[i])
               == Some(Answer(batch, f))
  {
    var r := ConvoRound(c, round);
    LastBatchMessages(r, chain, onions);
    ChainRoutes(r, chain, onions, i);
    ClientOnionOpens(r, chain, ephs, msg);
  }

  /** Replies have the size the client checks for. */
  lemma {:induction false} ClientSizeCheck(c: Crypto, round: u32, chain: seq<Mixer>, onions: seq<Bytes>, i: nat)
    requires Lawful(c) && ConvoChain(chain) && i < |onions|
    ensures var r := ConvoRound(c, round);
            RoundOk(r) && |RunRound(r, chain, onions)[i]| == SIZE_ENCRYPTED_BODY + |chain| * BOX_OVERHEAD
  {
    ReplySizes(ConvoRound(c, round), chain, onions, i);
  }

  /** What client i peels out of its slot. */
  ghost function Received(
    c: Crypto, round: u32, chain: seq<Mixer>, onions: seq<Bytes>, i: nat, ephs: seq<Key>): Option<Bytes>
    requires Lawful(c) && ConvoChain(chain) && i < |onions| && |ephs| == |chain|
  {
    Peel(c, BackwardNonce(round), ClientKeys(c, ephs, PublicKeys(c, chain)),
         RunRound(ConvoRound(c, round), chain, onions)[i])
  }

  /**
   Two clients that alone use a drop receive each other's body, for any number of mixers, whatever
   they shuffle and whatever noise they add.
   */
  lemma {:induction false} PairExchanges(c: Crypto, round: u32, chain: seq<Mixer>, onions: seq<Bytes>,
                      i: nat, ephsI: seq<Key>, msgI: Message, j: nat, ephsJ: seq<Key>, msgJ: Message)
    requires Lawful(c) && ConvoChain(chain) && i != j
    requires SealedIn(c, round, chain, onions, i, ephsI, msgI) && SealedIn(c, round, chain, onions, j, ephsJ, msgJ)
    requires var r := ConvoRound(c, round);
             var (f, g) := (Trace(r, chain, onions, i), Trace(r, chain, onions, j));
             var batch := LastBatch(r, chain, onions);
             && f >= 0 && g >= 0 && DropOf(msgI) == DropOf(msgJ)
             && AllMessages(batch)
             && forall k :: 0 <= k < |batch| && k != f && k != g ==> DropOf(batch[k]) != DropOf(msgI)
    ensures Received(c, round, chain, onions, i, ephsI) == Some(Body(msgJ))
    ensures Received(c, round, chain, onions, j, ephsJ) == Some(Body(msgI))
  {
    var r := ConvoRound(c, round);
    ClientGetsAnswer(c, round, chain, onions, i, ephsI, msgI);
    ClientGetsAnswer(c, round, chain, onions, j, ephsJ, msgJ);
    var f, g := Trace(r, chain, onions, i), Trace(r, chain, onions, j);
    if f == g {
      TraceInjective(r, chain, onions, i, j);
    }
    var batch: seq<Message> := LastBatch(r, chain, onions);
    PairedGetsOther(batch, f, g);
    PairedGetsOther(batch, g, f);
  }

  /** A client that alone uses a drop receives its own body. */
  lemma {:induction false} LoneClientEchoes(
    c: Crypto, round: u32, chain: seq<Mixer>, onions: seq<Bytes>, i: nat, ephs: seq<Key>, msg: Message)
    requires Lawful(c) && ConvoChain(chain) && SealedIn(c, round, chain, onions, i, ephs, msg)
    requires var r := ConvoRound(c, round);
             var f := Trace(r, chain, onions, i);
             var batch := LastBatch(r, chain, onions);
             && f >= 0 && AllMessages(batch)
             && forall k :: 0 <= k < |batch| && k != f ==> DropOf(batch[k]) != DropOf(msg)
    ensures Received(c, round, chain, onions, i, ephs) == Some(Body(msg))
  {
    ClientGetsAnswer(c, round, chain, onions, i, ephs, msg);
    var batch: seq<Message> := LastBatch(ConvoRound(c, round), chain, onions);
    AloneGetsOwn(batch, Trace(ConvoRound(c, round), chain, onions, i));
  }
}
