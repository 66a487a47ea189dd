/** From a client's slot to the batch, through the mixers, and back into the same slot. */
module SlotAlignment {
  import opened Common
  import opened Onions
  import opened MixRounds
  import opened ChainRouting
  import opened DeadDrops
  import opened EndToEnd
  import opened Batching
  import opened ClientSlots

  /** Client b's bundle is what it sealed for this chain, slot by slot. */
  ghost predicate SealedBundle(
    c: Crypto, round: u32, chain: seq<Mixer>, onions: seq<Bytes>, ephs: seq<seq<Key>>, msgs: seq<Message>)
  {
    && |onions| == |msgs| == |ephs|
    && forall j :: 0 <= j < |msgs| ==>
         |ephs[j]| == |chain| && onions[j] == SealOnion(c, ForwardNonce(round), ephs[j], PublicKeys(c, chain), msgs[j])
  }

  /** What the mixers give back for a batch. */
  ghost function MixedReplies(c: Crypto, round: u32, chain: seq<Mixer>, onions: seq<Bytes>): seq<Bytes>
    requires Lawful(c) && ConvoChain(chain)
  {
    RunRound(ConvoRound(c, round), chain, onions)
  }

  /** A client with these keys opens reply to the exchange's answer to the message it sealed at place i. */
  ghost predicate Answered(
    c: Crypto, round: u32, chain: seq<Mixer>, onions: seq<Bytes>, i: nat, ephs: seq<Key>, msg: Message, reply: Bytes)
    requires Lawful(c) && ConvoChain(chain) && i < |onions| && |ephs| == |chain|
  {
    var f := Trace(ConvoRound(c, round), chain, onions, i);
    var batch := LastBatch(ConvoRound(c, round), chain, onions);
    && 0 <= f < |batch| && AllMessages(batch) && batch[f] == msg
    && OpenSlot(c, round, RoundState(ConvoConfig([], |chain|), None), ClientKeys(c, ephs, PublicKeys(c, chain)),
                SIZE_ENCRYPTED_BODY, reply)
       == Some(Answer(batch, f))
  }

  lemma {:induction false} OneSlot(
    c: Crypto, round: u32, chain: seq<Mixer>, onions: seq<Bytes>, i: nat, ephs: seq<Key>, msg: Message)
    requires Lawful(c) && ConvoChain(chain) && SealedIn(c, round, chain, onions, i, ephs, msg)
    requires Trace(ConvoRound(c, round), chain, onions, i) >= 0
    ensures i < |MixedReplies(c, round, chain, onions)|
    ensures Answered(c, round, chain, onions, i, ephs, msg, MixedReplies(c, round, chain, onions)[i])
  {
    hide RunRound, SealOnion, LastBatch, Trace, Peel, Answer;
    ClientGetsAnswer(c, round, chain, onions, i, ephs, msg);
    ClientSizeCheck(c, round, chain, onions, i);
  }

  /**
   Slot alignment over a whole round: whatever other bundles are in the batch, if slot j's message of
   client b survives the filters, then what the client opens in slot j of the reply it is sent is the
   exchange's answer to that very message.
   */
  lemma {:induction false} AnswerReachesSlot(
    c: Crypto, round: u32, chain: seq<Mixer>, bundles: seq<Bundle>, sent: seq<Reply>, b: nat, ephs: seq<seq<Key>>,
    msgs: seq<Message>, j: nat)
    requires Lawful(c) && ConvoChain(chain) && b < |bundles| && j < |msgs|
    requires CutAtRanges(bundles, MixedReplies(c, round, chain, Joined(bundles)), sent)
    requires SealedBundle(c, round, chain, bundles[b].onions, ephs, msgs)
    requires Start(bundles, b) + j < |Joined(bundles)|
    requires Trace(ConvoRound(c, round), chain, Joined(bundles), Start(bundles, b) + j) >= 0
    ensures sent[b].receiver == bundles[b].sender && |sent[b].onions| == |msgs|
    ensures Answered(c, round, chain, Joined(bundles), Start(bundles, b) + j, ephs[j], msgs[j], sent[b].onions[j])
  {
    hide Joined, Start, MixedReplies, Answered, Trace, ConvoChain, Lawful, SealedIn, CutAtRanges, SealedBundle;
    var onions := Joined(bundles);
    var replies := MixedReplies(c, round, chain, onions);
    var i := Start(bundles, b) + j;
    BundleSlots(c, round, chain, bundles[b].onions, ephs, msgs, j);
    SentTo(bundles, replies, sent, b);
    SlotsLineUp(bundles, replies, sent, b, j);
    SealedAt(c, round, chain, onions, i, bundles[b].onions, ephs, msgs, j);
    OneSlot(c, round, chain, onions, i, ephs[j], msgs[j]);
  }

  lemma {:induction false} BundleSlots(
    c: Crypto, round: u32, chain: seq<Mixer>, onions: seq<Bytes>, ephs: seq<seq<Key>>, msgs: seq<Message>, j: nat)
    requires SealedBundle(c, round, chain, onions, ephs, msgs) && j < |msgs|
    ensures |onions| == |msgs| == |ephs| && |ephs[j]| == |chain|
  {
    hide SealOnion, PublicKeys;
  }

  lemma {:induction false} SentTo(bundles: seq<Bundle>, replies: seq<Bytes>, sent: seq<Reply>, b: nat)
    requires CutAtRanges(bundles, replies, sent) && b < |bundles|
    ensures |sent| == |bundles| && sent[b].receiver == bundles[b].sender
  {
    hide Joined, Start;
  }

  lemma {:induction false} SealedAt(c: Crypto, round: u32, chain: seq<Mixer>, onions: seq<Bytes>, i: nat,
                                    bundle: seq<Bytes>, ephs: seq<seq<Key>>, msgs: seq<Message>, j: nat)
    requires SealedBundle(c, round, chain, bundle, ephs, msgs) && j < |msgs|
    requires i < |onions| && onions[i] == bundle[j]
    ensures SealedIn(c, round, chain, onions, i, ephs[j], msgs[j])
  {
    hide SealOnion, PublicKeys;
  }
}
