/** Conversations over the real transport: a round through coordinator and mixers is a lossless round of two peers. */
module MixedDelivery {
  import opened Common
  import opened Onions
  import opened MixRounds
  import opened ChainRouting
  import opened DeadDrops
  import opened EndToEnd
  import opened Batching
  import opened ClientSlots
  import opened SlotAlignment
  import R = Ratchet
  import V = Conversations
  import D = Delivery
  import B = BoundedDelivery

  /** How drops and sealed messages become bytes, and how bytes that come back are taken for a sealed message. */
  datatype Encoding = Encoding(drop: V.Drop -> Bytes, body: V.Cipher -> Bytes, parse: Bytes -> V.Cipher)

  ghost predicate EncodingOk(e: Encoding) {
    (forall d :: |e.drop(d)| == SIZE_DROP) && (forall c :: |e.body(c)| == SIZE_ENCRYPTED_BODY)
  }

  /** The bytes of this box are taken for this box. */
  predicate ReadsBack(e: Encoding, enc: V.Cipher) {
    e.parse(e.body(enc)) == enc
  }

  function MessageOf(e: Encoding, drop: V.Drop, enc: V.Cipher): (m: Bytes) {
    e.drop(drop) + e.body(enc)
  }

  lemma {:induction false} MessageParts(e: Encoding, drop: V.Drop, enc: V.Cipher, m: Message)
    requires EncodingOk(e) && m == MessageOf(e, drop, enc)
    ensures DropOf(m) == e.drop(drop) && Body(m) == e.body(enc)
  {
  }

  /** Slot j of bundle b, with what its client sealed there and in the slots beside it. */
  datatype Slot = Slot(b: nat, j: nat, ephs: seq<seq<Key>>, msgs: seq<Message>)

  /** A round through the mixers: the chain, the bundles of the batch, the replies sent, and the peers' slots. */
  datatype Mix = Mix(chain: seq<Mixer>, bundles: seq<Bundle>, sent: seq<Reply>, left: Slot, right: Slot)

  ghost predicate SlotIn(c: Crypto, round: u32, mix: Mix, slot: Slot, m: Bytes)
    requires ConvoChain(mix.chain)
  {
    && slot.b < |mix.bundles| && slot.j < |slot.msgs| && slot.msgs[slot.j] == m
    && SealedBundle(c, round, mix.chain, mix.bundles[slot.b].onions, slot.ephs, slot.msgs)
    && Start(mix.bundles, slot.b) + slot.j < |Joined(mix.bundles)|
    && Trace(ConvoRound(c, round), mix.chain, Joined(mix.bundles), Place(mix, slot)) >= 0
  }

  function Place(mix: Mix, slot: Slot): nat
    requires slot.b < |mix.bundles|
  {
    Start(mix.bundles, slot.b) + slot.j
  }

  /** Where a slot's message is in the last mixer's batch. */
  ghost function Arrival(c: Crypto, round: u32, mix: Mix, slot: Slot): int
    requires ConvoChain(mix.chain) && slot.b < |mix.bundles| && Place(mix, slot) < |Joined(mix.bundles)|
  {
    Trace(ConvoRound(c, round), mix.chain, Joined(mix.bundles), Place(mix, slot))
  }

  /** The key of a round, for a side that takes part in it. */
  function RoundKey(h: R.HashFn, p: D.Party, round: u32): Bytes
    requires p.conv.sessionKeyRound <= round
  {
    R.Roll(h, p.conv.sessionKey, p.conv.sessionKeyRound, round)
  }

  /** What a side sends in a round. */
  function Sent(e: Encoding, h: R.HashFn, p: D.Party, round: u32): Bytes
    requires p.conv.sessionKeyRound <= round
  {
    MessageOf(e, V.Drop(RoundKey(h, p, round), round), B.Boxed(h, p, round))
  }

  /**
   A mixing round of any clients and any chain in which both peers take part, survive the filters, and
   have their drop to themselves.
   */
  ghost predicate GoodMix(e: Encoding, c: Crypto, h: R.HashFn, s: D.System, round: u32, mix: Mix) {
    && EncodingOk(e) && Lawful(c) && ConvoChain(mix.chain) && B.InSync(h, s, round)
    && ReadsBack(e, B.Boxed(h, s.left, round)) && ReadsBack(e, B.Boxed(h, s.right, round))
    && CutAtRanges(mix.bundles, MixedReplies(c, round, mix.chain, Joined(mix.bundles)), mix.sent)
    && SlotIn(c, round, mix, mix.left, Sent(e, h, s.left, round))
    && SlotIn(c, round, mix, mix.right, Sent(e, h, s.right, round))
    && Place(mix, mix.left) != Place(mix, mix.right)
    && OwnDrop(e, c, h, s, round, mix)
  }

  /** Nobody else's message, and no noise, is on the peers' drop. */
  ghost predicate OwnDrop(e: Encoding, c: Crypto, h: R.HashFn, s: D.System, round: u32, mix: Mix)
    requires ConvoChain(mix.chain) && s.left.conv.sessionKeyRound <= round
    requires mix.left.b < |mix.bundles| && Place(mix, mix.left) < |Joined(mix.bundles)|
    requires mix.right.b < |mix.bundles| && Place(mix, mix.right) < |Joined(mix.bundles)|
  {
    var batch := LastBatch(ConvoRound(c, round), mix.chain, Joined(mix.bundles));
    AllMessages(batch) ==>
    forall k :: 0 <= k < |batch| && k != Arrival(c, round, mix, mix.left) && k != Arrival(c, round, mix, mix.right) ==>
      DropOf(batch[k]) != e.drop(V.Drop(RoundKey(h, s.left, round), round))
  }

  predicate SlotOpens(mix: Mix, slot: Slot) {
    && slot.b < |mix.sent| && slot.j < |mix.sent[slot.b].onions|
    && slot.j < |slot.ephs| && |slot.ephs[slot.j]| == |mix.chain|
  }

  /** What the client at a slot opens there, and takes it for. */
  ghost function Got(e: Encoding, c: Crypto, round: u32, mix: Mix, slot: Slot): V.Cipher {
    if !SlotOpens(mix, slot) then V.Noise(0)
    else
      var keys := ClientKeys(c, slot.ephs[slot.j], PublicKeys(c, mix.chain));
      var reply := mix.sent[slot.b].onions[slot.j];
      match OpenSlot(c, round, RoundState(ConvoConfig([], |mix.chain|), None), keys, SIZE_ENCRYPTED_BODY, reply)
      case None => V.Noise(0)
      case Some(body) => e.parse(body)
  }

  lemma {:induction false} GotAnswer(e: Encoding, c: Crypto, round: u32, mix: Mix, slot: Slot, m: Bytes)
    requires Lawful(c) && ConvoChain(mix.chain) && SlotIn(c, round, mix, slot, m)
    requires CutAtRanges(mix.bundles, MixedReplies(c, round, mix.chain, Joined(mix.bundles)), mix.sent)
    ensures SlotOpens(mix, slot)
    ensures var batch := LastBatch(ConvoRound(c, round), mix.chain, Joined(mix.bundles));
            var f := Arrival(c, round, mix, slot);
            && 0 <= f < |batch| && AllMessages(batch) && batch[f] == m
            && Got(e, c, round, mix, slot) == e.parse(Answer(batch, f))
  {
    hide Lawful, ConvoChain, CutAtRanges, SealedBundle, Joined, MixedReplies, OpenSlot, LastBatch, Trace, ClientKeys;
    hide Answer, Start;
    BundleSlots(c, round, mix.chain, mix.bundles[slot.b].onions, slot.ephs, slot.msgs, slot.j);
    AnswerReachesSlot(c, round, mix.chain, mix.bundles, mix.sent, slot.b, slot.ephs, slot.msgs, slot.j);
    SentTo(mix.bundles, MixedReplies(c, round, mix.chain, Joined(mix.bundles)), mix.sent, slot.b);
  }

  /** Two messages that have one drop to themselves in a batch are answered each other's body. */
  lemma {:induction false} PairAnswered(batch: seq<Message>, f: nat, g: nat, drop: Bytes)
    requires f < |batch| && g < |batch| && f != g && DropOf(batch[f]) == DropOf(batch[g]) == drop
    requires forall k :: 0 <= k < |batch| && k != f && k != g ==> DropOf(batch[k]) != drop
    ensures Answer(batch, f) == Body(batch[g]) && Answer(batch, g) == Body(batch[f])
  {
    PairedGetsOther(batch, f, g);
    PairedGetsOther(batch, g, f);
  }

  lemma {:induction false} ArrivalsDiffer(c: Crypto, round: u32, mix: Mix)
    requires ConvoChain(mix.chain)
    requires mix.left.b < |mix.bundles| && Place(mix, mix.left) < |Joined(mix.bundles)|
    requires mix.right.b < |mix.bundles| && Place(mix, mix.right) < |Joined(mix.bundles)|
    requires Place(mix, mix.left) != Place(mix, mix.right) && Arrival(c, round, mix, mix.left) >= 0
    ensures Arrival(c, round, mix, mix.left) != Arrival(c, round, mix, mix.right)
  {
    if Arrival(c, round, mix, mix.left) == Arrival(c, round, mix, mix.right) {
      TraceInjective(ConvoRound(c, round), mix.chain, Joined(mix.bundles), Place(mix, mix.left), Place(mix, mix.right));
    }
  }

  /** In one round both peers use one drop. */
  lemma {:induction false} SameDropSent(e: Encoding, h: R.HashFn, s: D.System, round: u32, m: Message, n: Message)
    requires EncodingOk(e) && B.InSync(h, s, round)
    requires m == Sent(e, h, s.left, round) && n == Sent(e, h, s.right, round)
    ensures DropOf(m) == DropOf(n) == e.drop(V.Drop(RoundKey(h, s.left, round), round))
    ensures Body(m) == e.body(B.Boxed(h, s.left, round)) && Body(n) == e.body(B.Boxed(h, s.right, round))
  {
    hide R.Roll, B.Boxed;
    MessageParts(e, V.Drop(RoundKey(h, s.left, round), round), B.Boxed(h, s.left, round), m);
    MessageParts(e, V.Drop(RoundKey(h, s.right, round), round), B.Boxed(h, s.right, round), n);
  }

  /** Each peer opens the other's box in its own slot. */
  lemma {:induction false} PeersGetEachOther(e: Encoding, c: Crypto, h: R.HashFn, s: D.System, round: u32, mix: Mix)
    requires GoodMix(e, c, h, s, round, mix)
    ensures Got(e, c, round, mix, mix.left) == B.Boxed(h, s.right, round)
    ensures Got(e, c, round, mix, mix.right) == B.Boxed(h, s.left, round)
  {
    var l, r := Sent(e, h, s.left, round), Sent(e, h, s.right, round);
    GotAnswer(e, c, round, mix, mix.left, l);
    GotAnswer(e, c, round, mix, mix.right, r);
    ArrivalsDiffer(c, round, mix);
    SameDropSent(e, h, s, round, mix.left.msgs[mix.left.j], mix.right.msgs[mix.right.j]);
    hide Got, LastBatch, Answer, CutAtRanges, Trace, Arrival, Joined, Lawful, B.Boxed, R.Roll, SealedBundle;
    var batch: seq<Message> := LastBatch(ConvoRound(c, round), mix.chain, Joined(mix.bundles));
    PairAnswered(batch, Arrival(c, round, mix, mix.left), Arrival(c, round, mix, mix.right),
                 e.drop(V.Drop(RoundKey(h, s.left, round), round)));
  }

  /** Both peers compose for the round, and then each handles what it opens in its slot of the mixers' replies. */
  ghost function AfterMix(e: Encoding, c: Crypto, h: R.HashFn, s: D.System, round: u32, mix: Mix): D.System {
    D.System(
      D.AfterHandle(D.AfterCompose(h, s.left, round, 0), round, Got(e, c, round, mix, mix.left)),
      D.AfterHandle(D.AfterCompose(h, s.right, round, 0), round, Got(e, c, round, mix, mix.right)))
  }

  /**
   The transport delivers: whatever the other clients do, for any number of mixers, shuffles and noise,
   a round in which both peers' onions survive and no one else is on their drop is a lossless round.
   */
  lemma {:induction false} MixedRoundIsExchange(e: Encoding, c: Crypto, h: R.HashFn, s: D.System, round: u32, mix: Mix)
    requires GoodMix(e, c, h, s, round, mix)
    ensures AfterMix(e, c, h, s, round, mix) == B.Exchange(h, s, round)
  {
    PeersGetEachOther(e, c, h, s, round, mix);
  }

  /**
   What the peers do in such a round is what a conversation in a client's slot does: it composes the
   message sealed in the slot, and handles what the slot's reply opens to.
   */
  lemma {:induction false} AfterMixInSlots(
    e: Encoding, c: Crypto, h: R.HashFn, s: D.System, round: u32, mix: Mix, noise: nat)
    requires B.InSync(h, s, round)
    ensures var (left, out) := V.Next(h, s.left.conv, round, noise);
            && out.DeadDropMessage? && Sent(e, h, s.left, round) == MessageOf(e, out.drop, out.enc)
            && AfterMix(e, c, h, s, round, mix).left.conv == V.Reply(left, round, Got(e, c, round, mix, mix.left)).0
    ensures var (right, out) := V.Next(h, s.right.conv, round, noise);
            && out.DeadDropMessage? && Sent(e, h, s.right, round) == MessageOf(e, out.drop, out.enc)
            && AfterMix(e, c, h, s, round, mix).right.conv == V.Reply(right, round, Got(e, c, round, mix, mix.right)).0
  {
    hide V.Reply, Got, R.Roll;
    Composes(h, s.left, round, noise);
    Composes(h, s.right, round, noise);
  }

  lemma {:induction false} Composes(h: R.HashFn, p: D.Party, round: u32, noise: nat)
    requires p.conv.sessionKeyRound <= round
    ensures V.Next(h, p.conv, round, noise)
         == (D.AfterCompose(h, p, round, 0).conv,
             V.DeadDropMessage(V.Drop(RoundKey(h, p, round), round), B.Boxed(h, p, round)))
  {
    hide R.Roll;
  }

  // ---------------------------------------------------------------- many rounds

  /** From s the peers go through these rounds, mixed like this, to t. */
  ghost predicate MixedRounds(
    e: Encoding, c: Crypto, h: R.HashFn, s: D.System, rounds: seq<u32>, mixes: seq<Mix>, t: D.System)
    requires |rounds| == |mixes|
    decreases |rounds|
  {
    if rounds == [] then s == t
    else
      && MixedRounds(e, c, h, AfterMix(e, c, h, s, rounds[0], mixes[0]), rounds[1..], mixes[1..], t)
      && GoodMix(e, c, h, s, rounds[0], mixes[0])
  }

  lemma {:induction false} MixedRoundsAreExchanges(
    e: Encoding, c: Crypto, h: R.HashFn, s: D.System, rounds: seq<u32>, mixes: seq<Mix>, t: D.System)
    requires |rounds| == |mixes| && MixedRounds(e, c, h, s, rounds, mixes, t)
    ensures t == B.Exchanges(h, s, rounds)
    decreases |rounds|
  {
    if rounds != [] {
      hide GoodMix, AfterMix, B.Exchange;
      MixedRoundIsExchange(e, c, h, s, rounds[0], mixes[0]);
      MixedRoundsAreExchanges(e, c, h, AfterMix(e, c, h, s, rounds[0], mixes[0]), rounds[1..], mixes[1..], t);
    }
  }

  /**
   From queue to screen through the mixers: after k(k+3)/2 such rounds everything the peers had queued,
   k texts of it unacknowledged, has left the queue and was delivered by the other side.
   */
  lemma {:induction false} DeliveredThroughMixers(
    e: Encoding, c: Crypto, h: R.HashFn, a: V.Name, b: V.Name, events: seq<D.Event>, s: D.System,
    rounds: seq<u32>, mixes: seq<Mix>, t: D.System)
    requires a != b && D.Run(h, a, b, events, s)
    requires rounds != [] && |rounds| == |mixes| && B.GoodRounds(s, rounds)
    requires MixedRounds(e, c, h, s, rounds, mixes, t)
    ensures B.Enough(|s.left.conv.outQueue|, |rounds|) ==> B.Emptied(t.left, t.right)
    ensures B.Enough(|s.right.conv.outQueue|, |rounds|) ==> B.Emptied(t.right, t.left)
  {
    assert B.InSync(h, s, rounds[0]);
    hide D.Run, MixedRounds, B.Exchanges, B.Enough, B.Emptied, B.InSync, GoodMix;
    MixedRoundsAreExchanges(e, c, h, s, rounds, mixes, t);
    B.EmptiedWithinBudget(h, a, b, events, s, rounds);
  }
}
