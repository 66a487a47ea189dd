/** The mixers' code: slots filled in place, filtered, and sealed again, one mixer calling the next. */
module MixServer {
  import opened Common
  import opened Onions
  import opened Shuffles
  import opened MixRounds
  import opened Spans

  /** The keys of the messages in the first n slots. */
  ghost predicate SeenKeys(slots: seq<Option<Bytes>>, n: nat, seen: set<Bytes>)
    requires n <= |slots|
  {
    && (forall k :: k in seen ==> exists j :: 0 <= j < n && slots[j].Some? && MsgKey(slots[j].value) == k)
    && (forall j :: 0 <= j < n && slots[j].Some? ==> MsgKey(slots[j].value) in seen)
  }

  lemma {:induction false} NothingFiltered(slots: seq<Option<Bytes>>)
    ensures Valid(slots, 0) == [] && SeenKeys(slots, 0, {})
  {
  }

  /** A slot is kept exactly when its key has not been seen. */
  lemma {:induction false} FilterStep(slots: seq<Option<Bytes>>, i: nat, seen: set<Bytes>)
    requires i < |slots| && SeenKeys(slots, i, seen)
    ensures if slots[i].Some? && MsgKey(slots[i].value) !in seen then
              && Valid(slots, i + 1) == Valid(slots, i) + [slots[i].value] && Index(slots, i) == |Valid(slots, i)|
              && SeenKeys(slots, i + 1, seen + {MsgKey(slots[i].value)})
            else
              && Valid(slots, i + 1) == Valid(slots, i) && Index(slots, i) == -1
              && SeenKeys(slots, i + 1, seen)
  {
    hide MsgKey;
  }

  /** The state of one round on one mixer; hops counts this mixer and those after it. */
  class RoundState {
    const r: Round
    const mixer: Mixer
    const hops: nat
    var numIncoming: nat
    var acceptingOnions: bool
    var incoming: array<Option<Bytes>>
    var sharedKeys: array<Key>
    var incomingValid: seq<Bytes>
    var incomingIndex: seq<int>

    ghost predicate Sized()
      reads this
    {
      incoming.Length == numIncoming && sharedKeys.Length == numIncoming && hops > 0
    }

    constructor (r: Round, mixer: Mixer, hops: nat)
      requires hops > 0
      ensures this.r == r && this.mixer == mixer && this.hops == hops
      ensures numIncoming == 0 && !acceptingOnions && Sized()
      ensures fresh(incoming) && fresh(sharedKeys)
    {
      this.r, this.mixer, this.hops := r, mixer, hops;
      numIncoming, acceptingOnions := 0, false;
      incoming := new Option<Bytes>[0];
      sharedKeys := new Key[0];
      incomingValid, incomingIndex := [], [];
    }

    /** The head of an AddOnions stream: the first one allocates the slots, later ones must agree. */
    method OpenStream(count: nat) returns (ok: bool)
      requires Sized()
      modifies this`numIncoming, this`acceptingOnions, this`incoming, this`sharedKeys
      ensures Sized() && ok == (old(numIncoming) == 0 || old(numIncoming) == count)
      ensures old(numIncoming) == 0 ==> numIncoming == count && acceptingOnions && fresh(incoming) && fresh(sharedKeys)
      ensures old(numIncoming) == 0 ==> forall i :: 0 <= i < count ==> incoming[i] == None && sharedKeys[i] == Zeros(32)
      ensures old(numIncoming) != 0 ==> unchanged(this)
    {
      if numIncoming == 0 {
        acceptingOnions := true;
        numIncoming := count;
        incoming := new Option<Bytes>[count](_ => None);
        sharedKeys := new Key[count](_ => Zeros(32));
      } else if numIncoming != count {
        return false;
      }
      return true;
    }

    /** One job of the decryption workers: a run of slots, each written from its own onion. */
    method DecryptJob(offset: nat, onions: seq<Bytes>)
      requires Sized() && offset + |onions| <= numIncoming
      requires SizesOk(r.crypto)
      modifies incoming, sharedKeys
      ensures forall j :: 0 <= j < numIncoming ==>
                if offset <= j < offset + |onions| && |onions[j - offset]| == OnionSize(hops, r.sizeIncoming)
                then incoming[j] == Decrypt(r, mixer, hops, onions[j - offset])
                     && sharedKeys[j] == SharedKey(r, mixer, hops, onions[j - offset])
                else incoming[j] == old(incoming[j]) && sharedKeys[j] == old(sharedKeys[j])
    {
      var expectedSize := OnionSize(hops, r.sizeIncoming);
      var i := 0;
      while i < |onions|
        invariant i <= |onions|
        invariant forall j :: 0 <= j < numIncoming ==>
                    if offset <= j < offset + i && |onions[j - offset]| == expectedSize
                    then incoming[j] == Decrypt(r, mixer, hops, onions[j - offset])
                         && sharedKeys[j] == SharedKey(r, mixer, hops, onions[j - offset])
                    else incoming[j] == old(incoming[j]) && sharedKeys[j] == old(sharedKeys[j])
      {
        var onion := onions[i];
        if |onion| == expectedSize {
          sharedKeys[offset + i] := r.crypto.shared(onion[..SIZE_PUBLIC_KEY], mixer.private);
          incoming[offset + i] := r.crypto.open(sharedKeys[offset + i], r.forward, onion[SIZE_PUBLIC_KEY..]);
        }
        i := i + 1;
      }
    }

    method FilterIncoming()
      requires Sized()
      requires forall i :: 0 <= i < numIncoming && incoming[i].Some? ==> |incoming[i].value| >= 8
      modifies this`incomingValid, this`incomingIndex
      ensures incomingValid == Valid(incoming[..], numIncoming)
      ensures incomingIndex == Indexes(incoming[..])
      ensures forall i :: 0 <= i < numIncoming ==>
        (incomingIndex[i] == -1 <==>
           incoming[i].None? ||
           exists j :: 0 <= j < i && incoming[j].Some? && SameEnd(incoming[j].value, incoming[i].value))
    {
      hide Kept, Valid, Index;
      incomingValid, incomingIndex := [], [];
      var seen: set<Bytes> := {};
      ghost var slots := incoming[..];
      NothingFiltered(slots);
      var i := 0;
      while i < numIncoming
        invariant i <= numIncoming && slots == incoming[..]
        invariant incomingValid == Valid(slots, i)
        invariant |incomingIndex| == i && forall j :: 0 <= j < i ==> incomingIndex[j] == Index(slots, j)
        invariant SeenKeys(slots, i, seen)
      {
        FilterStep(slots, i, seen);
        match incoming[i] {
          case None =>
            incomingIndex := incomingIndex + [-1];
          case Some(msg) =>
            var msgkey := msg[|msg| - 8..];
            if msgkey in seen {
              incomingIndex := incomingIndex + [-1];
            } else {
              seen := seen + {msgkey};
              incomingIndex := incomingIndex + [|incomingValid|];
              incomingValid := incomingValid + [msg];
            }
        }
        i := i + 1;
      }
      forall k | 0 <= k < numIncoming
        ensures incomingIndex[k] == -1 <==>
          slots[k].None? || exists j :: 0 <= j < k && slots[j].Some? && SameEnd(slots[j].value, slots[k].value)
      {
        DroppedExactly(slots, k);
      }
    }

    /** Seals every slot's reply; the key variable lives across the slots, as in the source. */
    method EncryptReplies(answers: seq<Bytes>) returns (replies: array<Bytes>)
      requires Sized() && |incomingIndex| == numIncoming && r.sizeReply > 0
      requires forall i :: 0 <= i < numIncoming ==> -1 <= incomingIndex[i] < |answers|
      ensures fresh(replies) && replies[..] == SealReplies(r, mixer, hops, incomingIndex, sharedKeys[..], answers)
    {
      var replyMsgSize := ReplySize(r, hops - 1);
      replies := new Bytes[numIncoming](_ => []);
      var emptyMsg := Zeros(replyMsgSize);
      var key: Key := [];
      var todo := Indices(numIncoming);
      while todo != {}
        invariant forall i :: i in todo ==> i < numIncoming
        invariant forall i :: 0 <= i < numIncoming && i !in todo ==>
                    replies[i] == SealReply(r, mixer, hops, incomingIndex[i], sharedKeys[i], answers, i)
        decreases todo
      {
        var i :| i in todo;
        var msg: Bytes := [];
        var v := incomingIndex[i];
        if v > -1 {
          msg := answers[v];
          key := sharedKeys[i];
        }
        if |msg| != replyMsgSize {
          msg := emptyMsg;
          key := mixer.freshKey(i);
        }
        replies[i] := r.crypto.seal(key, r.backward, msg);
        todo := todo - {i};
      }
    }
  }

  /** The client side of AddOnions: two levels of spans, every slot written once. */
  method AddOnions(st: RoundState, onions: seq<Bytes>)
    requires st.Sized() && st.numIncoming == 0 && SizesOk(st.r.crypto)
    modifies st
    ensures st.Sized() && st.numIncoming == |onions|
    ensures st.incoming[..] == Decrypted(st.r, st.mixer, st.hops, onions)
    ensures st.sharedKeys[..] == SharedKeys(st.r, st.mixer, st.hops, onions)
    ensures fresh(st.incoming) && fresh(st.sharedKeys)
  {
    var ok := st.OpenStream(|onions|);
    var spans := SpansOf(|onions|, SpanSize(|onions|));
    var todo := Indices(|spans|);
    while todo != {}
      invariant st.Sized() && st.numIncoming == |onions| && fresh(st.incoming) && fresh(st.sharedKeys)
      invariant forall k :: k in todo ==> k < |spans|
      invariant forall j :: 0 <= j < |onions| ==> SlotBlank(st, j) || SlotFilled(st, onions, j)
      invariant forall j, k :: 0 <= j < |onions| && 0 <= k < |spans| && k !in todo && InSpan(spans[k], j) ==>
                  SlotFilled(st, onions, j)
      decreases todo
    {
      var k :| k in todo;
      SpansInRange(|onions|, SpanSize(|onions|), 0, k);
      StreamAddOnions(st, onions, spans[k]);
      todo := todo - {k};
    }
    forall j | 0 <= j < |onions|
      ensures st.incoming[j] == Decrypt(st.r, st.mixer, st.hops, onions[j])
      ensures st.sharedKeys[j] == SharedKey(st.r, st.mixer, st.hops, onions[j])
    {
      var k := SpansPartition(|onions|, SpanSize(|onions|), 0, j);
      assert SlotFilled(st, onions, j);
    }
  }

  /** A slot no job has written. */
  ghost predicate SlotBlank(st: RoundState, j: nat)
    requires st.Sized() && j < st.numIncoming
    reads st, st.incoming, st.sharedKeys
  {
    st.incoming[j] == None && st.sharedKeys[j] == Zeros(32)
  }

  /** A slot that holds what its onion decrypts to. */
  ghost predicate SlotFilled(st: RoundState, onions: seq<Bytes>, j: nat)
    requires st.Sized() && j < st.numIncoming == |onions|
    reads st, st.incoming, st.sharedKeys
  {
    && st.incoming[j] == Decrypt(st.r, st.mixer, st.hops, onions[j])
    && st.sharedKeys[j] == SharedKey(st.r, st.mixer, st.hops, onions[j])
  }

  /** One connection: its span goes out in jobs of sixteen onions. */
  method StreamAddOnions(st: RoundState, onions: seq<Bytes>, span: Span)
    requires st.Sized() && st.numIncoming == |onions| && SizesOk(st.r.crypto)
    requires span.start + span.count <= |onions|
    requires forall j :: 0 <= j < |onions| ==> SlotBlank(st, j) || SlotFilled(st, onions, j)
    modifies st.incoming, st.sharedKeys
    ensures forall j :: 0 <= j < |onions| ==> SlotBlank(st, j) || SlotFilled(st, onions, j)
    ensures forall j :: 0 <= j < |onions| && (InSpan(span, j) || old(SlotFilled(st, onions, j))) ==>
              SlotFilled(st, onions, j)
  {
    var pieces := SpansOf(span.count, STREAM_SPAN);
    var k := 0;
    ghost var done: nat := 0;
    while k < |pieces|
      invariant k <= |pieces|
      invariant done <= span.count && (k == |pieces| ==> done == span.count)
      invariant SpansFrom(span.count, STREAM_SPAN, done) == pieces[k..]
      invariant forall j :: 0 <= j < |onions| ==> SlotBlank(st, j) || SlotFilled(st, onions, j)
      invariant forall j ::
                  0 <= j < |onions| && (span.start <= j < span.start + done || old(SlotFilled(st, onions, j))) ==>
                    SlotFilled(st, onions, j)
    {
      var piece := pieces[k];
      assert piece == SpansFrom(span.count, STREAM_SPAN, done)[0];
      label before:
      var offset := span.start + piece.start;
      st.DecryptJob(offset, onions[offset..][..piece.count]);
      forall j | 0 <= j < |onions|
        ensures offset <= j < offset + piece.count || old@before(SlotFilled(st, onions, j)) ==>
                  SlotFilled(st, onions, j)
        ensures SlotBlank(st, j) || SlotFilled(st, onions, j)
      {
        assert old@before(SlotBlank(st, j) || SlotFilled(st, onions, j));
      }
      done := done + piece.count;
      k := k + 1;
    }
  }

  /** Answers to the noise behind the filtered messages do not reach any slot. */
  lemma {:induction false} NoiseAnswersUnused(
    r: Round, m: Mixer, hops: nat, indexes: seq<int>, keys: seq<Key>, answers: seq<Bytes>, n: nat)
    requires |indexes| == |keys| && hops > 0 && n <= |answers|
    requires forall i :: 0 <= i < |indexes| ==> indexes[i] < n
    ensures SealReplies(r, m, hops, indexes, keys, answers) == SealReplies(r, m, hops, indexes, keys, answers[..n])
  {
  }

  /**
   A round as the previous mixer (or the coordinator) runs it: send the onions, close the round, fetch
   the replies; the mixer calls the next one in between. Its result is the round's function.
   */
  method RunRoundBidirectional(r: Round, chain: seq<Mixer>, onions: seq<Bytes>)
    returns (replies: seq<Bytes>, ghost batches: seq<seq<Bytes>>, ghost handled: seq<Bytes>)
    requires RoundOk(r) && ChainOk(chain) && chain != []
    ensures replies == RunRound(r, chain, onions)
    ensures |batches| == |chain| && batches[0] == onions
    ensures forall k :: 0 <= k < |chain| - 1 ==> HandsOn(r, chain[k], |chain| - k, batches[k], batches[k + 1])
    ensures var incoming := Decrypted(r, chain[|chain| - 1], 1, batches[|chain| - 1]);
            handled == FirstOnes(incoming, |incoming|) + chain[|chain| - 1].noise
    decreases |chain|
  {
    hide Kept, Valid, Decrypt, SharedKey, SealReply, HandsOn, FirstOnes;
    var st := new RoundState(r, chain[0], |chain|);
    AddOnions(st, onions);
    DecryptedLong(r, chain[0], |chain|, onions);
    st.FilterIncoming();
    IndexesInOutgoing(r, chain, onions);
    var outgoing := st.incomingValid + st.mixer.noise;
    assert outgoing == Outgoing(r, chain, onions);
    ValidIsFirstOnes(Decrypted(r, chain[0], |chain|, onions), |onions|);
    var answers;
    batches := [onions];
    handled := outgoing;
    if |chain| > 1 {
      var perm := st.mixer.perm(|outgoing|);
      var next := Shuffle(perm, outgoing);
      var answered;
      ghost var rest;
      answered, rest, handled := RunRoundBidirectional(r, chain[1..], next);
      HandsOnShuffled(r, chain[0], |chain|, onions, next);
      BatchesLineUp(r, chain, onions, rest);
      batches := batches + rest;
      answers := Unshuffle(perm, answered)[..|st.incomingValid|];
    } else {
      answers := r.handle(outgoing);
      NoiseAnswersUnused(r, chain[0], 1, st.incomingIndex, st.sharedKeys[..], answers, |st.incomingValid|);
    }
    var sealedReplies := st.EncryptReplies(answers);
    replies := FetchAll(sealedReplies[..]);
  }

  lemma {:induction false} HandsOnShuffled(r: Round, m: Mixer, hops: nat, batch: seq<Bytes>, next: seq<Bytes>)
    requires MixerOk(m) && AllLong(Decrypted(r, m, hops, batch))
    requires var all := Valid(Decrypted(r, m, hops, batch), |batch|) + m.noise; next == Shuffle(m.perm(|all|), all)
    ensures HandsOn(r, m, hops, batch, next)
  {
    var incoming := Decrypted(r, m, hops, batch);
    ValidIsFirstOnes(incoming, |incoming|);
    hide Decrypt, Valid, FirstOnes;
    var all := FirstOnes(incoming, |incoming|) + m.noise;
    ShuffleKeepsAll(m.perm(|all|), all);
  }

  lemma {:induction false} BatchesLineUp(r: Round, chain: seq<Mixer>, onions: seq<Bytes>, rest: seq<seq<Bytes>>)
    requires |chain| > 1 && |rest| == |chain| - 1
    requires HandsOn(r, chain[0], |chain|, onions, rest[0])
    requires forall k :: 0 <= k < |chain[1..]| - 1 ==> HandsOn(r, chain[1..][k], |chain[1..]| - k, rest[k], rest[k + 1])
    ensures var batches := [onions] + rest;
            && (forall k :: 0 <= k < |chain| - 1 ==> HandsOn(r, chain[k], |chain| - k, batches[k], batches[k + 1]))
            && batches[|chain| - 1] == rest[|chain[1..]| - 1]
  {
    hide HandsOn;
    var batches := [onions] + rest;
    forall k | 0 <= k < |chain| - 1
      ensures HandsOn(r, chain[k], |chain| - k, batches[k], batches[k + 1])
    {
      if k > 0 {
        assert HandsOn(r, chain[1..][k - 1], |chain[1..]| - (k - 1), rest[k - 1], rest[k]);
      }
    }
  }
}
