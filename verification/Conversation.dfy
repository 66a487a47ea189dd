/**
 One side of a conversation: a queue of texts sent over and over until the peer
 acknowledges them, and a reordering receiver for the peer's texts.
 */
module Conversations {
  import opened Common
  import opened ConvoWire
  import opened Ratchet

  type Name = string

  /**
   A sealed message. A box opens only under the key, round and recipient it was sealed for;
   anything else that may arrive in its place is noise.
   */
  datatype Cipher = SecretBox(key: Bytes, round: u32, recipient: Name, body: Bytes) | Noise(id: nat)

  /** The dead drop of a round, a keyed hash of the round number. */
  datatype Drop = Drop(key: Bytes, round: u32)

  /** What a conversation hands to the mixnet in a round. */
  datatype Outgoing = DeadDropMessage(drop: Drop, enc: Cipher) | Dummy(noise: nat)

  datatype SeqMsg = SeqMsg(relativeSeq: u32, msg: Bytes)

  datatype ConvoRound = ConvoRound(sentMessage: Cipher, roundKey: Bytes)

  /** An index into the out queue, or -1. */
  type OutIndex = i: int | -1 <= i

  /** The fields of a conversation that its protocol reads and writes. */
  datatype Conv = Conv(
    me: Name,
    peer: Name,
    rounds: map<u32, ConvoRound>,
    outQueue: seq<SeqMsg>,
    lastOut: OutIndex,
    inQueue: map<u32, Bytes>,
    relativeSeq: u32,
    seqBase: u32,
    ack: u32,
    sessionKey: Bytes,
    sessionKeyRound: u32)

  function Seal(c: Conv, body: Bytes, round: u32, roundKey: Bytes): Cipher {
    SecretBox(roundKey, round, c.peer, body)
  }

  function Open(me: Name, enc: Cipher, round: u32, roundKey: Bytes): Option<Bytes> {
    match enc
    case SecretBox(key, r, recipient, body) =>
      if key == roundKey && r == round && recipient == me then Some(body) else None
    case Noise(_) => None
  }

  function QueueText(c: Conv, msg: Bytes): Conv {
    c.(outQueue := c.outQueue + [SeqMsg(c.relativeSeq, msg)], relativeSeq := Wrap32(c.relativeSeq + 1))
  }

  /** The part of activateConvo that touches the conversation. */
  function Activate(c: Conv, key: Bytes, round: u32): Conv {
    c.(sessionKey := key, sessionKeyRound := round, lastOut := -1)
  }

  /** Choosing the text of a round: the next one in the queue, or the first again. */
  function PickText(c: Conv, round: u32): (Conv, ConvoMessage) {
    if c.outQueue == [] then (c, ConvoMessage(0, c.ack, false, Zeros(SIZE_USER_TEXT)))
    else
      var base := if c.seqBase == 0 then Wrap32(round + 1) else c.seqBase;
      var advance := c.lastOut != -1 && c.lastOut + 1 < |c.outQueue|;
      var next: OutIndex := if advance then c.lastOut + 1 else 0;
      var out := c.outQueue[next];
      (c.(seqBase := base, lastOut := next),
       ConvoMessage(Wrap32(out.relativeSeq + base), c.ack, !advance, out.msg))
  }

  /** rollAndReplaceKey. */
  function RollKeyTo(h: HashFn, c: Conv, round: u32): (Conv, Option<Bytes>) {
    match RollKey(h, c.sessionKey, c.sessionKeyRound, round)
    case None => (c, None)
    case Some(key) => (c.(sessionKey := key, sessionKeyRound := round), Some(key))
  }

  function Next(h: HashFn, c: Conv, round: u32, noise: nat): (Conv, Outgoing) {
    var (picked, msg) := PickText(c, round);
    var (rolled, key) := RollKeyTo(h, picked, round);
    match key
    case None => (rolled, Dummy(noise))
    case Some(k) =>
      var enc := Seal(rolled, Marshal(msg), round, k);
      (rolled.(rounds := rolled.rounds[round := ConvoRound(enc, k)]), DeadDropMessage(Drop(k, round), enc))
  }

  /** The rounds kept after a reply: not the answered one, and none more than ten older (on uint32). */
  function KeepRounds(rounds: map<u32, ConvoRound>, round: u32): map<u32, ConvoRound> {
    map r | r in rounds && r != round && r >= Wrap32(round - 10) :: rounds[r]
  }

  /** An acknowledgement removes the texts it covers and moves the sending position back with them. */
  function Prune(queue: seq<SeqMsg>, base: u32, ack: u32, lastOut: OutIndex): (seq<SeqMsg>, OutIndex)
    decreases |queue|
  {
    if queue == [] then ([], lastOut)
    else if base > 0 && Wrap32(queue[0].relativeSeq + base) <= ack then
      Prune(queue[1..], base, ack, if lastOut > 0 then lastOut - 1 else lastOut)
    else
      var (rest, out) := Prune(queue[1..], base, ack, lastOut);
      ([queue[0]] + rest, out)
  }

  /** The consecutive texts that follow ack, what is left waiting, and the new ack. */
  function Drain(inQueue: map<u32, Bytes>, ack: u32): (seq<Bytes>, map<u32, Bytes>, u32)
    decreases inQueue.Keys
  {
    var i := Wrap32(ack + 1);
    if i in inQueue then
      var (texts, rest, last) := Drain(inQueue - {i}, i);
      ([inQueue[i]] + texts, rest, last)
    else ([], inQueue, ack)
  }

  /** Taking in a text: queue it, jump if it is the lowest the peer has, deliver what is in order. */
  function Receive(c: Conv, msg: ConvoMessage): (Conv, seq<Bytes>) {
    if msg.seqNo > c.ack then
      var from: u32 := if msg.lowest then msg.seqNo - 1 else c.ack;
      var (texts, rest, last) := Drain(c.inQueue[msg.seqNo := msg.text], from);
      (c.(inQueue := rest, ack := last), texts)
    else (c, [])
  }

  function TakeAck(c: Conv, ack: u32): Conv {
    var (queue, lastOut) := Prune(c.outQueue, c.seqBase, ack, c.lastOut);
    c.(outQueue := queue, lastOut := lastOut)
  }

  /** The message a reply of a round carries, if the conversation accepts it as one. */
  function Accept(c: Conv, round: u32, enc: Cipher): Option<ConvoMessage> {
    if round !in c.rounds then None
    else if enc == c.rounds[round].sentMessage && c.peer != c.me then None
    else
      match Open(c.me, enc, round, c.rounds[round].roundKey)
      case None => None
      case Some(body) => Unmarshal(body)
  }

  /** The new state, and the texts of the peer to deliver, in order. */
  function Reply(c: Conv, round: u32, enc: Cipher): (Conv, seq<Bytes>) {
    var kept := c.(rounds := KeepRounds(c.rounds, round));
    match Accept(c, round, enc)
    case None => (kept, [])
    case Some(msg) => Receive(TakeAck(kept, msg.ack), msg)
  }

  /** The texts as they appear on the screen. */
  function Display(texts: seq<Bytes>): (shown: seq<Bytes>)
    ensures |shown| == |texts|
    ensures forall i :: 0 <= i < |shown| ==> shown[i] == TrimRight(texts[i])
  {
    seq(|texts|, i requires 0 <= i < |texts| => TrimRight(texts[i]))
  }

  // ---------------------------------------------------------------- what the receiver and the table of rounds do

  /** n numbers after from are there, and the next is not. */
  predicate LongestRun(waiting: map<u32, Bytes>, from: int, n: nat) {
    && (forall k: u32 :: from < k <= from + n ==> k in waiting)
    && (forall k: u32 :: k == from + n + 1 ==> k !in waiting)
  }

  /** What a message does to a receiver: after, and the texts delivered. */
  predicate TakesIn(c: Conv, msg: ConvoMessage, after: Conv, texts: seq<Bytes>) {
    if msg.seqNo <= c.ack then after == c && texts == []
    else
      var waiting := c.inQueue[msg.seqNo := msg.text];
      var from := if msg.lowest then msg.seqNo - 1 else c.ack;
      && LongestRun(waiting, from, |texts|)
      && after.ack == from + |texts|
      && (forall k: u32 :: from < k <= from + |texts| ==> texts[k - from - 1] == waiting[k])
      && (forall k: u32 :: k in after.inQueue <==> k in waiting && !(from < k <= from + |texts|))
      && (forall k: u32 :: k in after.inQueue ==> after.inQueue[k] == waiting[k])
      && after == c.(inQueue := after.inQueue, ack := after.ack)
  }

  lemma {:induction false} DrainStep(inQueue: map<u32, Bytes>, ack: u32)
    ensures var i := Wrap32(ack + 1);
            Drain(inQueue, ack) ==
              if i in inQueue then
                var (texts, rest, last) := Drain(inQueue - {i}, i); ([inQueue[i]] + texts, rest, last)
              else ([], inQueue, ack)
  {
  }

  lemma {:induction false} DrainExactly(waiting: map<u32, Bytes>, from: u32)
    requires 0 !in waiting
    ensures var (texts, rest, last) := Drain(waiting, from);
            && LongestRun(waiting, from, |texts|) && last == from + |texts|
            && (forall k: u32 :: from < k <= from + |texts| ==> texts[k - from - 1] == waiting[k])
            && (forall k: u32 :: k in rest <==> k in waiting && !(from < k <= from + |texts|))
            && (forall k: u32 :: k in rest ==> rest[k] == waiting[k])
    decreases waiting.Keys
  {
    var i := Wrap32(from + 1);
    if i in waiting {
      assert i == from + 1;
      DrainExactly(waiting - {i}, i);
      var (tail, rest, last) := Drain(waiting - {i}, i);
      var (texts, _, _) := Drain(waiting, from);
      assert texts == [waiting[i]] + tail;
      forall k: u32 | from < k <= from + |texts|
        ensures k in waiting && texts[k - from - 1] == waiting[k]
      {
        if k > i {
          assert k in waiting - {i} && (waiting - {i})[k] == waiting[k];
          assert texts[k - from - 1] == tail[k - i - 1];
        }
      }
      forall k: u32 | k == from + |texts| + 1
        ensures k !in waiting
      {
        assert k !in waiting - {i};
      }
    }
  }

  /** The receiver does exactly this. */
  lemma {:induction false} ReceiveExactly(c: Conv, msg: ConvoMessage)
    requires 0 !in c.inQueue
    ensures TakesIn(c, msg, Receive(c, msg).0, Receive(c, msg).1)
  {
    if msg.seqNo > c.ack {
      var from: u32 := if msg.lowest then msg.seqNo - 1 else c.ack;
      hide Drain, LongestRun;
      DrainExactly(c.inQueue[msg.seqNo := msg.text], from);
    }
  }

  /** A round r stays when an answer to round is handled: another round, and at most ten older, on uint32. */
  predicate Stays(r: u32, round: u32) {
    r != round && r >= (round + 0x1_0000_0000 - 10) % 0x1_0000_0000
  }

  /** An accepted reply is taken in, whatever its acknowledgement does to the queue; any other delivers nothing. */
  lemma {:induction false} ReplyTakesIn(c: Conv, round: u32, enc: Cipher)
    requires 0 !in c.inQueue
    ensures var (after, texts) := Reply(c, round, enc);
            && (forall r: u32 :: r in after.rounds <==> r in c.rounds && Stays(r, round))
            && (forall r: u32 :: r in after.rounds ==> after.rounds[r] == c.rounds[r])
            && (Accept(c, round, enc).None? ==> after == c.(rounds := after.rounds) && texts == [])
            && (Accept(c, round, enc).Some? ==>
                  var rest := c.(rounds := after.rounds, outQueue := after.outQueue, lastOut := after.lastOut);
                  TakesIn(rest, Accept(c, round, enc).value, after, texts))
  {
    if Accept(c, round, enc).Some? {
      var msg := Accept(c, round, enc).value;
      var before := TakeAck(c.(rounds := KeepRounds(c.rounds, round)), msg.ack);
      hide Prune, Drain, TakesIn, Accept;
      ReceiveExactly(before, msg);
    }
  }

  lemma {:induction false} PruneNothing(base: u32, ack: u32, lastOut: OutIndex)
    ensures Prune([], base, ack, lastOut) == ([], lastOut)
  {
  }

  /** What one text of the queue does to the pruning of the rest. */
  lemma {:induction false} PruneStep(queue: seq<SeqMsg>, j: nat, base: u32, ack: u32, lastOut: OutIndex)
    requires j < |queue|
    ensures Prune(queue[j..], base, ack, lastOut) ==
      if base > 0 && Wrap32(queue[j].relativeSeq + base) <= ack then
        Prune(queue[j + 1..], base, ack, if lastOut > 0 then lastOut - 1 else lastOut)
      else
        ([queue[j]] + Prune(queue[j + 1..], base, ack, lastOut).0, Prune(queue[j + 1..], base, ack, lastOut).1)
  {
    assert queue[j..][1..] == queue[j + 1..];
  }

  /** The conversation object, whose methods update its fields in place. */
  class Conversation {
    const me: Name
    const peer: Name
    var rounds: map<u32, ConvoRound>
    var outQueue: seq<SeqMsg>
    var lastOut: OutIndex
    var inQueue: map<u32, Bytes>
    var relativeSeq: u32
    var seqBase: u32
    var ack: u32
    var sessionKey: Bytes
    var sessionKeyRound: u32

    function Value(): Conv
      reads this
    {
      Conv(me, peer, rounds, outQueue, lastOut, inQueue, relativeSeq, seqBase, ack, sessionKey, sessionKeyRound)
    }

    constructor (me: Name, peer: Name)
      ensures Value() == Conv(me, peer, map[], [], 0, map[], 0, 0, 0, [], 0)
    {
      this.me, this.peer := me, peer;
      rounds, outQueue, lastOut, inQueue := map[], [], 0, map[];
      relativeSeq, seqBase, ack := 0, 0, 0;
      sessionKey, sessionKeyRound := [], 0;
    }

    method QueueTextMessage(msg: Bytes)
      modifies this
      ensures Value() == QueueText(old(Value()), msg)
    {
      outQueue := outQueue + [SeqMsg(relativeSeq, msg)];
      relativeSeq := Wrap32(relativeSeq + 1);
    }

    method RollAndReplaceKey(h: HashFn, targetRound: u32) returns (key: Option<Bytes>)
      requires IsHash(h) && |sessionKey| == SIZE_KEY
      modifies this`sessionKey, this`sessionKeyRound
      ensures (Value(), key) == RollKeyTo(h, old(Value()), targetRound)
      ensures |sessionKey| == SIZE_KEY
    {
      key := RollKeyInPlace(h, sessionKey, sessionKeyRound, targetRound);
      if key.Some? {
        sessionKey, sessionKeyRound := key.value, targetRound;
      }
    }

    method NextMessage(h: HashFn, round: u32, noise: nat) returns (out: Outgoing)
      requires IsHash(h) && |sessionKey| == SIZE_KEY
      modifies this
      ensures (Value(), out) == Next(h, old(Value()), round, noise)
      ensures |sessionKey| == SIZE_KEY
    {
      var msg := ConvoMessage(0, ack, false, Zeros(SIZE_USER_TEXT));
      if |outQueue| > 0 {
        if seqBase == 0 {
          seqBase := Wrap32(round + 1);
        }
        if lastOut != -1 && lastOut + 1 < |outQueue| {
          lastOut := lastOut + 1;
        } else {
          lastOut := 0;
          msg := msg.(lowest := true);
        }
        msg := msg.(seqNo := Wrap32(outQueue[lastOut].relativeSeq + seqBase), text := outQueue[lastOut].msg);
      }
      var msgdata := MarshalInto(msg);
      var roundKey := RollAndReplaceKey(h, round);
      if roundKey.None? {
        return Dummy(noise);
      }
      var enc := SecretBox(roundKey.value, round, peer, msgdata[..]);
      rounds := rounds[round := ConvoRound(enc, roundKey.value)];
      out := DeadDropMessage(Drop(roundKey.value, round), enc);
    }

    method DeleteRounds(round: u32)
      modifies this`rounds
      ensures rounds == KeepRounds(old(rounds), round)
      ensures forall r: u32 :: r in rounds <==> r in old(rounds) && Stays(r, round)
      ensures forall r: u32 :: r in rounds ==> rounds[r] == old(rounds)[r]
    {
      rounds := rounds - {round};
      var todo := rounds.Keys;
      while todo != {}
        invariant todo <= rounds.Keys <= old(rounds).Keys - {round}
        invariant forall r :: r in rounds ==> rounds[r] == old(rounds)[r]
        invariant forall r :: r in old(rounds) && r != round && r !in rounds ==> r < Wrap32(round - 10)
        invariant forall r :: r in rounds && r !in todo ==> r >= Wrap32(round - 10)
        decreases todo
      {
        var r: u32 :| r in todo;
        if r < Wrap32(round - 10) {
          rounds := rounds - {r};
        }
        todo := todo - {r};
      }
    }

    method PruneQueue(upTo: u32)
      modifies this`outQueue, this`lastOut
      ensures Value() == TakeAck(old(Value()), upTo)
    {
      hide Prune;
      var newOutQueue: seq<SeqMsg> := [];
      var j := 0;
      assert outQueue[0..] == outQueue;
      while j < |outQueue|
        invariant j <= |outQueue|
        invariant outQueue == old(outQueue)
        invariant Prune(old(outQueue), seqBase, upTo, old(lastOut)).0
               == newOutQueue + Prune(outQueue[j..], seqBase, upTo, lastOut).0
        invariant Prune(old(outQueue), seqBase, upTo, old(lastOut)).1 == Prune(outQueue[j..], seqBase, upTo, lastOut).1
      {
        var out := outQueue[j];
        PruneStep(outQueue, j, seqBase, upTo, lastOut);
        if seqBase > 0 && Wrap32(out.relativeSeq + seqBase) <= upTo {
          if lastOut > 0 {
            lastOut := lastOut - 1;
          }
        } else {
          newOutQueue := newOutQueue + [out];
        }
        j := j + 1;
      }
      assert outQueue[j..] == [];
      PruneNothing(seqBase, upTo, lastOut);
      assert newOutQueue + [] == newOutQueue;
      outQueue := newOutQueue;
    }

    method TakeIn(msg: ConvoMessage) returns (displayMsgs: seq<Bytes>)
      modifies this`inQueue, this`ack
      ensures var (after, texts) := Receive(old(Value()), msg); Value() == after && displayMsgs == texts
      ensures 0 !in old(inQueue) ==> TakesIn(old(Value()), msg, Value(), displayMsgs)
    {
      hide TakesIn, Drain;
      ghost var before := Value();
      displayMsgs := [];
      if msg.seqNo > ack {
        inQueue := inQueue[msg.seqNo := msg.text];
        if msg.lowest {
          ack := msg.seqNo - 1;
        }
        ghost var queued, from := inQueue, ack;
        var i := Wrap32(ack + 1);
        while i in inQueue
          invariant i == Wrap32(ack + 1)
          invariant Drain(queued, from).0 == displayMsgs + Drain(inQueue, ack).0
          invariant Drain(queued, from).1 == Drain(inQueue, ack).1 && Drain(queued, from).2 == Drain(inQueue, ack).2
          decreases inQueue.Keys
        {
          DrainStep(inQueue, ack);
          displayMsgs := displayMsgs + [inQueue[i]];
          inQueue := inQueue - {i};
          ack := i;
          i := Wrap32(i as int + 1);
        }
        DrainStep(inQueue, ack);
        assert Drain(inQueue, ack) == ([], inQueue, ack);
        assert displayMsgs + [] == displayMsgs;
      }
      ghost var taken := Receive(before, msg);
      assert taken == (Value(), displayMsgs);
      hide Receive;
      if 0 !in before.inQueue {
        ReceiveExactly(before, msg);
      }
    }

    /** Handles the mixnet's answer to a round and returns what is displayed. */
    method HandleReply(round: u32, encmsg: Cipher) returns (shown: seq<Bytes>)
      modifies this
      ensures var (after, texts) := Reply(old(Value()), round, encmsg); Value() == after && shown == Display(texts)
      ensures forall r: u32 :: r in rounds <==> r in old(rounds) && Stays(r, round)
    {
      shown := [];
      var found := round in rounds;
      var st := if found then rounds[round] else ConvoRound(encmsg, []);
      DeleteRounds(round);
      if !found {
        return;
      }
      if encmsg == st.sentMessage && peer != me {
        return;
      }
      var msgdata := Open(me, encmsg, round, st.roundKey);
      if msgdata.None? {
        return;
      }
      var msg := Unmarshal(msgdata.value);
      if msg.None? {
        return;
      }
      PruneQueue(msg.value.ack);
      var texts := TakeIn(msg.value);
      shown := Display(texts);
    }
  }
}
