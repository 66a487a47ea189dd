/**
 Two peers of a conversation over a network that loses, delays, reorders and repeats
 what the mixnet hands back, either of which may restart at any time.
 */
module Delivery {
  import opened Common
  import opened ConvoWire
  import opened Ratchet
  import opened Conversations

  /** A text that was sent under a number, as it went on the wire, and the first number of the run that sent it. */
  datatype Entry = Entry(text: Bytes, wire: Bytes, base: int)

  /** A message put on the wire in a round. */
  datatype Record = Record(round: u32, msg: ConvoMessage, enc: Cipher)

  /**
   A conversation with the history of its owner. A restart forgets conv, queued, shown and texts;
   past, lastRound, book, sent and seen span all restarts.
   */
  datatype Party = Party(
    conv: Conv,
    active: bool,              // activateConvo has been called since the last restart
    queued: seq<Bytes>,        // every text queued since the last restart
    shown: seq<int>,           // the peer's sequence numbers delivered since the last restart, in order
    texts: seq<Bytes>,         // the texts delivered under them
    restarts: nat,
    past: seq<seq<int>>,       // what shown was at each restart
    lastRound: int,            // the last round a message was composed for, or -1
    book: map<int, Entry>,     // every sequence number ever sent
    sent: set<Record>,
    seen: set<int>)            // every sequence number of the peer ever delivered

  datatype System = System(left: Party, right: Party)

  datatype Action =
    | Queue(text: Bytes)
    | Start(key: Bytes, keyRound: u32)
    | Compose(round: u32, noise: nat)
    | Handle(round: u32, enc: Cipher)
    | Restart

  datatype Event = Event(byLeft: bool, action: Action)

  function FreshConv(me: Name, peer: Name): Conv {
    Conv(me, peer, map[], [], 0, map[], 0, 0, 0, [], 0)
  }

  function FreshParty(me: Name, peer: Name): Party {
    Party(FreshConv(me, peer), false, [], [], [], 0, [], -1, map[], {}, {})
  }

  function Initial(a: Name, b: Name): System {
    System(FreshParty(a, b), FreshParty(b, a))
  }

  function AfterCompose(h: HashFn, p: Party, round: u32, noise: nat): Party {
    var (conv, out) := Next(h, p.conv, round, noise);
    var msg := PickText(p.conv, round).1;
    match out
    case Dummy(_) => p.(conv := conv, lastRound := round)
    case DeadDropMessage(_, enc) =>
      p.(conv := conv, lastRound := round, sent := p.sent + {Record(round, msg, enc)},
         book := if msg.seqNo == 0 then p.book else p.book[msg.seqNo := Entry(msg.text, Fit(msg.text), conv.seqBase)])
  }

  /** The n consecutive numbers that end with last. */
  function UpTo(last: int, n: nat): (s: seq<int>)
    ensures |s| == n
    ensures forall i :: 0 <= i < n ==> s[i] == last - n + 1 + i
  {
    seq(n, i => last - n + 1 + i)
  }

  ghost function AfterHandle(p: Party, round: u32, enc: Cipher): Party {
    var (conv, texts) := Reply(p.conv, round, enc);
    var numbers := UpTo(conv.ack, |texts|);
    p.(conv := conv, shown := p.shown + numbers, texts := p.texts + texts, seen := p.seen + Elements(numbers))
  }

  ghost function After(h: HashFn, p: Party, a: Action): Party {
    match a
    case Queue(text) => p.(conv := QueueText(p.conv, text), queued := p.queued + [text])
    case Start(key, keyRound) => p.(conv := Activate(p.conv, key, keyRound), active := true)
    case Compose(round, noise) => AfterCompose(h, p, round, noise)
    case Handle(round, enc) => AfterHandle(p, round, enc)
    case Restart =>
      p.(conv := FreshConv(p.conv.me, p.conv.peer), active := false, queued := [], shown := [], texts := [],
         restarts := p.restarts + 1, past := p.past + [p.shown])
  }

  /** The sequence numbers of everything queued fit in a uint32. */
  predicate NoWrap(p: Party) {
    p.conv.seqBase + |p.queued| < TWO_TO_THE_32
  }

  ghost predicate OnWire(p: Party, enc: Cipher) {
    exists r :: r in p.sent && r.enc == enc
  }

  /**
   What the environment may do: texts are queued within the uint32 range, only an activated
   conversation composes, rounds go up (also across restarts), and the answer to a round is noise
   or any box that either side ever sent.
   */
  ghost predicate Allowed(h: HashFn, p: Party, peer: Party, a: Action) {
    match a
    case Queue(text) => NoWrap(After(h, p, a))
    case Start(_, _) => true
    case Compose(round, noise) => p.active && p.lastRound < round && round + 1 < TWO_TO_THE_32 && NoWrap(After(h, p, a))
    case Handle(round, enc) => enc.Noise? || OnWire(p, enc) || OnWire(peer, enc)
    case Restart => true
  }

  ghost predicate Enabled(h: HashFn, s: System, e: Event) {
    if e.byLeft then Allowed(h, s.left, s.right, e.action) else Allowed(h, s.right, s.left, e.action)
  }

  ghost function Step(h: HashFn, s: System, e: Event): System {
    if e.byLeft then s.(left := After(h, s.left, e.action)) else s.(right := After(h, s.right, e.action))
  }

  /** The state after the events, taken in order. */
  ghost function Final(h: HashFn, s: System, events: seq<Event>): System
    decreases |events|
  {
    if events == [] then s else Step(h, Final(h, s, events[..|events| - 1]), events[|events| - 1])
  }

  ghost predicate Legal(h: HashFn, s: System, events: seq<Event>)
    decreases |events|
  {
    events != [] ==>
      var before := events[..|events| - 1];
      Legal(h, s, before) && Enabled(h, Final(h, s, before), events[|events| - 1])
  }

  /** s is reached from the initial state by these events. */
  ghost predicate Run(h: HashFn, a: Name, b: Name, events: seq<Event>, s: System) {
    Legal(h, Initial(a, b), events) && s == Final(h, Initial(a, b), events)
  }

  // ---------------------------------------------------------------- the invariant

  /** How many texts of this run have left the queue. */
  function Gone(x: Party): int {
    |x.queued| - |x.conv.outQueue|
  }

  ghost predicate QueueOk(x: Party) {
    && NoWrap(x)
    && x.conv.relativeSeq == |x.queued|
    && 0 <= Gone(x)
    && (forall i :: 0 <= i < |x.conv.outQueue| ==>
          x.conv.outQueue[i] == SeqMsg(Gone(x) + i, x.queued[Gone(x) + i]))
    && (x.conv.seqBase == 0 ==> Gone(x) == 0 && (x.active ==> x.conv.lastOut == -1))
  }

  /** The position of the sender never runs ahead of the rounds. */
  ghost predicate PaceOk(x: Party) {
    && -1 <= x.lastRound < TWO_TO_THE_32 - 1
    && (x.conv.seqBase > 0 ==> x.conv.seqBase + Gone(x) + Max(x.conv.lastOut, 0) <= x.lastRound + 1)
  }

  /** A number of the present run stands for a text queued in it; in a first run there are no others. */
  ghost predicate EntryOk(x: Party, s: int)
    requires s in x.book
  {
    && 1 <= x.book[s].base <= s <= x.lastRound + 1
    && (0 < x.conv.seqBase <= s ==>
          x.book[s].base == x.conv.seqBase && s - x.conv.seqBase < |x.queued|
          && x.book[s].text == x.queued[s - x.conv.seqBase])
    && (x.restarts == 0 ==> 0 < x.conv.seqBase <= s)
  }

  ghost predicate WiresOk(x: Party) {
    forall s :: s in x.book ==> x.book[s].wire == Fit(x.book[s].text)
  }

  ghost predicate BookOk(x: Party) {
    && (forall s :: s in x.book ==> EntryOk(x, s))
    && RunsApart(x.book)
  }

  /** The numbers of different runs do not interleave. */
  ghost predicate RunsApart(book: map<int, Entry>) {
    forall s, t :: s in book && t in book && book[s].base <= t <= s ==> book[t].base == book[s].base
  }

  /** y has delivered everything of the run of number s that comes before s. */
  ghost predicate DeliveredBefore(x: Party, y: Party, s: int)
    requires s in x.book
  {
    forall t :: x.book[s].base <= t < s ==> t in y.seen
  }

  ghost predicate RecordOk(x: Party, y: Party, r: Record) {
    && r.enc.SecretBox? && r.enc.round == r.round && r.enc.recipient == x.conv.peer
    && r.enc.body == Marshal(r.msg)
    && r.round <= x.lastRound
    && (r.msg.seqNo > 0 ==> r.msg.seqNo in x.book && x.book[r.msg.seqNo].wire == Fit(r.msg.text)
                            && r.msg.seqNo <= r.round + 1)
    && (r.msg.lowest ==> r.msg.seqNo > 0 && DeliveredBefore(x, y, r.msg.seqNo))
    && (r.msg.ack > 0 ==> r.msg.ack in x.seen)
    && r.msg.ack <= r.round
  }

  ghost predicate SentOk(x: Party, y: Party) {
    forall r :: r in x.sent ==> RecordOk(x, y, r)
  }

  ghost predicate SeenOk(x: Party, y: Party) {
    && (forall s :: s in y.seen ==> s in x.book && DeliveredBefore(x, y, s))
    && (x.conv.seqBase > 0 ==> forall t :: x.conv.seqBase <= t < x.conv.seqBase + Gone(x) ==> t in y.seen)
  }

  ghost predicate WaitingOk(x: Party, y: Party) {
    && (y.conv.ack > 0 ==> y.conv.ack in y.seen)
    && y.conv.ack <= y.lastRound + 1
    && (forall s :: s in y.conv.inQueue ==>
          s in x.book && y.conv.inQueue[s] == x.book[s].wire && s <= y.lastRound + 1)
    && (forall r :: r in y.conv.rounds ==> r <= y.lastRound)
  }

  ghost predicate ShownOk(x: Party, y: Party) {
    && |y.texts| == |y.shown|
    && (forall i, j :: 0 <= i < j < |y.shown| ==> y.shown[i] < y.shown[j])
    && (forall i :: 0 <= i < |y.shown| ==>
          y.shown[i] in y.seen && y.shown[i] in x.book && y.texts[i] == x.book[y.shown[i]].wire
          && y.shown[i] <= y.conv.ack)
    && (y.restarts == 0 ==> forall s :: s in y.seen ==> s in y.shown)
  }

  /** Everything that holds of the direction in which x sends and y delivers. */
  ghost predicate Direction(x: Party, y: Party) {
    && x.conv.me == y.conv.peer && x.conv.peer == y.conv.me && x.conv.me != y.conv.me
    && QueueOk(x) && PaceOk(x) && BookOk(x) && WiresOk(x)
    && SentOk(x, y) && SeenOk(x, y) && WaitingOk(x, y) && ShownOk(x, y)
  }

  ghost predicate Inv(s: System) {
    Direction(s.left, s.right) && Direction(s.right, s.left)
  }

  // ---------------------------------------------------------------- composing

  /**
   What the choice of a text for a round amounts to: nothing to send, or the text at some place of
   the run, under a number that fits the round; marked lowest only when it is the head of the queue.
   */
  ghost predicate Picked(x: Party, round: u32, c: Conv, msg: ConvoMessage) {
    var place := Gone(x) + c.lastOut;
    && msg.ack == x.conv.ack
    && if x.conv.outQueue == [] then
         msg.seqNo == 0 && !msg.lowest && c.seqBase == x.conv.seqBase && c.lastOut == x.conv.lastOut
       else
         && 0 <= place < |x.queued|
         && msg.text == x.queued[place]
         && 0 < c.seqBase <= msg.seqNo == c.seqBase + place <= round + 1
         && 0 <= c.lastOut && (msg.lowest ==> c.lastOut == 0)
         && (x.conv.seqBase == 0 ==> c.seqBase == round + 1 == msg.seqNo)
         && (x.conv.seqBase > 0 ==> c.seqBase == x.conv.seqBase)
  }

  ghost predicate MayCompose(x: Party, round: u32) {
    && x.active && x.lastRound < round && round + 1 < TWO_TO_THE_32
    && (x.conv.outQueue != [] && x.conv.seqBase == 0 ==> round + 1 + |x.queued| < TWO_TO_THE_32)
  }

  lemma {:induction false} PickPlace(x: Party, round: u32)
    requires QueueOk(x) && PaceOk(x) && MayCompose(x, round)
    ensures var (c, msg) := PickText(x.conv, round); Picked(x, round, c, msg)
  {
  }

  /** A number chosen by a run that starts composing is larger than every number sent before. */
  lemma {:induction false} BaseIsFresh(x: Party, round: u32)
    requires BookOk(x) && x.lastRound < round
    ensures forall s :: s in x.book ==> s < round + 1
  {
    forall s | s in x.book
      ensures s < round + 1
    {
      assert EntryOk(x, s);
    }
  }

  /** x' is x after composing msg: fields the receiver owns are as before, and msg may be on the wire. */
  ghost predicate Composed(x: Party, x': Party, round: u32, c: Conv, msg: ConvoMessage) {
    && x'.conv.outQueue == x.conv.outQueue && x'.conv.lastOut == c.lastOut && x'.conv.seqBase == c.seqBase
    && x'.conv.relativeSeq == x.conv.relativeSeq && x'.conv.ack == x.conv.ack
    && x'.conv.inQueue == x.conv.inQueue && x'.conv.me == x.conv.me && x'.conv.peer == x.conv.peer
    && x'.conv.rounds.Keys <= x.conv.rounds.Keys + {round}
    && x' == x.(conv := x'.conv, lastRound := round, sent := x'.sent, book := x'.book)
    && (x'.book == x.book
        || (msg.seqNo > 0 && x'.book == x.book[msg.seqNo := Entry(msg.text, Fit(msg.text), c.seqBase)]))
    && (forall r :: r in x'.sent && r !in x.sent ==>
          && r.round == round && r.msg == msg
          && r.enc.SecretBox? && r.enc.round == round && r.enc.recipient == x.conv.peer && r.enc.body == Marshal(msg)
          && (msg.seqNo > 0 ==>
                msg.seqNo in x'.book && x'.book[msg.seqNo] == Entry(msg.text, Fit(msg.text), c.seqBase)))
  }

  lemma {:induction false} ComposeShape(h: HashFn, x: Party, round: u32, noise: nat)
    ensures var (c, msg) := PickText(x.conv, round); Composed(x, AfterCompose(h, x, round, noise), round, c, msg)
  {
  }

  lemma {:induction false} ComposedQueue(x: Party, x': Party, round: u32, c: Conv, msg: ConvoMessage)
    requires QueueOk(x) && PaceOk(x) && MayCompose(x, round) && NoWrap(x')
    requires Picked(x, round, c, msg) && Composed(x, x', round, c, msg)
    ensures QueueOk(x') && PaceOk(x')
  {
  }

  /** A number that is sent again is sent with the same text; a new one enters the book with its own. */
  lemma {:induction false} ComposedBookExtends(x: Party, x': Party, round: u32, c: Conv, msg: ConvoMessage)
    requires BookOk(x) && WiresOk(x) && MayCompose(x, round)
    requires Picked(x, round, c, msg) && Composed(x, x', round, c, msg)
    ensures WiresOk(x')
    ensures forall s :: s in x.book ==> s in x'.book && x'.book[s] == x.book[s]
    ensures forall s :: s in x'.book && s !in x.book ==>
              x.conv.outQueue != [] && s == msg.seqNo && x'.book[s] == Entry(msg.text, Fit(msg.text), c.seqBase)
  {
    BaseIsFresh(x, round);
    if msg.seqNo in x.book {
      assert EntryOk(x, msg.seqNo);
      assert x.book[msg.seqNo] == Entry(msg.text, Fit(msg.text), c.seqBase);
    }
  }

  lemma {:induction false} ComposedBook(x: Party, x': Party, round: u32, c: Conv, msg: ConvoMessage)
    requires BookOk(x) && WiresOk(x) && MayCompose(x, round)
    requires Picked(x, round, c, msg) && Composed(x, x', round, c, msg)
    ensures BookOk(x')
  {
    ComposedBookExtends(x, x', round, c, msg);
    BaseIsFresh(x, round);
    forall s | s in x'.book
      ensures EntryOk(x', s)
    {
      if s in x.book {
        assert EntryOk(x, s);
      }
    }
    forall s, t | s in x'.book && t in x'.book && x'.book[s].base <= t <= s
      ensures x'.book[t].base == x'.book[s].base
    {
      assert EntryOk(x', s) && EntryOk(x', t);
    }
  }

  /** The lowest text of the queue: all before it have left the queue, so all before it were delivered. */
  lemma {:induction false} ComposedRecord(
    x: Party, y: Party, x': Party, round: u32, c: Conv, msg: ConvoMessage, r: Record)
    requires SeenOk(x, y) && WaitingOk(y, x) && MayCompose(x, round)
    requires Picked(x, round, c, msg) && Composed(x, x', round, c, msg)
    requires x.conv.seqBase == 0 ==> Gone(x) == 0
    requires r in x'.sent && r !in x.sent
    ensures RecordOk(x', y, r)
  {
  }

  lemma {:induction false} ComposeKeepsSender(h: HashFn, x: Party, y: Party, round: u32, noise: nat)
    requires Direction(x, y) && Direction(y, x)
    requires Allowed(h, x, y, Compose(round, noise))
    ensures Direction(AfterCompose(h, x, round, noise), y)
  {
    var x' := AfterCompose(h, x, round, noise);
    var (c, msg) := PickText(x.conv, round);
    ComposeShape(h, x, round, noise);
    PickPlace(x, round);
    ComposedKeepsSender(x, y, x', round, c, msg);
  }

  lemma {:induction false} ComposedKeepsSender(x: Party, y: Party, x': Party, round: u32, c: Conv, msg: ConvoMessage)
    requires Direction(x, y) && WaitingOk(y, x)
    requires MayCompose(x, round) && NoWrap(x')
    requires Picked(x, round, c, msg) && Composed(x, x', round, c, msg)
    ensures Direction(x', y)
  {
    ComposedQueue(x, x', round, c, msg);
    ComposedBook(x, x', round, c, msg);
    ComposedBookExtends(x, x', round, c, msg);
    forall r | r in x'.sent
      ensures RecordOk(x', y, r)
    {
      if r in x.sent {
        assert RecordOk(x, y, r);
      } else {
        ComposedRecord(x, y, x', round, c, msg, r);
      }
    }
    forall s | s in y.seen
      ensures s in x'.book && DeliveredBefore(x', y, s)
    {
      assert DeliveredBefore(x, y, s);
    }
  }

  lemma {:induction false} ComposeKeepsReceiver(h: HashFn, x: Party, y: Party, round: u32, noise: nat)
    requires Direction(x, y) && Direction(y, x)
    requires Allowed(h, x, y, Compose(round, noise))
    ensures Direction(y, AfterCompose(h, x, round, noise))
  {
    var x' := AfterCompose(h, x, round, noise);
    ComposeShape(h, x, round, noise);
    forall r | r in y.sent
      ensures RecordOk(y, x', r)
    {
      assert RecordOk(y, x, r);
    }
    forall s | s in x.seen
      ensures DeliveredBefore(y, x', s)
    {
      assert DeliveredBefore(y, x, s);
    }
  }

  // ---------------------------------------------------------------- handling a reply

  /** A box one sealed for the peer does not open for oneself. */
  lemma {:induction false} OwnBoxesStayShut(x: Party, y: Party, round: u32, enc: Cipher, key: Bytes)
    requires Direction(y, x) && OnWire(y, enc)
    ensures Open(y.conv.me, enc, round, key) == None
  {
    var r :| r in y.sent && r.enc == enc;
    assert RecordOk(y, x, r);
  }

  /** Whatever is accepted as the reply of a round is a message the peer sent in that round. */
  lemma {:induction false} AcceptedRecord(x: Party, y: Party, round: u32, enc: Cipher) returns (r: Record)
    requires Direction(x, y) && Direction(y, x)
    requires enc.Noise? || OnWire(x, enc) || OnWire(y, enc)
    requires Accept(y.conv, round, enc).Some?
    ensures r in x.sent && r.round == round <= y.lastRound
    ensures Accept(y.conv, round, enc) == Some(r.msg.(text := Fit(r.msg.text)))
  {
    if OnWire(y, enc) {
      OwnBoxesStayShut(x, y, round, enc, y.conv.rounds[round].roundKey);
    }
    r :| r in x.sent && r.enc == enc;
    assert RecordOk(x, y, r);
    MarshalRoundTrip(r.msg);
  }

  /** What an acknowledgement removes: a front part of the queue, by exactly as much as it reaches. */
  function Reach(base: int, gone: int, len: nat, ack: int): nat {
    if base == 0 || ack < base + gone then 0
    else if ack - base - gone + 1 > len then len else ack - base - gone + 1
  }

  lemma {:induction false} PruneShape(queue: seq<SeqMsg>, base: u32, gone: int, ack: u32, lastOut: OutIndex)
    requires 0 <= gone && base + gone + |queue| <= TWO_TO_THE_32
    requires forall i :: 0 <= i < |queue| ==> queue[i].relativeSeq == gone + i
    ensures var n := Reach(base, gone, |queue|, ack);
            Prune(queue, base, ack, lastOut) == (queue[n..], if lastOut <= 0 then lastOut else Max(lastOut - n, 0))
    decreases |queue|
  {
    if queue != [] {
      if base > 0 && base + gone <= ack {
        PruneShape(queue[1..], base, gone + 1, ack, if lastOut > 0 then lastOut - 1 else lastOut);
      } else {
        PruneRest(queue, base, gone, ack, lastOut);
        assert queue[0..] == queue;
      }
    }
  }

  lemma {:induction false} PruneRest(queue: seq<SeqMsg>, base: u32, gone: int, ack: u32, lastOut: OutIndex)
    requires 0 <= gone && base + gone + |queue| <= TWO_TO_THE_32
    requires forall i :: 0 <= i < |queue| ==> queue[i].relativeSeq == gone + i
    requires base == 0 || ack < base + gone
    ensures Prune(queue, base, ack, lastOut) == (queue, lastOut)
    decreases |queue|
  {
    if queue != [] {
      PruneRest(queue[1..], base, gone + 1, ack, lastOut);
      assert queue == [queue[0]] + queue[1..];
    }
  }

  /** The texts are those waiting under the numbers that follow ack. */
  ghost predicate Follow(inQueue: map<u32, Bytes>, ack: int, texts: seq<Bytes>) {
    forall k :: 0 <= k < |texts| ==> InQueueAs(inQueue, ack + 1 + k, texts[k])
  }

  predicate InQueueAs(inQueue: map<u32, Bytes>, number: int, text: Bytes) {
    0 <= number < TWO_TO_THE_32 && number in inQueue && inQueue[number] == text
  }

  lemma {:induction false} DrainShape(inQueue: map<u32, Bytes>, ack: u32)
    requires 0 !in inQueue
    ensures var (texts, rest, last) := Drain(inQueue, ack);
            && last == ack + |texts|
            && Follow(inQueue, ack, texts)
            && (forall k :: k in rest ==> k in inQueue && rest[k] == inQueue[k])
    ensures ack + 1 < TWO_TO_THE_32 && ack + 1 in inQueue ==> Drain(inQueue, ack).0 != []
    decreases inQueue.Keys
  {
    var i := Wrap32(ack + 1);
    if i in inQueue {
      assert i == ack + 1;
      DrainShape(inQueue - {i}, i);
      var (tail, rest, last) := Drain(inQueue - {i}, i);
      var texts := [inQueue[i]] + tail;
      forall k | 0 <= k < |texts|
        ensures InQueueAs(inQueue, ack + 1 + k, texts[k])
      {
        if k > 0 {
          assert InQueueAs(inQueue - {i}, i + 1 + (k - 1), tail[k - 1]);
        }
      }
    }
  }

  ghost predicate AckFrom(x: Party, y: Party, ack: u32) {
    (ack > 0 ==> ack in x.seen) && ack <= y.lastRound
  }

  /** The covered part of the queue has been delivered by x. */
  lemma {:induction false} ReachDelivered(x: Party, y: Party, ack: u32)
    requires QueueOk(y) && BookOk(y) && SeenOk(y, x)
    requires AckFrom(x, y, ack)
    ensures var n := Reach(y.conv.seqBase, Gone(y), |y.conv.outQueue|, ack);
            && (n > 0 ==> y.conv.seqBase > 0 && y.conv.seqBase + Gone(y) + n <= ack + 1)
            && (y.conv.seqBase > 0 ==> forall t :: y.conv.seqBase <= t < y.conv.seqBase + Gone(y) + n ==> t in x.seen)
  {
    if Reach(y.conv.seqBase, Gone(y), |y.conv.outQueue|, ack) > 0 {
      assert DeliveredBefore(y, x, ack);
      assert EntryOk(y, ack);
    }
  }

  lemma {:induction false} PrunedQueue(x: Party, y: Party, y': Party, ack: u32)
    requires QueueOk(y) && PaceOk(y) && BookOk(y) && SeenOk(y, x)
    requires AckFrom(x, y, ack)
    requires y'.queued == y.queued && y'.lastRound == y.lastRound && y'.active == y.active
    requires var n := Reach(y.conv.seqBase, Gone(y), |y.conv.outQueue|, ack);
             && y'.conv.outQueue == y.conv.outQueue[n..]
             && y'.conv.lastOut == (if y.conv.lastOut <= 0 then y.conv.lastOut else Max(y.conv.lastOut - n, 0))
             && y'.conv.relativeSeq == y.conv.relativeSeq && y'.conv.seqBase == y.conv.seqBase
    ensures QueueOk(y') && PaceOk(y')
    ensures Gone(y') == Gone(y) + Reach(y.conv.seqBase, Gone(y), |y.conv.outQueue|, ack)
  {
    ReachDelivered(x, y, ack);
  }

  /** y is the sender: an acknowledgement of x removes only texts that x has delivered. */
  lemma {:induction false} TakeAckKeepsSender(x: Party, y: Party, y': Party, ack: u32)
    requires QueueOk(y) && PaceOk(y) && BookOk(y) && SeenOk(y, x)
    requires AckFrom(x, y, ack)
    requires y' == y.(conv := y'.conv, shown := y'.shown, texts := y'.texts, seen := y'.seen)
    requires var t := TakeAck(y.conv, ack);
             y'.conv == y.conv.(outQueue := t.outQueue, lastOut := t.lastOut, inQueue := y'.conv.inQueue,
                                ack := y'.conv.ack, rounds := y'.conv.rounds)
    ensures QueueOk(y') && PaceOk(y') && BookOk(y') && SeenOk(y', x)
  {
    PruneShape(y.conv.outQueue, y.conv.seqBase, Gone(y), ack, y.conv.lastOut);
    PrunedQueue(x, y, y', ack);
    ReachDelivered(x, y, ack);
    SameBook(x, y, y');
  }

  lemma {:induction false} SameBook(x: Party, y: Party, y': Party)
    requires BookOk(y)
    requires y'.book == y.book && y'.conv.seqBase == y.conv.seqBase && y'.queued == y.queued
    requires y'.restarts == y.restarts && y'.lastRound == y.lastRound
    ensures BookOk(y')
    ensures forall s :: s in y.book && DeliveredBefore(y, x, s) ==> DeliveredBefore(y', x, s)
  {
    forall s | s in y'.book
      ensures EntryOk(y', s)
    {
      assert EntryOk(y, s);
    }
  }

  /** Nothing of the run of the number after ack is missing before it. */
  ghost predicate Grounded(x: Party, y: Party, ack: int) {
    ack + 1 in x.book ==> DeliveredBefore(x, y, ack + 1)
  }

  lemma {:induction false} AckGrounded(x: Party, y: Party)
    requires BookOk(x) && SeenOk(x, y) && WaitingOk(x, y)
    ensures Grounded(x, y, y.conv.ack)
  {
    var next := y.conv.ack + 1;
    if next in x.book && y.conv.ack > 0 {
      assert DeliveredBefore(x, y, y.conv.ack);
      assert EntryOk(x, next);
    } else if next in x.book {
      assert EntryOk(x, next);
    }
  }

  /** Delivering a chain from a grounded position on skips nothing of any run. */
  lemma {:induction false} ChainSkipsNothing(x: Party, y: Party, y': Party, from: int, n: nat)
    requires BookOk(x) && SeenOk(x, y)
    requires Grounded(x, y, from)
    requires forall s :: from < s <= from + n ==> s in x.book
    requires y'.seen == y.seen + Elements(UpTo(from + n, n))
    ensures forall s :: s in y'.seen ==> s in x.book && DeliveredBefore(x, y', s)
    ensures y.seen <= y'.seen && forall s :: from < s <= from + n ==> s in y'.seen
  {
    var numbers := UpTo(from + n, n);
    forall s | from < s <= from + n
      ensures s in numbers
    {
      assert numbers[s - from - 1] == s;
    }
    forall s | s in y'.seen
      ensures s in x.book && DeliveredBefore(x, y', s)
    {
      if s in y.seen {
        assert DeliveredBefore(x, y, s);
      } else if x.book[s].base <= from {
        assert x.book[from + 1].base == x.book[s].base;
      }
    }
  }

  /** y' is y after delivering texts under the numbers that follow from. */
  ghost predicate Extended(y: Party, y': Party, from: int, texts: seq<Bytes>) {
    var numbers := UpTo(from + |texts|, |texts|);
    && y'.conv.ack == from + |texts|
    && y' == y.(conv := y'.conv, shown := y.shown + numbers, texts := y.texts + texts,
                seen := y.seen + Elements(numbers))
  }

  /** The texts are those the book has under the numbers that follow from. */
  ghost predicate FromBook(x: Party, from: int, texts: seq<Bytes>) {
    forall s :: from < s <= from + |texts| ==> s in x.book && texts[s - from - 1] == x.book[s].wire
  }

  lemma {:induction false} ExtendedShown(x: Party, y: Party, y': Party, from: int, texts: seq<Bytes>)
    requires ShownOk(x, y) && y.conv.ack <= from
    requires Extended(y, y', from, texts) && FromBook(x, from, texts)
    ensures ShownOk(x, y')
  {
    forall i | 0 <= i < |y'.shown|
      ensures y'.shown[i] in y'.seen && y'.shown[i] in x.book && y'.shown[i] <= y'.conv.ack
      ensures y'.texts[i] == x.book[y'.shown[i]].wire
    {
      if i >= |y.shown| {
        var numbers := UpTo(from + |texts|, |texts|);
        assert y'.shown[i] == numbers[i - |y.shown|] && numbers[i - |y.shown|] in numbers;
        assert y'.texts[i] == texts[i - |y.shown|];
      }
    }
  }

  /** What waits comes from the book, and taking in a text of the book keeps it so. */
  ghost predicate WaitsFromBook(x: Party, waiting: map<u32, Bytes>, bound: int) {
    forall s :: s in waiting ==> s in x.book && waiting[s] == x.book[s].wire && s <= bound
  }

  lemma {:induction false} BookStartsAtOne(x: Party)
    requires BookOk(x)
    ensures forall s :: s in x.book ==> s >= 1
  {
    forall s | s in x.book
      ensures s >= 1
    {
      assert EntryOk(x, s);
    }
  }

  lemma {:induction false} DrainFromBook(x: Party, waiting: map<u32, Bytes>, from: u32, bound: int)
    requires BookOk(x) && WaitsFromBook(x, waiting, bound)
    ensures var (texts, rest, last) := Drain(waiting, from);
            && FromBook(x, from, texts) && last == from + |texts|
            && WaitsFromBook(x, rest, bound)
            && (texts != [] ==> last <= bound)
    ensures from + 1 < TWO_TO_THE_32 && from + 1 in waiting ==> Drain(waiting, from).0 != []
  {
    BookStartsAtOne(x);
    DrainShape(waiting, from);
    hide Drain, BookOk, Follow;
    FollowFromBook(x, waiting, from, Drain(waiting, from).0, bound);
  }

  lemma {:induction false} FollowFromBook(x: Party, waiting: map<u32, Bytes>, from: u32, texts: seq<Bytes>, bound: int)
    requires WaitsFromBook(x, waiting, bound) && Follow(waiting, from, texts)
    ensures FromBook(x, from, texts)
    ensures texts != [] ==> from + |texts| <= bound
  {
    forall s | from < s <= from + |texts|
      ensures s in x.book && texts[s - from - 1] == x.book[s].wire && s <= bound
    {
      assert InQueueAs(waiting, from + 1 + (s - from - 1), texts[s - from - 1]);
    }
    assert texts != [] ==> InQueueAs(waiting, from + 1 + (|texts| - 1), texts[|texts| - 1]);
  }

  lemma {:induction false} ExtendedWaiting(
    x: Party, y: Party, y': Party, from: u32, waiting: map<u32, Bytes>, texts: seq<Bytes>)
    requires BookOk(x) && WaitingOk(x, y)
    requires WaitsFromBook(x, waiting, y.lastRound + 1)
    requires Drain(waiting, from) == (texts, y'.conv.inQueue, y'.conv.ack)
    requires texts == [] ==> from == y.conv.ack
    requires texts != [] ==> from + |texts| in y'.seen
    requires y.seen <= y'.seen && y'.lastRound == y.lastRound && y'.conv.rounds.Keys <= y.conv.rounds.Keys
    ensures WaitingOk(x, y')
  {
    DrainFromBook(x, waiting, from, y.lastRound + 1);
  }

  /** y is the receiver: delivering a chain keeps everything that was promised about deliveries. */
  lemma {:induction false} ExtendedReceiver(
    x: Party, y: Party, y': Party, from: u32, waiting: map<u32, Bytes>, texts: seq<Bytes>)
    requires BookOk(x) && SeenOk(x, y) && WaitingOk(x, y) && ShownOk(x, y)
    requires Grounded(x, y, from) && y.conv.ack <= from
    requires WaitsFromBook(x, waiting, y.lastRound + 1)
    requires Drain(waiting, from) == (texts, y'.conv.inQueue, y'.conv.ack)
    requires texts == [] ==> from == y.conv.ack
    requires FromBook(x, from, texts)
    requires Extended(y, y', from, texts) && y'.conv.rounds.Keys <= y.conv.rounds.Keys
    ensures SeenOk(x, y') && WaitingOk(x, y') && ShownOk(x, y')
    ensures y.seen <= y'.seen
  {
    hide Drain, BookOk, WaitsFromBook;
    ChainSkipsNothing(x, y, y', from, |texts|);
    ExtendedWaiting(x, y, y', from, waiting, texts);
    ExtendedShown(x, y, y', from, texts);
  }

  /** Where deliveries continue from when msg is taken in. */
  function Origin(ack: u32, msg: ConvoMessage): u32 {
    if msg.seqNo > ack && msg.lowest then msg.seqNo - 1 else ack
  }

  lemma {:induction false} OriginGrounded(x: Party, y: Party, msg: ConvoMessage)
    requires BookOk(x) && SeenOk(x, y) && WaitingOk(x, y) && Incoming(x, y, msg)
    ensures Grounded(x, y, Origin(y.conv.ack, msg))
  {
    AckGrounded(x, y);
  }

  lemma {:induction false} TakenInFromBook(x: Party, y: Party, msg: ConvoMessage)
    requires WaitingOk(x, y) && Incoming(x, y, msg) && msg.seqNo > 0
    ensures WaitsFromBook(x, y.conv.inQueue[msg.seqNo := msg.text], y.lastRound + 1)
  {
  }

  ghost predicate Incoming(x: Party, y: Party, msg: ConvoMessage) {
    && (msg.seqNo > 0 ==> msg.seqNo in x.book && msg.text == x.book[msg.seqNo].wire
                          && msg.seqNo <= y.lastRound + 1)
    && (msg.lowest ==> msg.seqNo > 0 && DeliveredBefore(x, y, msg.seqNo))
  }

  lemma {:induction false} NothingDelivered(x: Party, y: Party, y': Party)
    requires SeenOk(x, y) && WaitingOk(x, y) && ShownOk(x, y)
    requires Extended(y, y', y.conv.ack, [])
    requires y'.conv.inQueue == y.conv.inQueue && y'.conv.rounds.Keys <= y.conv.rounds.Keys
    ensures SeenOk(x, y') && WaitingOk(x, y') && ShownOk(x, y')
    ensures y'.seen == y.seen
  {
    assert UpTo(y.conv.ack, 0) == [];
    assert y'.shown == y.shown && y'.texts == y.texts && y'.seen == y.seen;
    forall s | s in y'.seen
      ensures s in x.book && DeliveredBefore(x, y', s)
    {
      assert DeliveredBefore(x, y, s);
    }
  }

  lemma {:induction false} ReceiveKeepsReceiver(
    x: Party, y: Party, y': Party, msg: ConvoMessage, before: Conv, texts: seq<Bytes>)
    requires BookOk(x) && SeenOk(x, y) && WaitingOk(x, y) && ShownOk(x, y) && PaceOk(y)
    requires Incoming(x, y, msg)
    requires before.inQueue == y.conv.inQueue && before.ack == y.conv.ack && before.rounds.Keys <= y.conv.rounds.Keys
    requires (y'.conv, texts) == Receive(before, msg)
    requires Extended(y, y', Origin(y.conv.ack, msg), texts)
    ensures SeenOk(x, y') && WaitingOk(x, y') && ShownOk(x, y')
    ensures y.seen <= y'.seen
  {
    if msg.seqNo > y.conv.ack {
      var waiting := y.conv.inQueue[msg.seqNo := msg.text];
      var from := Origin(y.conv.ack, msg);
      OriginGrounded(x, y, msg);
      TakenInFromBook(x, y, msg);
      DrainFromBook(x, waiting, from, y.lastRound + 1);
      assert Drain(waiting, from) == (texts, y'.conv.inQueue, y'.conv.ack);
      ExtendedReceiver(x, y, y', from, waiting, texts);
    } else {
      NothingDelivered(x, y, y');
    }
  }

  /** What stays as it was when y handles a reply, and what an unaccepted reply leaves alone. */
  ghost predicate Handled(y: Party, y': Party) {
    && y' == y.(conv := y'.conv, shown := y'.shown, texts := y'.texts, seen := y'.seen)
    && y'.conv.me == y.conv.me && y'.conv.peer == y.conv.peer
    && y'.conv.relativeSeq == y.conv.relativeSeq && y'.conv.seqBase == y.conv.seqBase
    && y'.conv.rounds.Keys <= y.conv.rounds.Keys
  }

  lemma {:induction false} IgnoredReply(y: Party, round: u32, enc: Cipher)
    requires Accept(y.conv, round, enc).None?
    ensures var y' := AfterHandle(y, round, enc);
            && Handled(y, y') && Extended(y, y', y.conv.ack, [])
            && y'.conv == y.conv.(rounds := y'.conv.rounds)
  {
    assert UpTo(y.conv.ack, 0) == [];
  }

  lemma {:induction false} AcceptedReply(y: Party, round: u32, enc: Cipher, msg: ConvoMessage)
    requires Accept(y.conv, round, enc) == Some(msg)
    requires 0 !in y.conv.inQueue
    ensures var y' := AfterHandle(y, round, enc);
            var before := TakeAck(y.conv.(rounds := KeepRounds(y.conv.rounds, round)), msg.ack);
            var texts := Receive(before, msg).1;
            && Handled(y, y') && y'.conv == Receive(before, msg).0
            && Extended(y, y', Origin(y.conv.ack, msg), texts)
            && TakeAck(y.conv, msg.ack) == before.(rounds := y.conv.rounds)
  {
    if msg.seqNo > y.conv.ack {
      DrainShape(y.conv.inQueue[msg.seqNo := msg.text], Origin(y.conv.ack, msg));
    }
  }

  /** The peer's view of what y sent and of what y delivered survives y's handling of a reply. */
  lemma {:induction false} HandledFrames(x: Party, y: Party, y': Party)
    requires SentOk(x, y) && SentOk(y, x) && WaitingOk(y, x) && ShownOk(y, x)
    requires Handled(y, y') && y.seen <= y'.seen
    ensures SentOk(x, y') && SentOk(y', x) && WaitingOk(y', x) && ShownOk(y', x)
  {
    forall r | r in x.sent
      ensures RecordOk(x, y', r)
    {
      assert RecordOk(x, y, r);
    }
    forall r | r in y'.sent
      ensures RecordOk(y', x, r)
    {
      assert RecordOk(y, x, r);
    }
  }

  lemma {:induction false} HandleKeeps(x: Party, y: Party, round: u32, enc: Cipher)
    requires Direction(x, y) && Direction(y, x)
    requires enc.Noise? || OnWire(x, enc) || OnWire(y, enc)
    ensures var y' := AfterHandle(y, round, enc); Direction(x, y') && Direction(y', x)
  {
    var y' := AfterHandle(y, round, enc);
    match Accept(y.conv, round, enc) {
      case None =>
        IgnoredReply(y, round, enc);
        NothingDelivered(x, y, y');
        HandledFrames(x, y, y');
        SameBook(x, y, y');
      case Some(msg) =>
        var r := AcceptedRecord(x, y, round, enc);
        AcceptedKeeps(x, y, y', round, enc, msg, r);
    }
  }

  lemma {:induction false} AcceptedKeeps(
    x: Party, y: Party, y': Party, round: u32, enc: Cipher, msg: ConvoMessage, r: Record)
    requires Direction(x, y) && Direction(y, x)
    requires Accept(y.conv, round, enc) == Some(msg) && y' == AfterHandle(y, round, enc)
    requires r in x.sent && r.round == round <= y.lastRound && msg == r.msg.(text := Fit(r.msg.text))
    ensures Direction(x, y') && Direction(y', x)
  {
    assert RecordOk(x, y, r);
    var before := TakeAck(y.conv.(rounds := KeepRounds(y.conv.rounds, round)), msg.ack);
    BookStartsAtOne(x);
    AcceptedReply(y, round, enc, msg);
    assert Incoming(x, y, msg);
    ReceiveKeepsReceiver(x, y, y', msg, before, Receive(before, msg).1);
    TakeAckKeepsSender(x, y, y', msg.ack);
    HandledFrames(x, y, y');
  }

  // ---------------------------------------------------------------- the other actions

  lemma {:induction false} QueueKeeps(x: Party, y: Party, text: Bytes)
    requires Direction(x, y) && Direction(y, x)
    requires var x' := x.(conv := QueueText(x.conv, text), queued := x.queued + [text]); NoWrap(x')
    ensures var x' := x.(conv := QueueText(x.conv, text), queued := x.queued + [text]);
            Direction(x', y) && Direction(y, x')
  {
    var x' := x.(conv := QueueText(x.conv, text), queued := x.queued + [text]);
    LocalKeeps(x, y, x');
  }

  lemma {:induction false} StartKeeps(x: Party, y: Party, key: Bytes, keyRound: u32)
    requires Direction(x, y) && Direction(y, x)
    ensures var x' := x.(conv := Activate(x.conv, key, keyRound), active := true); Direction(x', y) && Direction(y, x')
  {
    LocalKeeps(x, y, x.(conv := Activate(x.conv, key, keyRound), active := true));
  }

  lemma {:induction false} RestartKeeps(x: Party, y: Party)
    requires Direction(x, y) && Direction(y, x)
    ensures var x' := x.(conv := FreshConv(x.conv.me, x.conv.peer), active := false, queued := [], shown := [],
                         texts := [], restarts := x.restarts + 1, past := x.past + [x.shown]);
            Direction(x', y) && Direction(y, x')
  {
    LocalKeeps(x, y, x.(conv := FreshConv(x.conv.me, x.conv.peer), active := false, queued := [], shown := [],
                        texts := [], restarts := x.restarts + 1, past := x.past + [x.shown]));
  }

  /** An action that touches neither the wire nor the deliveries, and at most forgets. */
  lemma {:induction false} LocalKeeps(x: Party, y: Party, x': Party)
    requires Direction(x, y) && Direction(y, x)
    requires x'.lastRound == x.lastRound && x'.book == x.book && x'.sent == x.sent && x'.seen == x.seen
    requires x'.conv.me == x.conv.me && x'.conv.peer == x.conv.peer
    requires QueueOk(x') && PaceOk(x')
    requires || (x'.conv.seqBase == x.conv.seqBase && x.queued <= x'.queued && Gone(x') == Gone(x)
                 && x'.restarts == x.restarts)
             || (x'.conv.seqBase == 0 && x'.restarts > 0)
    requires || (x'.conv.ack == x.conv.ack && x'.shown == x.shown && x'.texts == x.texts && x'.restarts == x.restarts)
             || (x'.conv.ack == 0 && x'.shown == [] && x'.texts == [] && x'.restarts > 0)
    requires x'.conv.inQueue == x.conv.inQueue || x'.conv.inQueue == map[]
    requires x'.conv.rounds.Keys <= x.conv.rounds.Keys
    ensures Direction(x', y) && Direction(y, x')
  {
    forall s | s in x'.book
      ensures EntryOk(x', s)
    {
      assert EntryOk(x, s);
    }
    LocalFrames(x, y, x');
  }

  lemma {:induction false} LocalFrames(x: Party, y: Party, x': Party)
    requires SentOk(x, y) && SentOk(y, x)
    requires x'.lastRound == x.lastRound && x'.book == x.book && x'.sent == x.sent && x'.seen == x.seen
    requires x'.conv.me == x.conv.me && x'.conv.peer == x.conv.peer
    ensures SentOk(x', y) && SentOk(y, x')
    ensures forall s :: s in x.book && DeliveredBefore(x, y, s) ==> DeliveredBefore(x', y, s)
    ensures forall s :: s in y.book && DeliveredBefore(y, x, s) ==> DeliveredBefore(y, x', s)
  {
    forall r | r in x'.sent
      ensures RecordOk(x', y, r)
    {
      assert RecordOk(x, y, r);
    }
    forall r | r in y.sent
      ensures RecordOk(y, x', r)
    {
      assert RecordOk(y, x, r);
    }
  }

  lemma {:induction false} ActionKeeps(h: HashFn, x: Party, y: Party, a: Action)
    requires Direction(x, y) && Direction(y, x)
    requires Allowed(h, x, y, a)
    ensures Direction(After(h, x, a), y) && Direction(y, After(h, x, a))
  {
    hide Direction, Next, Reply;
    match a
    case Queue(text) => QueueKeeps(x, y, text);
    case Start(key, keyRound) => StartKeeps(x, y, key, keyRound);
    case Compose(round, noise) =>
      ComposeKeepsSender(h, x, y, round, noise);
      ComposeKeepsReceiver(h, x, y, round, noise);
    case Handle(round, enc) => HandleKeeps(y, x, round, enc);
    case Restart => RestartKeeps(x, y);
  }

  lemma {:induction false} StepKeepsInv(h: HashFn, s: System, e: Event)
    requires Inv(s) && Enabled(h, s, e)
    ensures Inv(Step(h, s, e))
  {
    if e.byLeft {
      ActionKeeps(h, s.left, s.right, e.action);
    } else {
      ActionKeeps(h, s.right, s.left, e.action);
    }
  }

  lemma {:induction false} LegalKeepsInv(h: HashFn, s: System, events: seq<Event>)
    requires Inv(s) && Legal(h, s, events)
    ensures Inv(Final(h, s, events))
    decreases |events|
  {
    if events != [] {
      var before := events[..|events| - 1];
      LegalKeepsInv(h, s, before);
      StepKeepsInv(h, Final(h, s, before), events[|events| - 1]);
    }
  }

  /** The invariant holds in every reachable state. */
  lemma {:induction false} RunKeepsInv(h: HashFn, a: Name, b: Name, events: seq<Event>, s: System)
    requires a != b
    requires Run(h, a, b, events, s)
    ensures Inv(s)
  {
    LegalKeepsInv(h, Initial(a, b), events);
  }

  // ---------------------------------------------------------------- what the invariant means

  function ShownAll(texts: seq<Bytes>): (shown: seq<Bytes>)
    ensures |shown| == |texts|
    ensures forall i :: 0 <= i < |texts| ==> shown[i] == Shown(texts[i])
  {
    seq(|texts|, i requires 0 <= i < |texts| => Shown(texts[i]))
  }

  /** What y has displayed is a front part of what x has queued, and covers whatever left x's queue. */
  ghost predicate DeliversPrefix(x: Party, y: Party) {
    && |y.texts| <= |x.queued|
    && Display(y.texts) == ShownAll(x.queued[..|y.texts|])
    && 0 <= Gone(x) <= |y.texts|
    && (forall i :: 0 <= i < |x.conv.outQueue| ==> x.conv.outQueue[i].msg == x.queued[Gone(x) + i])
  }

  /** A set of numbers in increasing order that has no gap above base is base, base + 1, ... */
  lemma {:induction false} NoGaps(shown: seq<int>, base: int, k: nat)
    requires forall i, j :: 0 <= i < j < |shown| ==> shown[i] < shown[j]
    requires forall i :: 0 <= i < |shown| ==> base <= shown[i]
    requires forall i, t :: 0 <= i < |shown| && base <= t < shown[i] ==> t in shown
    requires k < |shown|
    ensures shown[k] == base + k
  {
    if k == 0 {
      assert shown[0] > base ==> base in shown;
    } else {
      NoGaps(shown, base, k - 1);
      assert shown[k] > base + k ==> base + k in shown;
    }
  }

  lemma {:induction false} FirstRunNumbers(x: Party, y: Party)
    requires BookOk(x) && SeenOk(x, y) && ShownOk(x, y)
    requires x.restarts == 0 && y.restarts == 0
    ensures forall k :: 0 <= k < |y.shown| ==> y.shown[k] == x.conv.seqBase + k
    ensures forall s :: s in y.seen <==> x.conv.seqBase <= s < x.conv.seqBase + |y.shown|
  {
    var base := x.conv.seqBase;
    forall i | 0 <= i < |y.shown|
      ensures base <= y.shown[i]
      ensures forall t :: base <= t < y.shown[i] ==> t in y.shown
    {
      assert EntryOk(x, y.shown[i]);
      assert DeliveredBefore(x, y, y.shown[i]);
    }
    forall k | 0 <= k < |y.shown|
      ensures y.shown[k] == base + k
    {
      NoGaps(y.shown, base, k);
    }
    forall s | base <= s < base + |y.shown|
      ensures s in y.seen
    {
      assert y.shown[s - base] == s;
    }
  }

  lemma {:induction false} FirstRunText(x: Party, y: Party, k: nat)
    requires BookOk(x) && WiresOk(x) && SeenOk(x, y) && ShownOk(x, y)
    requires x.restarts == 0 && y.restarts == 0
    requires k < |y.texts|
    ensures k < |x.queued| && y.texts[k] == Fit(x.queued[k])
  {
    FirstRunNumbers(x, y);
    assert EntryOk(x, y.shown[k]);
  }

  lemma {:induction false} DirectionDeliversPrefix(x: Party, y: Party)
    requires Direction(x, y)
    requires x.restarts == 0 && y.restarts == 0
    ensures DeliversPrefix(x, y)
  {
    var n := |y.texts|;
    if n > 0 {
      FirstRunText(x, y, n - 1);
    }
    FirstRunNumbers(x, y);
    assert Gone(x) > n ==> x.conv.seqBase + n in y.seen;
    var display, expected := Display(y.texts), ShownAll(x.queued[..n]);
    forall k | 0 <= k < n
      ensures display[k] == expected[k]
    {
      FirstRunText(x, y, k);
    }
  }

  /**
   In-order, exactly-once delivery: over every run without restarts, what each side has displayed is
   a front part of what the other has queued, and a text leaves the queue only after it was displayed.
   */
  lemma {:induction false} InOrderExactlyOnce(h: HashFn, a: Name, b: Name, events: seq<Event>, s: System)
    requires a != b
    requires Run(h, a, b, events, s)
    requires s.left.restarts == 0 && s.right.restarts == 0
    ensures DeliversPrefix(s.left, s.right) && DeliversPrefix(s.right, s.left)
  {
    RunKeepsInv(h, a, b, events, s);
    DirectionDeliversPrefix(s.left, s.right);
    DirectionDeliversPrefix(s.right, s.left);
  }

  /**
   What restarts leave intact. Between two restarts y never displays two texts under one number or out
   of order; each is what x sent under its number; none before it in its run is missing; and whatever
   left x's queue was displayed by y.
   */
  ghost predicate DeliversRuns(x: Party, y: Party) {
    && |y.shown| == |y.texts|
    && Increasing(y.shown)
    && (forall i :: 0 <= i < |y.shown| ==>
          && y.shown[i] in y.seen && y.shown[i] in x.book
          && TrimRight(y.texts[i]) == Shown(x.book[y.shown[i]].text)
          && DeliveredBefore(x, y, y.shown[i]))
    && (forall k :: 0 <= k < Gone(x) ==>
          var s := x.conv.seqBase + k; s in y.seen && s in x.book && x.book[s].text == x.queued[k])
    && PastOk(y)
  }

  ghost predicate Increasing(s: seq<int>) {
    forall i, j :: 0 <= i < j < |s| ==> s[i] < s[j]
  }

  /** In none of its past runs did y display a number twice or out of order. */
  ghost predicate PastOk(y: Party) {
    && |y.past| == y.restarts
    && forall k :: 0 <= k < |y.past| ==>
         Increasing(y.past[k]) && forall i :: 0 <= i < |y.past[k]| ==> y.past[k][i] in y.seen
  }

  lemma {:induction false} ActionKeepsPast(h: HashFn, y: Party, a: Action)
    requires PastOk(y) && Increasing(y.shown) && forall i :: 0 <= i < |y.shown| ==> y.shown[i] in y.seen
    ensures PastOk(After(h, y, a))
  {
    var y' := After(h, y, a);
    if a.Restart? {
      assert y'.past == y.past + [y.shown] && y'.seen == y.seen;
    } else {
      SeenGrows(h, y, a);
    }
  }

  lemma {:induction false} SeenGrows(h: HashFn, y: Party, a: Action)
    requires !a.Restart?
    ensures var y' := After(h, y, a); y'.past == y.past && y'.restarts == y.restarts && y.seen <= y'.seen
  {
    hide Reply, PickText, Next;
  }

  lemma {:induction false} LegalKeepsPast(h: HashFn, s: System, events: seq<Event>)
    requires Inv(s) && PastOk(s.left) && PastOk(s.right) && Legal(h, s, events)
    ensures PastOk(Final(h, s, events).left) && PastOk(Final(h, s, events).right)
    decreases |events|
  {
    if events != [] {
      var before, e := events[..|events| - 1], events[|events| - 1];
      var t := Final(h, s, before);
      LegalKeepsPast(h, s, before);
      LegalKeepsInv(h, s, before);
      ShownIncreases(t.left, t.right);
      ShownIncreases(t.right, t.left);
      hide Inv, PastOk, After, Increasing;
      if e.byLeft {
        ActionKeepsPast(h, t.left, e.action);
      } else {
        ActionKeepsPast(h, t.right, e.action);
      }
    }
  }

  lemma {:induction false} ShownIncreases(x: Party, y: Party)
    requires Direction(x, y)
    ensures Increasing(y.shown) && forall i :: 0 <= i < |y.shown| ==> y.shown[i] in y.seen
  {
  }

  lemma {:induction false} DirectionDeliversRuns(x: Party, y: Party)
    requires Direction(x, y) && PastOk(y)
    ensures DeliversRuns(x, y)
  {
    ShownIncreases(x, y);
    hide PastOk;
    forall i | 0 <= i < |y.shown|
      ensures DeliveredBefore(x, y, y.shown[i])
    {
      assert y.shown[i] in y.seen;
    }
    forall k | 0 <= k < Gone(x)
      ensures var s := x.conv.seqBase + k; s in y.seen && s in x.book && x.book[s].text == x.queued[k]
    {
      assert x.conv.seqBase + k in y.seen;
      assert EntryOk(x, x.conv.seqBase + k);
    }
  }

  /**
   Over every run with any restarts of either side: within one run of the receiver no number is
   displayed twice or out of order, nothing is skipped or made up, and nothing leaves a queue undelivered.
   */
  lemma {:induction false} SafeAcrossRestarts(h: HashFn, a: Name, b: Name, events: seq<Event>, s: System)
    requires a != b
    requires Run(h, a, b, events, s)
    ensures DeliversRuns(s.left, s.right) && DeliversRuns(s.right, s.left)
  {
    RunKeepsInv(h, a, b, events, s);
    LegalKeepsPast(h, Initial(a, b), events);
    hide DeliversRuns, Direction, PastOk;
    DirectionDeliversRuns(s.left, s.right);
    DirectionDeliversRuns(s.right, s.left);
  }

  /** The numbers of a party: bounded by their rounds, never reused for another text, below every later base. */
  ghost predicate NumbersUnique(x: Party) {
    && (forall r :: r in x.sent ==> r.msg.seqNo <= r.round + 1 && r.round <= x.lastRound)
    && (forall r, q :: r in x.sent && q in x.sent && r.msg.seqNo == q.msg.seqNo > 0 ==>
          Fit(r.msg.text) == Fit(q.msg.text))
    && (forall r :: r in x.sent ==> r.msg.seqNo <= x.lastRound + 1)
  }

  lemma {:induction false} DirectionNumbersUnique(x: Party, y: Party)
    requires Direction(x, y)
    ensures NumbersUnique(x)
  {
    forall r | r in x.sent
      ensures r.msg.seqNo <= r.round + 1 && r.round <= x.lastRound
      ensures r.msg.seqNo > 0 ==> r.msg.seqNo in x.book && x.book[r.msg.seqNo].wire == Fit(r.msg.text)
    {
      assert RecordOk(x, y, r);
    }
  }

  /** A sequence number stands for one text over the whole life of a client, however often it restarts. */
  lemma {:induction false} SequenceNumbersNeverRepeat(h: HashFn, a: Name, b: Name, events: seq<Event>, s: System)
    requires a != b
    requires Run(h, a, b, events, s)
    ensures NumbersUnique(s.left) && NumbersUnique(s.right)
  {
    RunKeepsInv(h, a, b, events, s);
    DirectionNumbersUnique(s.left, s.right);
    DirectionNumbersUnique(s.right, s.left);
  }

  /**
   The bound on numbers needs the reset of lastOut in activateConvo: the first number a run sends
   stays within round + 1 exactly when lastOut is -1 or there is just one text to send.
   */
  lemma {:induction false} FirstNumberWithinRound(c: Conv, round: u32)
    requires c.outQueue != [] && c.seqBase == 0 && c.lastOut <= 0
    requires forall i :: 0 <= i < |c.outQueue| ==> c.outQueue[i].relativeSeq == i
    requires round + 1 + |c.outQueue| < TWO_TO_THE_32
    ensures PickText(c, round).1.seqNo <= round + 1 <==> c.lastOut == -1 || |c.outQueue| == 1
  {
    if c.lastOut == 0 && |c.outQueue| > 1 {
      assert PickText(c, round).1.seqNo == 1 + (round + 1);
    }
  }
}
