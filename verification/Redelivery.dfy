/** What a restart of the receiver costs: exactly which texts it may display again. */
module Redelivery {
  import opened Common
  import opened ConvoWire
  import opened Ratchet
  import opened Conversations
  import opened Delivery
  import opened BoundedDelivery

  /** The two roles of a direction; left says which side sends. */
  ghost function Sender(s: System, left: bool): Party {
    if left then s.left else s.right
  }

  ghost function Receiver(s: System, left: bool): Party {
    if left then s.right else s.left
  }

  /** The head of x's queue was delivered by y, and x does not know. */
  ghost predicate Unconfirmed(x: Party, y: Party) {
    x.conv.outQueue != [] && x.conv.seqBase > 0 && x.conv.seqBase + Gone(x) in y.seen
  }

  /** A message of x for a round that y has yet to take part in. */
  ghost predicate InFlight(x: Party, y: Party, r: Record) {
    r in x.sent && r.round > y.lastRound
  }

  /** Something that y delivered may still reach it marked as the lowest that x has. */
  ghost predicate MayComeAgain(x: Party, y: Party) {
    Unconfirmed(x, y) || exists r :: InFlight(x, y, r) && r.msg.lowest && r.msg.seqNo in y.seen
  }

  /** In every way on, once the receiver has restarted, it shows nothing that it delivered before. */
  ghost predicate NeverAgain(h: HashFn, s: System, left: bool) {
    forall events, t :: Leads(h, s, events, t) && Receiver(t, left).restarts > Receiver(s, left).restarts ==>
      NoneOf(Receiver(s, left).seen, Receiver(t, left).shown)
  }

  ghost predicate NoneOf(numbers: set<int>, shown: seq<int>) {
    forall i :: 0 <= i < |shown| ==> shown[i] !in numbers
  }

  // ---------------------------------------------------------------- never again

  /** x will not send these numbers any more. */
  ghost predicate Behind(x: Party, numbers: set<int>) {
    forall m :: m in numbers ==>
      && 1 <= m <= x.lastRound + 1
      && (x.conv.seqBase > 0 ==> m < x.conv.seqBase + Gone(x))
  }

  /** Of these numbers only such are in flight as follow another and are not marked lowest. */
  ghost predicate FollowersOnly(x: Party, numbers: set<int>, top: int) {
    forall r :: r in x.sent && r.round > top && r.msg.seqNo in numbers ==>
      !r.msg.lowest && r.msg.seqNo - 1 in numbers
  }

  /** Since its n-th restart y has shown none of these numbers, and none that waits can be next. */
  ghost predicate Clean(y: Party, numbers: set<int>, top: int, n: nat) {
    && y.lastRound >= top
    && (y.restarts > n ==>
          && (forall r :: r in y.conv.rounds ==> r > top)
          && NoGapFilled(numbers, y.conv.inQueue)
          && NoneOf(numbers, y.shown)
          && (y.conv.ack > 0 ==> y.conv.ack in y.shown))
  }

  ghost predicate NoGapFilled(numbers: set<int>, inQueue: map<u32, Bytes>) {
    forall k :: k in inQueue && k in numbers ==> k - 1 in numbers
  }

  ghost predicate Never(x: Party, y: Party, numbers: set<int>, top: int, n: nat) {
    Behind(x, numbers) && FollowersOnly(x, numbers, top) && Clean(y, numbers, top, n)
  }

  lemma {:induction false} ComposeKeepsBehind(
    h: HashFn, x: Party, round: u32, noise: nat, numbers: set<int>, top: int)
    requires QueueOk(x) && PaceOk(x) && MayCompose(x, round)
    requires Behind(x, numbers) && FollowersOnly(x, numbers, top)
    ensures var x' := AfterCompose(h, x, round, noise); Behind(x', numbers) && FollowersOnly(x', numbers, top)
  {
    PickPlace(x, round);
    ComposeShape(h, x, round, noise);
    var (c, msg) := PickText(x.conv, round);
    var x' := AfterCompose(h, x, round, noise);
    hide AfterCompose, PickText;
    assert Picked(x, round, c, msg) && Composed(x, x', round, c, msg);
    assert msg.seqNo !in numbers;
  }

  lemma {:induction false} HandleKeepsBehind(h: HashFn, x: Party, y: Party, a: Action, numbers: set<int>, top: int)
    requires Direction(x, y) && Direction(y, x) && a.Handle? && Allowed(h, x, y, a)
    requires Behind(x, numbers) && FollowersOnly(x, numbers, top)
    ensures Behind(After(h, x, a), numbers) && FollowersOnly(After(h, x, a), numbers, top)
  {
    var x' := AfterHandle(x, a.round, a.enc);
    match Accept(x.conv, a.round, a.enc) {
      case None =>
        IgnoredReply(x, a.round, a.enc);
      case Some(msg) =>
        BookStartsAtOne(y);
        AcceptedPrunes(x, a.round, a.enc, msg);
        AcceptedReply(x, a.round, a.enc, msg);
    }
  }

  /** What the sender does brings none of the numbers back. */
  lemma {:induction false} SenderKeepsNever(
    h: HashFn, x: Party, y: Party, a: Action, numbers: set<int>, top: int)
    requires Direction(x, y) && Direction(y, x) && Allowed(h, x, y, a)
    requires Behind(x, numbers) && FollowersOnly(x, numbers, top)
    ensures Behind(After(h, x, a), numbers) && FollowersOnly(After(h, x, a), numbers, top)
  {
    match a {
      case Compose(round, noise) =>
        ComposeShape(h, x, round, noise);
        MayComposeAllowed(h, x, y, round, noise);
        ComposeKeepsBehind(h, x, round, noise, numbers, top);
      case Handle(_, _) => HandleKeepsBehind(h, x, y, a, numbers, top);
      case _ =>
    }
  }

  lemma {:induction false} MayComposeAllowed(h: HashFn, x: Party, y: Party, round: u32, noise: nat)
    requires QueueOk(x) && Allowed(h, x, y, Compose(round, noise))
    ensures MayCompose(x, round)
  {
    ComposeShape(h, x, round, noise);
  }

  /** A delivered chain that starts outside the numbers stays outside: each of them follows one of them. */
  lemma {:induction false} ChainAvoids(
    numbers: set<int>, waiting: map<u32, Bytes>, from: int, texts: seq<Bytes>, n: nat)
    requires Follow(waiting, from, texts) && from + 1 !in numbers && n <= |texts|
    requires NoGapFilled(numbers, waiting)
    ensures forall k :: from < k <= from + n ==> k !in numbers
  {
    if n > 1 {
      ChainAvoids(numbers, waiting, from, texts, n - 1);
      assert InQueueAs(waiting, from + 1 + (n - 1), texts[n - 1]);
      assert from + n in numbers ==> from + n - 1 in numbers;
    }
  }

  /** What a message may be that reaches a receiver which has shown none of the numbers. */
  ghost predicate Harmless(numbers: set<int>, msg: ConvoMessage) {
    msg.seqNo in numbers ==> !msg.lowest && msg.seqNo - 1 in numbers
  }

  lemma {:induction false} ReceiveAvoids(c: Conv, msg: ConvoMessage, numbers: set<int>)
    requires 0 !in c.inQueue && 0 !in numbers && c.ack !in numbers
    requires NoGapFilled(numbers, c.inQueue) && Harmless(numbers, msg)
    ensures var (after, texts) := Receive(c, msg);
            var from := Origin(c.ack, msg);
            && NoGapFilled(numbers, after.inQueue)
            && (forall k :: from < k <= from + |texts| ==> k !in numbers)
  {
    if msg.seqNo > c.ack {
      var waiting := c.inQueue[msg.seqNo := msg.text];
      var from := Origin(c.ack, msg);
      DrainShape(waiting, from);
      var texts := Drain(waiting, from).0;
      hide Drain;
      assert NoGapFilled(numbers, waiting);
      if texts != [] {
        assert InQueueAs(waiting, from + 1 + 0, texts[0]);
        ChainAvoids(numbers, waiting, from, texts, |texts|);
      }
    }
  }

  lemma {:induction false} ReceiveKeepsClean(
    y: Party, y': Party, c: Conv, msg: ConvoMessage, numbers: set<int>, top: int, n: nat)
    requires Clean(y, numbers, top, n) && y.restarts > n
    requires 0 !in c.inQueue && 0 !in numbers && Harmless(numbers, msg)
    requires c.inQueue == y.conv.inQueue && c.ack == y.conv.ack
    requires y'.conv == Receive(c, msg).0 && y'.conv.rounds.Keys <= y.conv.rounds.Keys
    requires Extended(y, y', Origin(y.conv.ack, msg), Receive(c, msg).1)
    ensures Clean(y', numbers, top, n)
  {
    assert c.ack !in numbers;
    ReceiveAvoids(c, msg, numbers);
    var (after, texts) := Receive(c, msg);
    var from := Origin(y.conv.ack, msg);
    var shown := UpTo(from + |texts|, |texts|);
    NothingReceived(c, msg);
    hide Receive;
    assert y'.shown == y.shown + shown;
    forall i | 0 <= i < |y'.shown|
      ensures y'.shown[i] !in numbers
    {
      assert i >= |y.shown| ==> y'.shown[i] == shown[i - |y.shown|];
    }
    if texts != [] {
      assert shown[|texts| - 1] == y'.conv.ack && y'.shown[|y.shown| + |texts| - 1] == y'.conv.ack;
    }
  }

  lemma {:induction false} NothingReceived(c: Conv, msg: ConvoMessage)
    requires 0 !in c.inQueue
    ensures Receive(c, msg).1 == [] ==> Receive(c, msg).0.ack == c.ack && Origin(c.ack, msg) == c.ack
  {
    if msg.seqNo > c.ack {
      DrainShape(c.inQueue[msg.seqNo := msg.text], Origin(c.ack, msg));
    }
  }

  /** A message that a restarted receiver accepts was sent in a round after top. */
  lemma {:induction false} AcceptedHarmless(
    x: Party, y: Party, round: u32, enc: Cipher, numbers: set<int>, top: int, n: nat) returns (msg: ConvoMessage)
    requires Direction(x, y) && Direction(y, x)
    requires enc.Noise? || OnWire(x, enc) || OnWire(y, enc)
    requires Accept(y.conv, round, enc).Some? && y.restarts > n
    requires FollowersOnly(x, numbers, top) && Clean(y, numbers, top, n)
    ensures Accept(y.conv, round, enc) == Some(msg) && Harmless(numbers, msg)
  {
    var r := AcceptedRecord(x, y, round, enc);
    msg := r.msg.(text := Fit(r.msg.text));
    assert round in y.conv.rounds;
  }

  lemma {:induction false} HandleKeepsClean(
    x: Party, y: Party, round: u32, enc: Cipher, numbers: set<int>, top: int, n: nat)
    requires Direction(x, y) && Direction(y, x)
    requires enc.Noise? || OnWire(x, enc) || OnWire(y, enc)
    requires FollowersOnly(x, numbers, top) && Clean(y, numbers, top, n) && 0 !in numbers
    ensures Clean(AfterHandle(y, round, enc), numbers, top, n)
  {
    var y' := AfterHandle(y, round, enc);
    BookStartsAtOne(x);
    if Accept(y.conv, round, enc).None? {
      IgnoredReply(y, round, enc);
      assert UpTo(y.conv.ack, 0) == [];
    } else if y.restarts <= n {
      AcceptedReply(y, round, enc, Accept(y.conv, round, enc).value);
    } else {
      var msg := AcceptedHarmless(x, y, round, enc, numbers, top, n);
      AcceptedReply(y, round, enc, msg);
      var before := TakeAck(y.conv.(rounds := KeepRounds(y.conv.rounds, round)), msg.ack);
      assert before.inQueue == y.conv.inQueue && before.ack == y.conv.ack;
      hide AfterHandle, Receive, TakeAck, Accept;
      ReceiveKeepsClean(y, y', before, msg, numbers, top, n);
    }
  }

  /** What the receiver does shows none of the numbers. */
  lemma {:induction false} ReceiverKeepsClean(
    h: HashFn, x: Party, y: Party, a: Action, numbers: set<int>, top: int, n: nat)
    requires Direction(x, y) && Direction(y, x) && Allowed(h, y, x, a)
    requires FollowersOnly(x, numbers, top) && Clean(y, numbers, top, n) && 0 !in numbers
    ensures Clean(After(h, y, a), numbers, top, n)
  {
    match a {
      case Compose(round, noise) =>
        ComposeShape(h, y, round, noise);
        hide AfterCompose;
      case Handle(round, enc) =>
        HandleKeepsClean(x, y, round, enc, numbers, top, n);
        hide AfterHandle;
      case _ =>
    }
  }

  lemma {:induction false} StepKeepsNever(
    h: HashFn, s: System, e: Event, left: bool, numbers: set<int>, top: int, n: nat)
    requires Inv(s) && Enabled(h, s, e) && Never(Sender(s, left), Receiver(s, left), numbers, top, n)
    ensures var t := Step(h, s, e); Never(Sender(t, left), Receiver(t, left), numbers, top, n)
  {
    hide After, Direction, Behind, FollowersOnly, Clean;
    var x, y := Sender(s, left), Receiver(s, left);
    BehindStartsAtOne(x, numbers);
    if e.byLeft == left {
      SenderKeepsNever(h, x, y, e.action, numbers, top);
    } else {
      ReceiverKeepsClean(h, x, y, e.action, numbers, top, n);
    }
  }

  lemma {:induction false} BehindStartsAtOne(x: Party, numbers: set<int>)
    requires Behind(x, numbers)
    ensures 0 !in numbers
  {
  }

  lemma {:induction false} LeadsKeepsNever(
    h: HashFn, s: System, events: seq<Event>, t: System, left: bool, numbers: set<int>, top: int, n: nat)
    requires Inv(s) && Leads(h, s, events, t) && Never(Sender(s, left), Receiver(s, left), numbers, top, n)
    ensures Never(Sender(t, left), Receiver(t, left), numbers, top, n)
    decreases |events|
  {
    hide Inv, Step, Enabled, Never, Sender, Receiver;
    if events != [] {
      StepKeepsInv(h, s, events[0]);
      StepKeepsNever(h, s, events[0], left, numbers, top, n);
      LeadsKeepsNever(h, Step(h, s, events[0]), events[1..], t, left, numbers, top, n);
    }
  }

  // ---------------------------------------------------------------- what is not marked lowest follows another

  /** A text that is not marked lowest was sent behind another of its run. */
  ghost predicate LowestOk(x: Party) {
    forall r :: r in x.sent && r.msg.seqNo > 0 && !r.msg.lowest ==>
      r.msg.seqNo in x.book && x.book[r.msg.seqNo].base < r.msg.seqNo
  }

  lemma {:induction false} ComposeKeepsLowest(h: HashFn, x: Party, round: u32, noise: nat)
    requires QueueOk(x) && PaceOk(x) && BookOk(x) && WiresOk(x) && MayCompose(x, round) && LowestOk(x)
    ensures LowestOk(AfterCompose(h, x, round, noise))
  {
    PickPlace(x, round);
    ComposeShape(h, x, round, noise);
    var (c, msg) := PickText(x.conv, round);
    assert x.conv.outQueue != [] && !msg.lowest ==> c.lastOut > 0;
    var x' := AfterCompose(h, x, round, noise);
    hide AfterCompose, PickText;
    ComposedBookExtends(x, x', round, c, msg);
    hide BookOk, WiresOk;
    forall r | r in x'.sent && r.msg.seqNo > 0 && !r.msg.lowest
      ensures r.msg.seqNo in x'.book && x'.book[r.msg.seqNo].base < r.msg.seqNo
    {
    }
  }

  lemma {:induction false} ActionKeepsLowest(h: HashFn, x: Party, y: Party, a: Action)
    requires Direction(x, y) && Direction(y, x) && Allowed(h, x, y, a) && LowestOk(x)
    ensures LowestOk(After(h, x, a))
  {
    match a {
      case Compose(round, noise) =>
        MayComposeAllowed(h, x, y, round, noise);
        ComposeKeepsLowest(h, x, round, noise);
        hide AfterCompose;
      case _ =>
        hide Reply;
    }
  }

  lemma {:induction false} LegalKeepsLowest(h: HashFn, s: System, events: seq<Event>)
    requires Inv(s) && LowestOk(s.left) && LowestOk(s.right) && Legal(h, s, events)
    ensures LowestOk(Final(h, s, events).left) && LowestOk(Final(h, s, events).right)
    decreases |events|
  {
    if events != [] {
      var before, e := events[..|events| - 1], events[|events| - 1];
      var t := Final(h, s, before);
      LegalKeepsLowest(h, s, before);
      LegalKeepsInv(h, s, before);
      hide After, LowestOk, Direction;
      if e.byLeft {
        ActionKeepsLowest(h, t.left, t.right, e.action);
      } else {
        ActionKeepsLowest(h, t.right, t.left, e.action);
      }
    }
  }

  lemma {:induction false} RunKeepsLowest(h: HashFn, a: Name, b: Name, events: seq<Event>, s: System)
    requires a != b && Run(h, a, b, events, s)
    ensures LowestOk(s.left) && LowestOk(s.right)
  {
    InitialInv(a, b);
    LegalKeepsLowest(h, Initial(a, b), events);
  }

  lemma {:induction false} InitialInv(a: Name, b: Name)
    requires a != b
    ensures Inv(Initial(a, b))
  {
  }

  /** What y delivered is behind x, unless the head of x's queue is part of it. */
  lemma {:induction false} DeliveredIsBehind(x: Party, y: Party)
    requires Direction(x, y) && !Unconfirmed(x, y)
    ensures Behind(x, y.seen)
  {
    forall m | m in y.seen
      ensures 1 <= m <= x.lastRound + 1
      ensures x.conv.seqBase > 0 ==> m < x.conv.seqBase + Gone(x)
    {
      assert EntryOk(x, m);
      assert DeliveredBefore(x, y, m);
      var head := x.conv.seqBase + Gone(x);
      assert x.conv.seqBase > 0 && m >= head ==> m == head || head in y.seen;
    }
  }

  lemma {:induction false} FollowersInFlight(x: Party, y: Party)
    requires Direction(x, y) && LowestOk(x) && !MayComeAgain(x, y)
    ensures FollowersOnly(x, y.seen, y.lastRound)
  {
    forall r | r in x.sent && r.round > y.lastRound && r.msg.seqNo in y.seen
      ensures !r.msg.lowest && r.msg.seqNo - 1 in y.seen
    {
      assert InFlight(x, y, r);
      assert DeliveredBefore(x, y, r.msg.seqNo);
      assert EntryOk(x, r.msg.seqNo);
    }
  }

  lemma {:induction false} NeverHolds(h: HashFn, s: System, left: bool)
    requires Inv(s) && LowestOk(Sender(s, left)) && !MayComeAgain(Sender(s, left), Receiver(s, left))
    ensures NeverAgain(h, s, left)
  {
    var x, y := Sender(s, left), Receiver(s, left);
    DeliveredIsBehind(x, y);
    FollowersInFlight(x, y);
    assert Never(x, y, y.seen, y.lastRound, y.restarts);
    hide MayComeAgain, Inv, Behind, FollowersOnly;
    forall events, t | Leads(h, s, events, t) && Receiver(t, left).restarts > Receiver(s, left).restarts
      ensures NoneOf(y.seen, Receiver(t, left).shown)
    {
      LeadsKeepsNever(h, s, events, t, left, y.seen, y.lastRound, y.restarts);
    }
  }

  // ---------------------------------------------------------------- again

  lemma {:induction false} LeadsBack(h: HashFn, s: System, e: Event, events: seq<Event>, t: System)
    requires Enabled(h, s, e) && Leads(h, Step(h, s, e), events, t)
    ensures Leads(h, s, [e] + events, t)
  {
    hide Step, Enabled;
    assert ([e] + events)[1..] == events;
  }

  lemma {:induction false} LeadsCompose(h: HashFn, s: System, a: seq<Event>, t: System, b: seq<Event>, u: System)
    requires Leads(h, s, a, t) && Leads(h, t, b, u)
    ensures Leads(h, s, a + b, u)
    decreases |a|
  {
    hide Step, Enabled;
    if a == [] {
      assert a + b == b;
    } else {
      LeadsCompose(h, Step(h, s, a[0]), a[1..], t, b, u);
      assert (a + b)[1..] == a[1..] + b;
    }
  }

  lemma {:induction false} DrainOne(number: u32, text: Bytes)
    requires number > 0
    ensures Drain(map[number := text], number - 1) == ([text], map[], number)
  {
    var waiting: map<u32, Bytes> := map[number := text];
    var rest := waiting - {number};
    assert rest == map[];
    assert Wrap32(number) == number;
    assert Wrap32(number + 1) !in rest;
    assert Drain(rest, number) == ([], rest, number);
    assert [text] + [] == [text];
  }

  lemma {:induction false} NothingToTake(c: Conv, ack: u32)
    requires c.outQueue == []
    ensures TakeAck(c, ack) == c
  {
  }

  /** A receiver that has delivered nothing delivers a text marked lowest. */
  lemma {:induction false} ReceivesLowest(c: Conv, msg: ConvoMessage)
    requires c.ack == 0 && c.inQueue == map[] && c.outQueue == [] && msg.lowest && msg.seqNo > 0
    ensures Receive(TakeAck(c, msg.ack), msg) == (c.(ack := msg.seqNo), [msg.text])
  {
    NothingToTake(c, msg.ack);
    DrainOne(msg.seqNo, msg.text);
    hide Drain, TakeAck;
    assert c.inQueue[msg.seqNo := msg.text] == map[msg.seqNo := msg.text];
  }

  lemma {:induction false} AcceptsLowest(c: Conv, round: u32, k: Bytes, msg: ConvoMessage)
    requires c.me != c.peer && round in c.rounds && c.rounds[round].roundKey == k
    requires c.rounds[round].sentMessage.SecretBox? && c.rounds[round].sentMessage.recipient == c.peer
    ensures Accept(c, round, SecretBox(k, round, c.me, Marshal(msg))) == Some(msg.(text := Fit(msg.text)))
  {
    MarshalRoundTrip(msg);
    hide Marshal, Unmarshal, Fit;
  }

  /** A side that just started waits for the answer to a round. */
  ghost predicate Listening(y: Party, round: u32, k: Bytes) {
    && y.conv.me != y.conv.peer && y.conv.ack == 0 && y.conv.inQueue == map[] && y.conv.outQueue == []
    && y.shown == [] && y.texts == []
    && round in y.conv.rounds && y.conv.rounds[round].roundKey == k
    && y.conv.rounds[round].sentMessage.SecretBox? && y.conv.rounds[round].sentMessage.recipient == y.conv.peer
  }

  lemma {:induction false} DeliversLowest(y: Party, round: u32, k: Bytes, msg: ConvoMessage)
    requires Listening(y, round, k) && msg.lowest && msg.seqNo > 0
    ensures var y' := AfterHandle(y, round, SecretBox(k, round, y.conv.me, Marshal(msg)));
            && y'.shown == [msg.seqNo] && y'.texts == [Fit(msg.text)]
            && y'.past == y.past && y'.restarts == y.restarts
  {
    AcceptsLowest(y.conv, round, k, msg);
    ReceivesLowest(y.conv.(rounds := KeepRounds(y.conv.rounds, round)), msg.(text := Fit(msg.text)));
    hide Marshal, Fit, KeepRounds, Accept, Receive, TakeAck;
  }

  /** A side that restarts can take part in any later round, under any key. */
  lemma {:induction false} RestartedListens(h: HashFn, y: Party, round: u32, k: Bytes)
    requires y.conv.me != y.conv.peer
    ensures var y1 := After(h, After(h, y, Restart), Start(k, round));
            var y2 := After(h, y1, Compose(round, 0));
            && y1.active && y1.lastRound == y.lastRound && QueueOk(y1) && NoWrap(y2)
            && Listening(y2, round, k) && y2.conv.me == y.conv.me
            && y2.past == y.past + [y.shown] && y2.restarts == y.restarts + 1
  {
    hide Marshal;
    assert Roll(h, k, round, round) == k;
  }

  lemma {:induction false} FlightBox(x: Party, y: Party, r: Record)
    requires Direction(x, y) && r in x.sent
    ensures r.enc.SecretBox? && r.enc == SecretBox(r.enc.key, r.round, y.conv.me, Marshal(r.msg)) && OnWire(x, r.enc)
    ensures r.round + 1 < TWO_TO_THE_32 && (r.msg.lowest ==> r.msg.seqNo > 0)
    ensures y.conv.me != y.conv.peer
  {
    assert RecordOk(x, y, r);
    hide Marshal;
  }

  lemma {:induction false} ReceiverRestarts(h: HashFn, s: System, left: bool, round: u32, k: Bytes)
    returns (events: seq<Event>, t: System)
    requires Receiver(s, left).conv.me != Receiver(s, left).conv.peer
    requires Receiver(s, left).lastRound < round && round + 1 < TWO_TO_THE_32
    ensures Leads(h, s, events, t) && Sender(t, left) == Sender(s, left)
    ensures Listening(Receiver(t, left), round, k) && Receiver(t, left).conv.me == Receiver(s, left).conv.me
    ensures Receiver(t, left).past == Receiver(s, left).past + [Receiver(s, left).shown]
    ensures Receiver(t, left).restarts == Receiver(s, left).restarts + 1
  {
    RestartedListens(h, Receiver(s, left), round, k);
    hide AfterHandle, AfterCompose, Listening, QueueOk, NoWrap;
    var e1, e2, e3 := Event(!left, Restart), Event(!left, Start(k, round)), Event(!left, Compose(round, 0));
    var s1 := Step(h, s, e1);
    var s2 := Step(h, s1, e2);
    t := Step(h, s2, e3);
    assert Enabled(h, s, e1) && Enabled(h, s1, e2) && Enabled(h, s2, e3);
    hide Step, Enabled;
    assert Leads(h, t, [], t);
    LeadsBack(h, s2, e3, [], t);
    LeadsBack(h, s1, e2, [e3] + [], t);
    LeadsBack(h, s, e1, [e2] + ([e3] + []), t);
    events := [e1] + ([e2] + ([e3] + []));
  }

  /** The receiver restarts and gets, as its first answer, a message in flight. */
  lemma {:induction false} FlightShown(h: HashFn, s: System, left: bool, r: Record)
    returns (events: seq<Event>, t: System)
    requires Inv(s) && InFlight(Sender(s, left), Receiver(s, left), r) && r.msg.lowest
    ensures Leads(h, s, events, t) && Receiver(t, left).shown == [r.msg.seqNo]
    ensures Receiver(t, left).texts == [Fit(r.msg.text)]
    ensures Receiver(t, left).restarts == Receiver(s, left).restarts + 1
    ensures Receiver(t, left).past == Receiver(s, left).past + [Receiver(s, left).shown]
  {
    var x, y := Sender(s, left), Receiver(s, left);
    FlightBox(x, y, r);
    hide AfterHandle, Direction, Marshal, Fit, Inv, Listening;
    var first, mid := ReceiverRestarts(h, s, left, r.round, r.enc.key);
    DeliversLowest(Receiver(mid, left), r.round, r.enc.key, r.msg);
    var e := Event(!left, Handle(r.round, r.enc));
    t := Step(h, mid, e);
    assert Enabled(h, mid, e);
    assert Leads(h, t, [], t);
    LeadsBack(h, mid, e, [], t);
    LeadsCompose(h, s, first, mid, [e] + [], t);
    events := first + ([e] + []);
  }

  /** A side that is activated anew sends the head of its queue, marked lowest. */
  lemma {:induction false} HeadSent(h: HashFn, x: Party, y: Party, round: u32, k: Bytes) returns (r: Record)
    requires Direction(x, y) && x.conv.outQueue != [] && x.conv.seqBase > 0
    requires x.lastRound < round && round + 1 < TWO_TO_THE_32
    ensures var x1 := After(h, x, Start(k, round));
            var x2 := After(h, x1, Compose(round, 0));
            && Allowed(h, x1, y, Compose(round, 0))
            && r in x2.sent && r.round == round && r.msg.lowest
            && r.msg.seqNo == x.conv.seqBase + Gone(x) && r.msg.text == x.queued[Gone(x)]
  {
    hide Marshal;
    var x1 := After(h, x, Start(k, round));
    assert Roll(h, k, round, round) == k;
    var msg := PickText(x1.conv, round).1;
    var box := SecretBox(k, round, x.conv.peer, Marshal(msg));
    r := Record(round, msg, box);
    assert x.conv.outQueue[0] == SeqMsg(Gone(x), x.queued[Gone(x)]);
  }

  lemma {:induction false} HeadInFlight(h: HashFn, s: System, left: bool)
    returns (events: seq<Event>, t: System, r: Record)
    requires Inv(s) && Unconfirmed(Sender(s, left), Receiver(s, left))
    requires Max(s.left.lastRound, s.right.lastRound) + 2 < TWO_TO_THE_32
    ensures Leads(h, s, events, t) && Receiver(t, left) == Receiver(s, left)
    ensures InFlight(Sender(t, left), Receiver(t, left), r) && r.msg.lowest
    ensures r.msg.seqNo == Sender(s, left).conv.seqBase + Gone(Sender(s, left))
    ensures Gone(Sender(s, left)) < |Sender(s, left).queued|
    ensures r.msg.text == Sender(s, left).queued[Gone(Sender(s, left))]
  {
    var x, y := Sender(s, left), Receiver(s, left);
    assert Direction(x, y) && PaceOk(x) && QueueOk(x);
    var round: u32 := Max(s.left.lastRound, s.right.lastRound) + 1;
    r := HeadSent(h, x, y, round, []);
    var e1, e2 := Event(left, Start([], round)), Event(left, Compose(round, 0));
    var s1 := Step(h, s, e1);
    t := Step(h, s1, e2);
    assert Enabled(h, s, e1) && Enabled(h, s1, e2);
    hide Step, Enabled, Inv, Direction;
    assert Leads(h, t, [], t);
    LeadsBack(h, s1, e2, [], t);
    LeadsBack(h, s, e1, [e2] + [], t);
    events := [e1] + ([e2] + []);
  }

  /** The sender resends the head of its queue to a receiver that restarted. */
  lemma {:induction false} HeadShown(h: HashFn, s: System, left: bool) returns (events: seq<Event>, t: System)
    requires Inv(s) && Unconfirmed(Sender(s, left), Receiver(s, left))
    requires Max(s.left.lastRound, s.right.lastRound) + 2 < TWO_TO_THE_32
    ensures Leads(h, s, events, t)
    ensures Receiver(t, left).restarts == Receiver(s, left).restarts + 1
    ensures Receiver(t, left).past == Receiver(s, left).past + [Receiver(s, left).shown]
    ensures Receiver(t, left).shown == [Sender(s, left).conv.seqBase + Gone(Sender(s, left))]
    ensures Gone(Sender(s, left)) < |Sender(s, left).queued|
    ensures Receiver(t, left).texts == [Fit(Sender(s, left).queued[Gone(Sender(s, left))])]
  {
    hide Inv, Unconfirmed, Fit;
    var first, mid, r := HeadInFlight(h, s, left);
    LeadsKeepsInv(h, s, first, mid);
    var rest;
    rest, t := FlightShown(h, mid, left, r);
    LeadsCompose(h, s, first, mid, rest, t);
    events := first + rest;
  }

  lemma {:induction false} ComesAgain(h: HashFn, s: System, left: bool) returns (events: seq<Event>, t: System)
    requires Inv(s) && MayComeAgain(Sender(s, left), Receiver(s, left))
    requires Max(s.left.lastRound, s.right.lastRound) + 2 < TWO_TO_THE_32
    ensures Leads(h, s, events, t) && Receiver(t, left).restarts > Receiver(s, left).restarts
    ensures !NoneOf(Receiver(s, left).seen, Receiver(t, left).shown)
  {
    var x, y := Sender(s, left), Receiver(s, left);
    if Unconfirmed(x, y) {
      events, t := HeadShown(h, s, left);
    } else {
      var r :| InFlight(x, y, r) && r.msg.lowest && r.msg.seqNo in y.seen;
      hide Inv;
      events, t := FlightShown(h, s, left, r);
    }
    assert Receiver(t, left).shown[0] in y.seen;
  }

  /**
   What was displayed may be displayed again after a restart of the receiver, exactly: in no way on is
   any of it displayed again if and only if the head of the sender's queue is not part of it, nor any
   message in flight that is marked lowest. Either direction of the conversation, any reachable state.
   */
  lemma {:induction false} ShownAgainExactly(
    h: HashFn, a: Name, b: Name, before: seq<Event>, s: System, left: bool)
    requires a != b && Run(h, a, b, before, s)
    requires Max(s.left.lastRound, s.right.lastRound) + 2 < TWO_TO_THE_32
    ensures NeverAgain(h, s, left) <==> !MayComeAgain(Sender(s, left), Receiver(s, left))
  {
    RunKeepsInv(h, a, b, before, s);
    RunKeepsLowest(h, a, b, before, s);
    hide Run, Inv, MayComeAgain, LowestOk;
    if MayComeAgain(Sender(s, left), Receiver(s, left)) {
      var events, t := ComesAgain(h, s, left);
    } else {
      NeverHolds(h, s, left);
    }
  }

  /** With nothing in flight past the receiver's last round, the head of the queue decides. */
  lemma {:induction false} QuietShownAgainExactly(
    h: HashFn, a: Name, b: Name, before: seq<Event>, s: System, left: bool)
    requires a != b && Run(h, a, b, before, s)
    requires Max(s.left.lastRound, s.right.lastRound) + 2 < TWO_TO_THE_32
    requires Sender(s, left).lastRound <= Receiver(s, left).lastRound
    ensures NeverAgain(h, s, left) <==> !Unconfirmed(Sender(s, left), Receiver(s, left))
  {
    ShownAgainExactly(h, a, b, before, s, left);
    RunKeepsInv(h, a, b, before, s);
    var x, y := Sender(s, left), Receiver(s, left);
    hide Run, NeverAgain, Unconfirmed;
    NothingInFlight(x, y);
  }

  lemma {:induction false} NothingInFlight(x: Party, y: Party)
    requires Direction(x, y) && x.lastRound <= y.lastRound
    ensures forall r :: !InFlight(x, y, r)
  {
    forall r
      ensures !InFlight(x, y, r)
    {
      assert r in x.sent ==> RecordOk(x, y, r);
    }
  }

  // ---------------------------------------------------------------- one text

  /** One text queued at x, both sides activated with one key. */
  ghost predicate OneText(x: Party, y: Party, text: Bytes, key: Bytes) {
    && x.active && x.queued == [text] && x.conv.outQueue == [SeqMsg(0, text)]
    && x.conv.lastOut == -1 && x.conv.seqBase == 0 && x.lastRound == y.lastRound == -1
    && x.conv.peer == y.conv.me && y.conv.peer == x.conv.me && x.conv.me != y.conv.me
    && y.active && y.queued == [] && y.conv.outQueue == [] && y.conv.inQueue == map[] && y.conv.ack == 0
    && y.shown == [] && y.texts == [] && y.past == []
    && x.conv.sessionKey == y.conv.sessionKey == key && x.conv.sessionKeyRound == y.conv.sessionKeyRound == 0
  }

  ghost predicate Waiting(s: System, text: Bytes, key: Bytes) {
    Inv(s) && OneText(s.left, s.right, text, key)
  }

  /** Activating both sides and queueing one text. */
  lemma {:induction false} OneTextWaits(h: HashFn, a: Name, b: Name, text: Bytes, key: Bytes)
    returns (events: seq<Event>, t: System)
    requires a != b
    ensures Leads(h, Initial(a, b), events, t) && Waiting(t, text, key)
  {
    var s := Initial(a, b);
    var e1, e2, e3 := Event(true, Start(key, 0)), Event(false, Start(key, 0)), Event(true, Queue(text));
    var s1 := Step(h, s, e1);
    var s2 := Step(h, s1, e2);
    t := Step(h, s2, e3);
    assert OneText(t.left, t.right, text, key);
    hide Step, OneText;
    assert Leads(h, t, [], t);
    LeadsBack(h, s2, e3, [], t);
    LeadsBack(h, s1, e2, [e3] + [], t);
    LeadsBack(h, s, e1, [e2] + ([e3] + []), t);
    events := [e1] + ([e2] + ([e3] + []));
    InitialInv(a, b);
    LeadsKeepsInv(h, s, events, t);
  }

  lemma {:induction false} TextSent(h: HashFn, x: Party, y: Party, text: Bytes, key: Bytes)
    requires OneText(x, y, text, key)
    ensures var k := Roll(h, key, 0, 1);
            var msg := ConvoMessage(2, x.conv.ack, true, text);
            var x' := AfterCompose(h, x, 1, 0);
            && Record(1, msg, SecretBox(k, 1, y.conv.me, Marshal(msg))) in x'.sent && NoWrap(x')
            && x'.queued == [text] && |x'.conv.outQueue| == 1 && x'.conv.seqBase == 2 && x'.lastRound == 1
  {
    hide Roll, Marshal, Fit;
  }

  lemma {:induction false} TextAwaited(h: HashFn, x: Party, y: Party, text: Bytes, key: Bytes)
    requires OneText(x, y, text, key)
    ensures var y' := AfterCompose(h, y, 1, 0);
            && Listening(y', 1, Roll(h, key, 0, 1)) && NoWrap(y')
            && y'.past == [] && y'.lastRound == 1 && y'.conv.me == y.conv.me
  {
    hide Roll, Marshal, Fit;
  }

  /** A round in which only the receiver gets an answer. */
  lemma {:induction false} OneWayRound(h: HashFn, s: System, text: Bytes, key: Bytes)
    returns (events: seq<Event>, t: System)
    requires Waiting(s, text, key)
    ensures Leads(h, s, events, t) && Unconfirmed(t.left, t.right)
    ensures t.left.conv.seqBase == 2 && Gone(t.left) == 0 && t.left.queued == [text]
    ensures t.right.shown == [2] && t.right.past == []
    ensures t.left.lastRound == t.right.lastRound == 1
  {
    TextSent(h, s.left, s.right, text, key);
    TextAwaited(h, s.left, s.right, text, key);
    var k := Roll(h, key, 0, 1);
    var msg := ConvoMessage(2, s.left.conv.ack, true, text);
    var box := SecretBox(k, 1, s.right.conv.me, Marshal(msg));
    hide Roll, Marshal, Fit, AfterCompose, Inv, Reply;
    var e1, e2, e3 := Event(true, Compose(1, 0)), Event(false, Compose(1, 0)), Event(false, Handle(1, box));
    var s1 := Step(h, s, e1);
    var s2 := Step(h, s1, e2);
    DeliversLowest(s2.right, 1, k, msg);
    t := Step(h, s2, e3);
    assert Enabled(h, s, e1) && Enabled(h, s1, e2) && Enabled(h, s2, e3);
    TwoSeen(s2.right, t.right, box);
    hide Step, Enabled, AfterHandle;
    assert Leads(h, t, [], t);
    LeadsBack(h, s2, e3, [], t);
    LeadsBack(h, s1, e2, [e3] + [], t);
    LeadsBack(h, s, e1, [e2] + ([e3] + []), t);
    events := [e1] + ([e2] + ([e3] + []));
  }

  lemma {:induction false} TwoSeen(y: Party, y': Party, box: Cipher)
    requires y' == AfterHandle(y, 1, box) && y.shown == [] && y'.shown == [2]
    ensures 2 in y'.seen && y'.lastRound == y.lastRound
  {
    hide Reply;
    var numbers := UpTo(y'.conv.ack, 1);
    assert y'.shown[0] == 2;
  }

  /** Every text can be displayed twice under one number. */
  lemma {:induction false} ShownAgainAfterRestart(h: HashFn, a: Name, b: Name, text: Bytes, key: Bytes)
    requires a != b
    ensures exists events, s ::
      && Run(h, a, b, events, s)
      && s.right.past == [[2]] && s.right.shown == [2] && s.right.texts == [Fit(text)]
  {
    hide Leads, Inv, OneText, Unconfirmed, Fit;
    var e1, s1 := OneTextWaits(h, a, b, text, key);
    var e2, s2 := OneWayRound(h, s1, text, key);
    LeadsKeepsInv(h, s1, e2, s2);
    var e3, s3 := HeadShown(h, s2, true);
    LeadsCompose(h, s1, e2, s2, e3, s3);
    LeadsCompose(h, Initial(a, b), e1, s1, e2 + e3, s3);
    var events := e1 + (e2 + e3);
    LeadsExtends(h, Initial(a, b), [], Initial(a, b), events, s3);
    assert [] + events == events;
    assert Run(h, a, b, events, s3);
  }
}
