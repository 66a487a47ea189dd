/** Without losses the queue of a conversation empties after a bounded number of rounds. */
module BoundedDelivery {
  import opened Common
  import opened ConvoWire
  import opened Ratchet
  import opened Conversations
  import opened Delivery

  /** The box that p puts on the wire in a round, or noise if it has no key for it. */
  function Boxed(h: HashFn, p: Party, round: u32): Cipher {
    match Next(h, p.conv, round, 0).1
    case DeadDropMessage(_, enc) => enc
    case Dummy(noise) => Noise(noise)
  }

  /** A round in which both compose and then each handles what the other composed. */
  ghost function Exchange(h: HashFn, s: System, round: u32): System {
    System(AfterHandle(AfterCompose(h, s.left, round, 0), round, Boxed(h, s.right, round)),
           AfterHandle(AfterCompose(h, s.right, round, 0), round, Boxed(h, s.left, round)))
  }

  ghost function Exchanges(h: HashFn, s: System, rounds: seq<u32>): System
    decreases |rounds|
  {
    if rounds == [] then s else Exchanges(h, Exchange(h, s, rounds[0]), rounds[1..])
  }

  /** A side that can take part in a round. */
  ghost predicate Ready(p: Party, round: u32) {
    && p.active && p.lastRound < round && round + 1 < TWO_TO_THE_32
    && round + 1 + |p.queued| < TWO_TO_THE_32
    && p.conv.sessionKeyRound <= round
  }

  /** The two ratchets give the same key for the round. */
  ghost predicate InSync(h: HashFn, s: System, round: u32) {
    && Ready(s.left, round) && Ready(s.right, round)
    && Roll(h, s.left.conv.sessionKey, s.left.conv.sessionKeyRound, round)
       == Roll(h, s.right.conv.sessionKey, s.right.conv.sessionKeyRound, round)
  }

  /** The events of a round, in an order the transition system allows. */
  function RoundEvents(h: HashFn, s: System, round: u32): seq<Event> {
    [Event(true, Compose(round, 0)), Event(false, Compose(round, 0)),
     Event(true, Handle(round, Boxed(h, s.right, round))), Event(false, Handle(round, Boxed(h, s.left, round)))]
  }

  lemma {:induction false} LegalStep(h: HashFn, s: System, events: seq<Event>, e: Event)
    requires Legal(h, s, events) && Enabled(h, Final(h, s, events), e)
    ensures Legal(h, s, events + [e]) && Final(h, s, events + [e]) == Step(h, Final(h, s, events), e)
  {
    assert (events + [e])[..|events|] == events;
  }

  lemma {:induction false} ComposedOnWire(h: HashFn, p: Party, round: u32)
    requires Ready(p, round) && QueueOk(p)
    ensures NoWrap(AfterCompose(h, p, round, 0))
    ensures OnWire(AfterCompose(h, p, round, 0), Boxed(h, p, round))
  {
    var (picked, msg) := PickText(p.conv, round);
    assert picked.sessionKey == p.conv.sessionKey && picked.sessionKeyRound == p.conv.sessionKeyRound;
    var p' := AfterCompose(h, p, round, 0);
    assert Record(round, msg, Boxed(h, p, round)) in p'.sent;
  }

  /** From s the events can be taken one after the other, and lead to t. */
  ghost predicate Leads(h: HashFn, s: System, events: seq<Event>, t: System)
    decreases |events|
  {
    if events == [] then s == t else Enabled(h, s, events[0]) && Leads(h, Step(h, s, events[0]), events[1..], t)
  }

  lemma {:induction false} LeadsExtends(
    h: HashFn, s0: System, before: seq<Event>, s: System, events: seq<Event>, t: System)
    requires Legal(h, s0, before) && s == Final(h, s0, before) && Leads(h, s, events, t)
    ensures Legal(h, s0, before + events) && t == Final(h, s0, before + events)
    decreases |events|
  {
    hide Step, Enabled;
    if events == [] {
      assert before + events == before;
    } else {
      LegalStep(h, s0, before, events[0]);
      LeadsExtends(h, s0, before + [events[0]], Step(h, s, events[0]), events[1..], t);
      assert before + [events[0]] + events[1..] == before + events;
    }
  }

  /** A lossless round takes steps that the transition system allows. */
  lemma {:induction false} RoundLeads(h: HashFn, s: System, round: u32)
    requires QueueOk(s.left) && QueueOk(s.right) && InSync(h, s, round)
    ensures Leads(h, s, RoundEvents(h, s, round), Exchange(h, s, round))
  {
    ComposedOnWire(h, s.left, round);
    ComposedOnWire(h, s.right, round);
    var es := RoundEvents(h, s, round);
    var s1 := Step(h, s, es[0]);
    var s2 := Step(h, s1, es[1]);
    var s3 := Step(h, s2, es[2]);
    assert Step(h, s3, es[3]) == Exchange(h, s, round);
    assert Enabled(h, s, es[0]) && Enabled(h, s1, es[1]);
    assert Enabled(h, s2, es[2]) && Enabled(h, s3, es[3]);
    FourLead(h, s, es, s1, s2, s3);
  }

  lemma {:induction false} FourLead(h: HashFn, s: System, es: seq<Event>, s1: System, s2: System, s3: System)
    requires |es| == 4
    requires s1 == Step(h, s, es[0]) && s2 == Step(h, s1, es[1]) && s3 == Step(h, s2, es[2])
    requires Enabled(h, s, es[0]) && Enabled(h, s1, es[1]) && Enabled(h, s2, es[2]) && Enabled(h, s3, es[3])
    ensures Leads(h, s, es, Step(h, s3, es[3]))
  {
    hide Step, Enabled;
    var t := Step(h, s3, es[3]);
    assert Leads(h, t, [], t);
    assert es[3..][1..] == [] && es[2..][1..] == es[3..] && es[1..][1..] == es[2..];
    assert Leads(h, s3, es[3..], t);
    assert Leads(h, s2, es[2..], t);
    assert Leads(h, s1, es[1..], t);
  }

  // ---------------------------------------------------------------- progress

  /** The number of rounds that j unacknowledged texts may take. */
  function Budget(j: nat): nat {
    if j == 0 then 0 else j + 1 + Budget(j - 1)
  }

  lemma {:induction false} BudgetClosed(j: nat)
    ensures 2 * Budget(j) == j * (j + 3)
  {
    if j > 0 {
      BudgetClosed(j - 1);
    }
  }

  lemma {:induction false} BudgetGrows(i: nat, j: nat)
    requires i <= j
    ensures Budget(i) <= Budget(j)
  {
    if i < j {
      BudgetGrows(i, j - 1);
    }
  }

  /** How many rounds until the head of a queue of length k is sent. */
  function ToHead(k: nat, lastOut: int): nat {
    if lastOut == -1 || lastOut + 1 >= k then 1 else if lastOut < 0 then 1 else k - lastOut
  }

  /** The peer has the head of x's queue but x does not know it yet. */
  predicate HeadDelivered(x: Party, ack: int) {
    x.conv.seqBase > 0 && ack >= x.conv.seqBase + Gone(x)
  }

  /** A bound on the rounds until x's queue is empty, given the peer's acknowledgement. */
  function Measure(x: Party, ack: int): nat {
    var k := |x.conv.outQueue|;
    if k == 0 then 0
    else if HeadDelivered(x, ack) then 1 + Budget(k - 1)
    else ToHead(k, x.conv.lastOut) + 1 + Budget(k - 1)
  }

  lemma {:induction false} MeasureWithinBudget(x: Party, ack: int)
    ensures Measure(x, ack) <= Budget(|x.conv.outQueue|)
  {
  }

  /** What a lossless round does to the sender x and to the acknowledgement of its peer y. */
  ghost predicate Progress(x: Party, x': Party, ack: int, ack': int, c: Conv, msg: ConvoMessage) {
    var n := Reach(c.seqBase, Gone(x), |x.conv.outQueue|, ack);
    && x'.conv.outQueue == x.conv.outQueue[n..] && x'.queued == x.queued
    && x'.conv.seqBase == c.seqBase
    && x'.conv.lastOut == (if c.lastOut <= 0 then c.lastOut else Max(c.lastOut - n, 0))
    && (msg.lowest ==> ack' >= msg.seqNo)
  }

  lemma {:induction false} MeasureDecreases(
    x: Party, x': Party, ack: int, ack': int, c: Conv, msg: ConvoMessage, round: u32)
    requires QueueOk(x) && x.conv.outQueue != [] && ack < round + 1
    requires (c, msg) == PickText(x.conv, round) && Picked(x, round, c, msg)
    requires Progress(x, x', ack, ack', c, msg)
    ensures Measure(x', ack') < Measure(x, ack)
  {
    var k := |x.conv.outQueue|;
    MeasureWithinBudget(x', ack');
    BudgetGrows(|x'.conv.outQueue|, k);
    if HeadDelivered(x, ack) {
      assert |x'.conv.outQueue| <= k - 1;
      BudgetGrows(|x'.conv.outQueue|, k - 1);
    } else {
      assert |x'.conv.outQueue| == k;
    }
  }

  // ---------------------------------------------------------------- one lossless round

  lemma {:induction false} LeadsKeepsInv(h: HashFn, s: System, events: seq<Event>, t: System)
    requires Inv(s) && Leads(h, s, events, t)
    ensures Inv(t)
    decreases |events|
  {
    hide Step, Enabled, Inv;
    if events != [] {
      StepKeepsInv(h, s, events[0]);
      LeadsKeepsInv(h, Step(h, s, events[0]), events[1..], t);
    }
  }

  lemma {:induction false} ExchangeKeepsInv(h: HashFn, s: System, round: u32)
    requires Inv(s) && InSync(h, s, round)
    ensures Inv(Exchange(h, s, round))
  {
    RoundLeads(h, s, round);
    LeadsKeepsInv(h, s, RoundEvents(h, s, round), Exchange(h, s, round));
  }

  /** The ratchets of x and y agree on the round, and both can take part in it. */
  ghost predicate Paired(h: HashFn, x: Party, y: Party, round: u32) {
    InSync(h, System(x, y), round)
  }

  /** In a lossless round y accepts exactly the message that x composed. */
  lemma {:induction false} PeerAccepts(h: HashFn, x: Party, y: Party, round: u32)
    requires Paired(h, x, y, round)
    requires x.conv.me == y.conv.peer && x.conv.peer == y.conv.me && x.conv.me != y.conv.me
    ensures var msg := PickText(x.conv, round).1;
            Accept(AfterCompose(h, y, round, 0).conv, round, Boxed(h, x, round)) == Some(msg.(text := Fit(msg.text)))
  {
    var (px, msg) := PickText(x.conv, round);
    var (py, other) := PickText(y.conv, round);
    assert px.sessionKey == x.conv.sessionKey && px.sessionKeyRound == x.conv.sessionKeyRound;
    assert py.sessionKey == y.conv.sessionKey && py.sessionKeyRound == y.conv.sessionKeyRound;
    var key := Roll(h, x.conv.sessionKey, x.conv.sessionKeyRound, round);
    assert Boxed(h, x, round) == SecretBox(key, round, x.conv.peer, Marshal(msg));
    var conv := AfterCompose(h, y, round, 0).conv;
    assert conv.rounds[round] == ConvoRound(SecretBox(key, round, y.conv.peer, Marshal(other)), key);
    MarshalRoundTrip(msg);
  }

  /** After y has taken in the lowest text of x, its acknowledgement covers it. */
  lemma {:induction false} LowestAcknowledged(c: Conv, msg: ConvoMessage)
    requires 0 !in c.inQueue
    requires msg.lowest
    ensures Receive(c, msg).0.ack >= msg.seqNo
  {
    if msg.seqNo > c.ack {
      DrainShape(c.inQueue[msg.seqNo := msg.text], msg.seqNo - 1);
    }
  }

  /** What a lossless round does to the acknowledgement of y. */
  lemma {:induction false} RoundAcknowledges(h: HashFn, x: Party, y: Party, round: u32)
    requires Direction(x, y) && Paired(h, x, y, round)
    ensures var y' := AfterHandle(AfterCompose(h, y, round, 0), round, Boxed(h, x, round));
            var msg := PickText(x.conv, round).1;
            msg.lowest ==> y'.conv.ack >= msg.seqNo
  {
    var y1 := AfterCompose(h, y, round, 0);
    var msg := PickText(x.conv, round).1;
    var accepted := msg.(text := Fit(msg.text));
    PeerAccepts(h, x, y, round);
    ComposeShape(h, y, round, 0);
    BookStartsAtOne(x);
    AcceptedReply(y1, round, Boxed(h, x, round), accepted);
    if msg.lowest {
      LowestAcknowledged(TakeAck(y1.conv.(rounds := KeepRounds(y1.conv.rounds, round)), accepted.ack), accepted);
    }
  }

  /** What an accepted reply does to the queue of x. */
  lemma {:induction false} AcceptedPrunes(x: Party, round: u32, enc: Cipher, msg: ConvoMessage)
    requires QueueOk(x) && 0 !in x.conv.inQueue
    requires Accept(x.conv, round, enc) == Some(msg)
    ensures var x' := AfterHandle(x, round, enc);
            var n := Reach(x.conv.seqBase, Gone(x), |x.conv.outQueue|, msg.ack);
            && x'.conv.outQueue == x.conv.outQueue[n..] && x'.queued == x.queued
            && x'.conv.seqBase == x.conv.seqBase
            && x'.conv.lastOut == (if x.conv.lastOut <= 0 then x.conv.lastOut else Max(x.conv.lastOut - n, 0))
  {
    AcceptedReply(x, round, enc, msg);
    PruneShape(x.conv.outQueue, x.conv.seqBase, Gone(x), msg.ack, x.conv.lastOut);
  }

  lemma {:induction false} ComposedReady(h: HashFn, x: Party, y: Party, round: u32)
    requires Direction(x, y) && Direction(y, x) && Ready(x, round)
    ensures var x1 := AfterCompose(h, x, round, 0);
            var (c, msg) := PickText(x.conv, round);
            && QueueOk(x1) && 0 !in x1.conv.inQueue && Composed(x, x1, round, c, msg)
  {
    ComposeShape(h, x, round, 0);
    PickPlace(x, round);
    ComposedQueue(x, AfterCompose(h, x, round, 0), round, PickText(x.conv, round).0, PickText(x.conv, round).1);
    BookStartsAtOne(y);
  }

  /** What a lossless round does to the queue of x. */
  lemma {:induction false} RoundPrunes(h: HashFn, x: Party, y: Party, round: u32)
    requires Direction(x, y) && Direction(y, x) && Paired(h, x, y, round) && Paired(h, y, x, round)
    ensures var x' := AfterHandle(AfterCompose(h, x, round, 0), round, Boxed(h, y, round));
            var y' := AfterHandle(AfterCompose(h, y, round, 0), round, Boxed(h, x, round));
            var (c, msg) := PickText(x.conv, round);
            Progress(x, x', y.conv.ack, y'.conv.ack, c, msg)
  {
    hide AfterCompose, AfterHandle, Boxed, Accept, Roll, SentOk, SeenOk, WaitingOk, ShownOk, BookOk, QueueOk;
    var other := PickText(y.conv, round).1;
    PeerAccepts(h, y, x, round);
    ComposedReady(h, x, y, round);
    AcceptedPrunes(AfterCompose(h, x, round, 0), round, Boxed(h, y, round), other.(text := Fit(other.text)));
    RoundAcknowledges(h, x, y, round);
  }

  lemma {:induction false} RoundProgress(h: HashFn, x: Party, y: Party, round: u32)
    requires Direction(x, y) && Direction(y, x) && Paired(h, x, y, round) && Paired(h, y, x, round)
    ensures var x' := AfterHandle(AfterCompose(h, x, round, 0), round, Boxed(h, y, round));
            var y' := AfterHandle(AfterCompose(h, y, round, 0), round, Boxed(h, x, round));
            && x'.queued == x.queued
            && Measure(x', y'.conv.ack) <= Max(Measure(x, y.conv.ack) - 1, 0)
  {
    RoundPrunes(h, x, y, round);
    var x' := AfterHandle(AfterCompose(h, x, round, 0), round, Boxed(h, y, round));
    var y' := AfterHandle(AfterCompose(h, y, round, 0), round, Boxed(h, x, round));
    var (c, msg) := PickText(x.conv, round);
    if x.conv.outQueue != [] {
      PickPlace(x, round);
      AckWithinRounds(x, y);
      MeasureDecreases(x, x', y.conv.ack, y'.conv.ack, c, msg, round);
    }
  }

  lemma {:induction false} AckWithinRounds(x: Party, y: Party)
    requires BookOk(x) && SeenOk(x, y) && WaitingOk(x, y) && PaceOk(x)
    ensures y.conv.ack <= x.lastRound + 1
  {
    if y.conv.ack > 0 {
      assert EntryOk(x, y.conv.ack);
    }
  }

  // ---------------------------------------------------------------- many lossless rounds

  lemma {:induction false} ComposeRolls(h: HashFn, x: Party, round: u32)
    requires Ready(x, round)
    ensures var x1 := AfterCompose(h, x, round, 0);
            && x1.conv.sessionKeyRound == round && x1.active && x1.lastRound == round
            && x1.conv.sessionKey == Roll(h, x.conv.sessionKey, x.conv.sessionKeyRound, round)
            && x1.queued == x.queued && x1.restarts == x.restarts
  {
    var picked := PickText(x.conv, round).0;
    assert picked.sessionKey == x.conv.sessionKey && picked.sessionKeyRound == x.conv.sessionKeyRound;
  }

  lemma {:induction false} HandleKeepsKey(x: Party, round: u32, enc: Cipher)
    ensures var x' := AfterHandle(x, round, enc);
            && x'.active == x.active && x'.lastRound == x.lastRound && x'.queued == x.queued
            && x'.conv.sessionKeyRound == x.conv.sessionKeyRound && x'.conv.sessionKey == x.conv.sessionKey
            && x'.restarts == x.restarts
  {
  }

  lemma {:induction false} ComposeThenHandle(h: HashFn, x: Party, round: u32, enc: Cipher)
    requires Ready(x, round)
    ensures var x' := AfterHandle(AfterCompose(h, x, round, 0), round, enc);
            && x'.active && x'.lastRound == round && x'.queued == x.queued && x'.conv.sessionKeyRound == round
            && x'.conv.sessionKey == Roll(h, x.conv.sessionKey, x.conv.sessionKeyRound, round)
            && x'.restarts == x.restarts
  {
    hide AfterCompose, AfterHandle;
    ComposeRolls(h, x, round);
    HandleKeepsKey(AfterCompose(h, x, round, 0), round, enc);
  }

  /** Two sides that took part in a round together can take part in any later one together. */
  lemma {:induction false} StaysInSync(h: HashFn, s: System, round: u32, later: u32)
    requires Inv(s) && InSync(h, s, round) && round < later
    requires later + 1 + |s.left.queued| < TWO_TO_THE_32 && later + 1 + |s.right.queued| < TWO_TO_THE_32
    ensures InSync(h, Exchange(h, s, round), later)
  {
    ComposeThenHandle(h, s.left, round, Boxed(h, s.right, round));
    ComposeThenHandle(h, s.right, round, Boxed(h, s.left, round));
  }

  /** Strictly increasing rounds, all within the uint32 range for what is queued. */
  ghost predicate GoodRounds(s: System, rounds: seq<u32>) {
    && (forall i, j :: 0 <= i < j < |rounds| ==> rounds[i] < rounds[j])
    && (forall i :: 0 <= i < |rounds| ==>
          rounds[i] + 1 + |s.left.queued| < TWO_TO_THE_32 && rounds[i] + 1 + |s.right.queued| < TWO_TO_THE_32)
  }

  lemma {:induction false} RoundsLeft(h: HashFn, s: System, round: u32)
    requires Inv(s) && InSync(h, s, round)
    ensures var t := Exchange(h, s, round);
            && Inv(t)
            && t.left.queued == s.left.queued && t.right.queued == s.right.queued
            && t.left.restarts == s.left.restarts && t.right.restarts == s.right.restarts
            && Measure(t.left, t.right.conv.ack) <= Max(Measure(s.left, s.right.conv.ack) - 1, 0)
            && Measure(t.right, t.left.conv.ack) <= Max(Measure(s.right, s.left.conv.ack) - 1, 0)
  {
    ExchangeKeepsInv(h, s, round);
    RoundProgress(h, s.left, s.right, round);
    RoundProgress(h, s.right, s.left, round);
    ComposeThenHandle(h, s.left, round, Boxed(h, s.right, round));
    ComposeThenHandle(h, s.right, round, Boxed(h, s.left, round));
  }

  lemma {:induction false} ManyRounds(h: HashFn, s: System, rounds: seq<u32>)
    requires Inv(s) && GoodRounds(s, rounds)
    requires rounds != [] ==> InSync(h, s, rounds[0])
    ensures var t := Exchanges(h, s, rounds);
            && Inv(t)
            && t.left.queued == s.left.queued && t.right.queued == s.right.queued
            && t.left.restarts == s.left.restarts && t.right.restarts == s.right.restarts
            && Measure(t.left, t.right.conv.ack) <= Max(Measure(s.left, s.right.conv.ack) - |rounds|, 0)
            && Measure(t.right, t.left.conv.ack) <= Max(Measure(s.right, s.left.conv.ack) - |rounds|, 0)
    decreases |rounds|
  {
    hide Exchange, InSync, Inv, Measure;
    if rounds != [] {
      var t := Exchange(h, s, rounds[0]);
      RoundsLeft(h, s, rounds[0]);
      if |rounds| > 1 {
        StaysInSync(h, s, rounds[0], rounds[1]);
      }
      ManyRounds(h, t, rounds[1..]);
    }
  }

  /** Everything x queued in this run has left its queue and was delivered by y under its number. */
  ghost predicate Emptied(x: Party, y: Party) {
    && x.conv.outQueue == []
    && forall k :: 0 <= k < |x.queued| ==>
         var s := x.conv.seqBase + k; s in y.seen && s in x.book && x.book[s].text == x.queued[k]
  }

  /** As many rounds as k unacknowledged texts may take. */
  predicate Enough(k: nat, n: nat) {
    2 * n >= k * (k + 3)
  }

  lemma {:induction false} EmptyAfter(x: Party, y: Party, x': Party, y': Party, n: nat)
    requires Direction(x', y') && Enough(|x.conv.outQueue|, n)
    requires Measure(x', y'.conv.ack) <= Max(Measure(x, y.conv.ack) - n, 0)
    ensures Emptied(x', y')
  {
    var k := |x.conv.outQueue|;
    BudgetClosed(k);
    MeasureWithinBudget(x, y.conv.ack);
    assert x'.conv.outQueue == [];
    hide Measure, Budget, Enough;
    forall i | 0 <= i < |x'.queued|
      ensures var s := x'.conv.seqBase + i; s in y'.seen && s in x'.book && x'.book[s].text == x'.queued[i]
    {
      assert x'.conv.seqBase + i in y'.seen;
      assert EntryOk(x', x'.conv.seqBase + i);
    }
  }

  /**
   Bounded delivery: from any reachable state, restarts or not, k unacknowledged texts are gone after
   k(k+3)/2 lossless rounds in which nothing is added, and everything queued in this run was delivered.
   */
  lemma {:induction false} EmptiedWithinBudget(
    h: HashFn, a: Name, b: Name, events: seq<Event>, s: System, rounds: seq<u32>)
    requires a != b && Run(h, a, b, events, s)
    requires rounds != [] && GoodRounds(s, rounds) && InSync(h, s, rounds[0])
    ensures var t := Exchanges(h, s, rounds);
            && (Enough(|s.left.conv.outQueue|, |rounds|) ==> Emptied(t.left, t.right))
            && (Enough(|s.right.conv.outQueue|, |rounds|) ==> Emptied(t.right, t.left))
  {
    hide Run, Exchanges, Measure, InSync, GoodRounds, Enough, Emptied, Direction;
    RunKeepsInv(h, a, b, events, s);
    ManyRounds(h, s, rounds);
    var t := Exchanges(h, s, rounds);
    if Enough(|s.left.conv.outQueue|, |rounds|) {
      EmptyAfter(s.left, s.right, t.left, t.right, |rounds|);
    }
    if Enough(|s.right.conv.outQueue|, |rounds|) {
      EmptyAfter(s.right, s.left, t.right, t.left, |rounds|);
    }
  }

  lemma {:induction false} StretchParts(x: Party, y: Party, x': Party, y': Party, n: nat)
    requires x.conv.outQueue != [] && n > |x.conv.outQueue|
    requires Measure(x', y'.conv.ack) <= Max(Measure(x, y.conv.ack) - n, 0)
    ensures |x'.conv.outQueue| < |x.conv.outQueue|
  {
    var k, j := |x.conv.outQueue|, |x'.conv.outQueue|;
    MeasureWithinBudget(x, y.conv.ack);
    if j >= k {
      BudgetGrows(k - 1, j - 1);
    }
  }

  /**
   Progress does not need the losses to end: whatever happened before, any k+1 lossless rounds in a row
   take at least one of k unacknowledged texts out of the queue.
   */
  lemma {:induction false} StretchRemovesOne(
    h: HashFn, a: Name, b: Name, events: seq<Event>, s: System, rounds: seq<u32>)
    requires a != b && Run(h, a, b, events, s)
    requires rounds != [] && GoodRounds(s, rounds) && InSync(h, s, rounds[0])
    ensures var t := Exchanges(h, s, rounds);
            && (0 < |s.left.conv.outQueue| < |rounds| ==> |t.left.conv.outQueue| < |s.left.conv.outQueue|)
            && (0 < |s.right.conv.outQueue| < |rounds| ==> |t.right.conv.outQueue| < |s.right.conv.outQueue|)
  {
    hide Run, Exchanges, Measure, InSync, GoodRounds, Direction;
    RunKeepsInv(h, a, b, events, s);
    ManyRounds(h, s, rounds);
    var t := Exchanges(h, s, rounds);
    if 0 < |s.left.conv.outQueue| < |rounds| {
      StretchParts(s.left, s.right, t.left, t.right, |rounds|);
    }
    if 0 < |s.right.conv.outQueue| < |rounds| {
      StretchParts(s.right, s.left, t.right, t.left, |rounds|);
    }
  }

  /** If nobody has restarted, everything queued is then on the peer's screen. */
  lemma {:induction false} DeliveredWithinBudget(
    h: HashFn, a: Name, b: Name, events: seq<Event>, s: System, rounds: seq<u32>)
    requires a != b && Run(h, a, b, events, s)
    requires s.left.restarts == 0 && s.right.restarts == 0
    requires rounds != [] && GoodRounds(s, rounds) && InSync(h, s, rounds[0])
    ensures var t := Exchanges(h, s, rounds);
            && (Enough(|s.left.conv.outQueue|, |rounds|) ==> Display(t.right.texts) == ShownAll(s.left.queued))
            && (Enough(|s.right.conv.outQueue|, |rounds|) ==> Display(t.left.texts) == ShownAll(s.right.queued))
  {
    hide Run, Exchanges, Measure, InSync, GoodRounds, Enough, Emptied, Direction;
    RunKeepsInv(h, a, b, events, s);
    ManyRounds(h, s, rounds);
    EmptiedWithinBudget(h, a, b, events, s, rounds);
    var t := Exchanges(h, s, rounds);
    if Enough(|s.left.conv.outQueue|, |rounds|) {
      AllDisplayed(t.left, t.right);
    }
    if Enough(|s.right.conv.outQueue|, |rounds|) {
      AllDisplayed(t.right, t.left);
    }
  }

  lemma {:induction false} AllDisplayed(x: Party, y: Party)
    requires Direction(x, y) && Emptied(x, y) && x.restarts == 0 && y.restarts == 0
    ensures Display(y.texts) == ShownAll(x.queued)
  {
    DirectionDeliversPrefix(x, y);
    assert x.queued[..|y.texts|] == x.queued;
  }
}
