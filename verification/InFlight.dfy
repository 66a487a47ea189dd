/** Bounded delivery with rounds in flight: several rounds open at a time, their answers handled in any order. */
module InFlight {
  import opened Common
  import opened ConvoWire
  import opened Ratchet
  import opened Conversations
  import opened Delivery
  import opened BoundedDelivery
  import opened Overlap

  /** One side: what it sent in the rounds composed so far, and which of them it has handled the answer of. */
  datatype Side = Side(party: Party, boxes: seq<Cipher>, msgs: seq<ConvoMessage>, handled: set<nat>)

  datatype Pair = Pair(left: Side, right: Side)

  /** Composing for the next round, or handling the peer's box of a round as the answer. */
  datatype Move = ComposeNext | HandleAnswer(i: nat)

  ghost predicate MayMove(rounds: seq<u32>, lag: nat, me: Side, peer: Side, m: Move) {
    match m
    case ComposeNext =>
      && |me.boxes| < |rounds|
      && forall i: nat :: i + lag <= |me.boxes| ==> i in me.handled && i in peer.handled
    case HandleAnswer(i) => i < |me.boxes| && i < |peer.boxes| && i !in me.handled
  }

  ghost function Moved(h: HashFn, rounds: seq<u32>, me: Side, peer: Side, m: Move): Side
    requires |me.boxes| <= |rounds|
    requires m.ComposeNext? ==> |me.boxes| < |rounds|
    requires m.HandleAnswer? ==> m.i < |me.boxes| && m.i < |peer.boxes|
  {
    match m
    case ComposeNext =>
      var round := rounds[|me.boxes|];
      Side(AfterCompose(h, me.party, round, 0), me.boxes + [Boxed(h, me.party, round)],
           me.msgs + [PickText(me.party.conv, round).1], me.handled)
    case HandleAnswer(i) =>
      me.(party := AfterHandle(me.party, rounds[i], peer.boxes[i]), handled := me.handled + {i})
  }

  ghost predicate Bounded(rounds: seq<u32>, p: Pair) {
    |p.left.boxes| <= |rounds| && |p.right.boxes| <= |rounds|
  }

  /**
   A lossless run with rounds in flight: the two sides move in any order; each composes the rounds in turn,
   handles each answer once, in any order, and nobody composes while a round lag or more rounds back is open.
   */
  ghost predicate Flies(h: HashFn, rounds: seq<u32>, lag: nat, p: Pair, moves: seq<(bool, Move)>, t: Pair)
    requires Bounded(rounds, p)
    decreases |moves|
  {
    if moves == [] then p == t
    else
      var (byLeft, m) := moves[0];
      if byLeft then
        MayMove(rounds, lag, p.left, p.right, m)
        && Flies(h, rounds, lag, p.(left := Moved(h, rounds, p.left, p.right, m)), moves[1..], t)
      else
        MayMove(rounds, lag, p.right, p.left, m)
        && Flies(h, rounds, lag, p.(right := Moved(h, rounds, p.right, p.left, m)), moves[1..], t)
  }

  /** Only rounds that both composed have been handled. */
  ghost predicate Matched(x: Side, y: Side) {
    forall i: nat :: i in x.handled || i in y.handled ==> i < |x.boxes| && i < |y.boxes|
  }

  ghost predicate Done(rounds: seq<u32>, x: Side) {
    |x.boxes| == |rounds| && forall i: nat :: i < |rounds| ==> i in x.handled
  }

  function Begin(s: System): Pair {
    Pair(Side(s.left, [], [], {}), Side(s.right, [], [], {}))
  }

  /** The rounds go up from 10 or more, and rounds that can be in flight together are within ten. */
  ghost predicate CloseTogether(rounds: seq<u32>, lag: nat) {
    && (forall i, j :: 0 <= i < j < |rounds| ==> rounds[i] < rounds[j])
    && (forall i :: 0 <= i < |rounds| ==> 10 <= rounds[i])
    && (forall i, j :: 0 <= i <= j < |rounds| && j < i + lag ==> rounds[j] - rounds[i] <= 10)
  }

  /** Consecutive rounds are close enough together for eleven in flight. */
  lemma {:induction false} ConsecutiveAreClose(first: u32, rounds: seq<u32>, lag: nat)
    requires 10 <= first && lag <= 11
    requires forall i :: 0 <= i < |rounds| ==> rounds[i] == first + i
    ensures CloseTogether(rounds, lag)
  {
  }

  /** Some move is always possible until all rounds are over: no run is stuck. */
  lemma {:induction false} NeverStuck(rounds: seq<u32>, lag: nat, p: Pair)
    requires 0 < lag && Bounded(rounds, p)
    requires Matched(p.left, p.right)
    ensures || (Done(rounds, p.left) && Done(rounds, p.right))
            || (exists m :: MayMove(rounds, lag, p.left, p.right, m))
            || (exists m :: MayMove(rounds, lag, p.right, p.left, m))
  {
    var n := if |p.left.boxes| <= |p.right.boxes| then |p.left.boxes| else |p.right.boxes|;
    if i: nat :| i < n && i !in p.left.handled {
      assert MayMove(rounds, lag, p.left, p.right, HandleAnswer(i));
    } else if i: nat :| i < n && i !in p.right.handled {
      assert MayMove(rounds, lag, p.right, p.left, HandleAnswer(i));
    } else if n < |rounds| {
      if n == |p.left.boxes| {
        assert MayMove(rounds, lag, p.left, p.right, ComposeNext);
      } else {
        assert MayMove(rounds, lag, p.right, p.left, ComposeNext);
      }
    }
  }

  // ---------------------------------------------------------------- what every move keeps

  /** The key of a round, from where a side started. */
  function KeyAt(h: HashFn, start: Party, round: u32): Bytes
    requires start.conv.sessionKeyRound <= round
  {
    Roll(h, start.conv.sessionKey, start.conv.sessionKeyRound, round)
  }

  /** Where a side is in its rounds, compared with where it started. */
  ghost predicate OnLine(h: HashFn, start: Party, rounds: seq<u32>, x: Side) {
    var p, c := x.party, |x.boxes|;
    && c <= |rounds| && |x.msgs| == c
    && p.active && p.queued == start.queued && p.restarts == start.restarts
    && p.conv.me == start.conv.me && p.conv.peer == start.conv.peer
    && start.conv.sessionKeyRound <= p.conv.sessionKeyRound
    && p.conv.sessionKey == KeyAt(h, start, p.conv.sessionKeyRound)
    && (c < |rounds| ==> p.lastRound < rounds[c] && p.conv.sessionKeyRound <= rounds[c])
    && (forall i :: i in x.handled ==> i < c)
  }

  /** What a side sent in round i, and that the round is pending until its answer is handled. */
  ghost predicate SentIn(h: HashFn, start: Party, rounds: seq<u32>, x: Side, i: nat)
    requires i < |x.boxes| <= |rounds| && |x.msgs| == |x.boxes|
  {
    var p, round := x.party, rounds[i];
    && start.conv.sessionKeyRound <= round
    && x.boxes[i] == SecretBox(KeyAt(h, start, round), round, p.conv.peer, Marshal(x.msgs[i]))
    && OnWire(p, x.boxes[i])
    && (i !in x.handled ==> round in p.conv.rounds
                            && p.conv.rounds[round] == ConvoRound(x.boxes[i], KeyAt(h, start, round)))
  }

  ghost predicate AllSent(h: HashFn, start: Party, rounds: seq<u32>, x: Side)
    requires |x.boxes| <= |rounds| && |x.msgs| == |x.boxes|
  {
    forall i: nat :: i < |x.boxes| ==> SentIn(h, start, rounds, x, i)
  }

  /** While a round is open on either side, at most lag rounds from it on were composed. */
  ghost predicate LagOk(lag: nat, x: Side, y: Side) {
    forall i: nat :: (i in x.handled && i in y.handled) || (|x.boxes| <= i + lag && |y.boxes| <= i + lag)
  }

  ghost predicate SideOk(h: HashFn, start: Party, rounds: seq<u32>, x: Side) {
    OnLine(h, start, rounds, x) && AllSent(h, start, rounds, x)
  }

  ghost predicate PairOk(h: HashFn, s: System, rounds: seq<u32>, lag: nat, p: Pair) {
    && SideOk(h, s.left, rounds, p.left) && SideOk(h, s.right, rounds, p.right)
    && LagOk(lag, p.left, p.right) && Matched(p.left, p.right)
    && Inv(System(p.left.party, p.right.party))
  }

  /** What the starting states of the two sides and the rounds have to promise each other. */
  ghost predicate Setting(h: HashFn, s: System, rounds: seq<u32>, lag: nat) {
    && 0 < lag && CloseTogether(rounds, lag) && GoodRounds(s, rounds)
    && s.left.conv.me == s.right.conv.peer && s.left.conv.peer == s.right.conv.me
    && s.left.conv.me != s.left.conv.peer
    && (forall i :: 0 <= i < |rounds| ==>
          && s.left.conv.sessionKeyRound <= rounds[i] && s.right.conv.sessionKeyRound <= rounds[i]
          && KeyAt(h, s.left, rounds[i]) == KeyAt(h, s.right, rounds[i]))
  }

  lemma {:induction false} SettingTurned(h: HashFn, s: System, rounds: seq<u32>, lag: nat)
    requires Setting(h, s, rounds, lag)
    ensures Setting(h, System(s.right, s.left), rounds, lag)
  {
  }

  lemma {:induction false} NextKey(h: HashFn, start: Party, rounds: seq<u32>, x: Side)
    requires OnLine(h, start, rounds, x) && |x.boxes| < |rounds|
    ensures var round := rounds[|x.boxes|];
            && x.party.conv.sessionKeyRound <= round && start.conv.sessionKeyRound <= round
            && Roll(h, x.party.conv.sessionKey, x.party.conv.sessionKeyRound, round) == KeyAt(h, start, round)
  {
    var round := rounds[|x.boxes|];
    RollComposes(h, start.conv.sessionKey, start.conv.sessionKeyRound, x.party.conv.sessionKeyRound, round);
  }

  lemma {:induction false} NextReady(h: HashFn, s: System, start: Party, rounds: seq<u32>, x: Side)
    requires start == s.left || start == s.right
    requires GoodRounds(s, rounds) && OnLine(h, start, rounds, x) && |x.boxes| < |rounds|
    ensures Ready(x.party, rounds[|x.boxes|])
  {
  }

  /** Composing the next round, seen from outside. */
  lemma {:induction false} ComposeGives(h: HashFn, x: Party, round: u32)
    requires Ready(x, round) && QueueOk(x)
    ensures var x1 := AfterCompose(h, x, round, 0);
            var key := Roll(h, x.conv.sessionKey, x.conv.sessionKeyRound, round);
            var msg := PickText(x.conv, round).1;
            && Boxed(h, x, round) == SecretBox(key, round, x.conv.peer, Marshal(msg))
            && x1.conv.rounds == x.conv.rounds[round := ConvoRound(Boxed(h, x, round), key)]
            && x1.conv.me == x.conv.me && x1.conv.peer == x.conv.peer && x1.conv.ack == x.conv.ack
            && x1.conv.sessionKey == key && x1.conv.sessionKeyRound == round
            && x1.active && x1.lastRound == round && x1.queued == x.queued && x1.restarts == x.restarts
            && x.sent <= x1.sent && OnWire(x1, Boxed(h, x, round)) && NoWrap(x1)
  {
    PickKeepsRounds(x.conv, round);
    ComposedOnWire(h, x, round);
    hide PickText, Marshal, OnWire, NoWrap;
  }

  lemma {:induction false} WireStays(p: Party, q: Party, enc: Cipher)
    requires OnWire(p, enc) && p.sent <= q.sent
    ensures OnWire(q, enc)
  {
  }

  /** What was sent in an earlier round stays as it is when a later round enters the table. */
  lemma {:induction false} SentStays(h: HashFn, start: Party, rounds: seq<u32>, x: Side, x': Side, i: nat)
    requires i < |x.boxes| < |x'.boxes| <= |rounds| && |x.msgs| == |x.boxes| && |x'.msgs| == |x'.boxes|
    requires SentIn(h, start, rounds, x, i)
    requires x'.boxes[i] == x.boxes[i] && x'.msgs[i] == x.msgs[i] && x'.handled == x.handled
    requires x.party.sent <= x'.party.sent && x'.party.conv.peer == x.party.conv.peer
    requires rounds[i] in x.party.conv.rounds ==>
               rounds[i] in x'.party.conv.rounds && x'.party.conv.rounds[rounds[i]] == x.party.conv.rounds[rounds[i]]
    ensures SentIn(h, start, rounds, x', i)
  {
    hide Roll, Marshal, OnWire;
    WireStays(x.party, x'.party, x.boxes[i]);
  }

  lemma {:induction false} ComposeKeepsLine(
    h: HashFn, s: System, start: Party, rounds: seq<u32>, lag: nat, x: Side, y: Side)
    requires start == s.left || start == s.right
    requires CloseTogether(rounds, lag) && GoodRounds(s, rounds) && OnLine(h, start, rounds, x) && QueueOk(x.party)
    requires MayMove(rounds, lag, x, y, ComposeNext)
    ensures OnLine(h, start, rounds, Moved(h, rounds, x, y, ComposeNext))
    ensures Allowed(h, x.party, y.party, Compose(rounds[|x.boxes|], 0))
  {
    NextReady(h, s, start, rounds, x);
    NextKey(h, start, rounds, x);
    ComposeGives(h, x.party, rounds[|x.boxes|]);
    hide AfterCompose, Boxed, PickText, Roll, Marshal, NoWrap, OnWire, QueueOk;
    assert forall i :: i in x.handled ==> i < |x.boxes|;
  }

  lemma {:induction false} ComposeKeepsSent(
    h: HashFn, s: System, start: Party, rounds: seq<u32>, lag: nat, x: Side, y: Side)
    requires start == s.left || start == s.right
    requires CloseTogether(rounds, lag) && GoodRounds(s, rounds) && SideOk(h, start, rounds, x) && QueueOk(x.party)
    requires MayMove(rounds, lag, x, y, ComposeNext)
    ensures AllSent(h, start, rounds, Moved(h, rounds, x, y, ComposeNext))
  {
    var c := |x.boxes|;
    var x' := Moved(h, rounds, x, y, ComposeNext);
    NextReady(h, s, start, rounds, x);
    NextKey(h, start, rounds, x);
    ComposeGives(h, x.party, rounds[c]);
    hide AfterCompose, Boxed, PickText, Roll, Marshal, NoWrap, OnWire, QueueOk, GoodRounds, Ready, KeyAt, MayMove;
    forall i: nat | i < |x'.boxes|
      ensures SentIn(h, start, rounds, x', i)
    {
      if i < c {
        SentStays(h, start, rounds, x, x', i);
      }
    }
  }

  lemma {:induction false} MarshalFits(msg: ConvoMessage)
    ensures Unmarshal(Marshal(msg)) == Some(msg.(text := Fit(msg.text)))
  {
    MarshalRoundTrip(msg);
  }

  /** Every answer is accepted as what the peer composed, whichever order the answers come in. */
  lemma {:induction false} EveryAnswerAccepted(
    h: HashFn, s: System, rounds: seq<u32>, lag: nat, x: Side, y: Side, i: nat)
    requires Setting(h, s, rounds, lag)
    requires SideOk(h, s.left, rounds, x) && SideOk(h, s.right, rounds, y)
    requires MayMove(rounds, lag, y, x, HandleAnswer(i))
    ensures Accept(y.party.conv, rounds[i], x.boxes[i]) == Some(x.msgs[i].(text := Fit(x.msgs[i].text)))
  {
    assert SentIn(h, s.left, rounds, x, i) && SentIn(h, s.right, rounds, y, i);
    MarshalFits(x.msgs[i]);
    hide Marshal, Unmarshal, Fit, OnWire, Roll, GoodRounds, CloseTogether;
  }

  lemma {:induction false} HandleGives(p: Party, round: u32, enc: Cipher)
    ensures var q := AfterHandle(p, round, enc);
            && q.conv.me == p.conv.me && q.conv.peer == p.conv.peer
            && q.conv.sessionKey == p.conv.sessionKey && q.conv.sessionKeyRound == p.conv.sessionKeyRound
            && q.active == p.active && q.lastRound == p.lastRound && q.queued == p.queued
            && q.restarts == p.restarts && q.sent == p.sent
            && (forall r: u32 :: r in q.conv.rounds <==> r in p.conv.rounds && Stays(r, round))
            && (forall r: u32 :: r in q.conv.rounds ==> q.conv.rounds[r] == p.conv.rounds[r])
  {
    hide Prune, Drain, Accept;
  }

  lemma {:induction false} HandleKeepsSide(
    h: HashFn, start: Party, rounds: seq<u32>, lag: nat, x: Side, y: Side, i: nat)
    requires CloseTogether(rounds, lag) && SideOk(h, start, rounds, x) && LagOk(lag, x, y)
    requires |y.boxes| <= |rounds| && MayMove(rounds, lag, x, y, HandleAnswer(i))
    ensures SideOk(h, start, rounds, Moved(h, rounds, x, y, HandleAnswer(i)))
  {
    var x' := Moved(h, rounds, x, y, HandleAnswer(i));
    HandleGives(x.party, rounds[i], y.boxes[i]);
    hide AfterHandle, Roll, Marshal, OnWire, Stays;
    forall j: nat | j < |x'.boxes|
      ensures SentIn(h, start, rounds, x', j)
    {
      assert SentIn(h, start, rounds, x, j);
      WireStays(x.party, x'.party, x.boxes[j]);
      if j !in x'.handled {
        assert j !in x.handled && i < j + lag;
        assert rounds[i] != rounds[j];
        assert rounds[i] <= rounds[j] as int + 10;
        StaysWithinTen(rounds[j], rounds[i]);
      }
    }
  }

  lemma {:induction false} MoveKeepsLag(h: HashFn, rounds: seq<u32>, lag: nat, x: Side, y: Side, m: Move)
    requires LagOk(lag, x, y) && |x.boxes| <= |rounds| && MayMove(rounds, lag, x, y, m)
    requires Matched(x, y)
    ensures LagOk(lag, Moved(h, rounds, x, y, m), y) && Matched(Moved(h, rounds, x, y, m), y)
  {
    hide AfterCompose, AfterHandle, Boxed, PickText;
  }

  lemma {:induction false} MoveKeepsSides(
    h: HashFn, s: System, rounds: seq<u32>, lag: nat, x: Side, y: Side, m: Move)
    requires Setting(h, s, rounds, lag)
    requires SideOk(h, s.left, rounds, x) && SideOk(h, s.right, rounds, y)
    requires LagOk(lag, x, y) && Matched(x, y) && Inv(System(x.party, y.party)) && MayMove(rounds, lag, x, y, m)
    ensures var x' := Moved(h, rounds, x, y, m);
            && SideOk(h, s.left, rounds, x') && LagOk(lag, x', y) && Matched(x', y)
            && Direction(x'.party, y.party) && Direction(y.party, x'.party)
  {
    hide AllSent, LagOk, Matched, Moved, Direction, After, Allowed, CloseTogether, GoodRounds, MayMove;
    MoveKeepsLag(h, rounds, lag, x, y, m);
    hide OnLine;
    match m
    case ComposeNext =>
      ComposeMoveAllowed(h, s, rounds, lag, x, y);
      ActionKeeps(h, x.party, y.party, Compose(rounds[|x.boxes|], 0));
    case HandleAnswer(i) =>
      HandleMoveAllowed(h, s, rounds, lag, x, y, i);
      ActionKeeps(h, x.party, y.party, Handle(rounds[i], y.boxes[i]));
  }

  lemma {:induction false} ComposeMoveAllowed(h: HashFn, s: System, rounds: seq<u32>, lag: nat, x: Side, y: Side)
    requires Setting(h, s, rounds, lag) && SideOk(h, s.left, rounds, x) && Inv(System(x.party, y.party))
    requires MayMove(rounds, lag, x, y, ComposeNext)
    ensures |x.boxes| < |rounds|
    ensures var x' := Moved(h, rounds, x, y, ComposeNext);
            && SideOk(h, s.left, rounds, x') && x'.party == After(h, x.party, Compose(rounds[|x.boxes|], 0))
            && Allowed(h, x.party, y.party, Compose(rounds[|x.boxes|], 0))
  {
    ComposeKeepsLine(h, s, s.left, rounds, lag, x, y);
    ComposeKeepsSent(h, s, s.left, rounds, lag, x, y);
    hide OnLine, AllSent, Allowed, AfterCompose;
  }

  lemma {:induction false} HandleMoveAllowed(
    h: HashFn, s: System, rounds: seq<u32>, lag: nat, x: Side, y: Side, i: nat)
    requires Setting(h, s, rounds, lag)
    requires SideOk(h, s.left, rounds, x) && SideOk(h, s.right, rounds, y) && LagOk(lag, x, y)
    requires MayMove(rounds, lag, x, y, HandleAnswer(i))
    ensures i < |rounds| && i < |x.boxes| && i < |y.boxes|
    ensures var x' := Moved(h, rounds, x, y, HandleAnswer(i));
            && SideOk(h, s.left, rounds, x') && x'.party == After(h, x.party, Handle(rounds[i], y.boxes[i]))
            && Allowed(h, x.party, y.party, Handle(rounds[i], y.boxes[i]))
  {
    HandleKeepsSide(h, s.left, rounds, lag, x, y, i);
    assert SentIn(h, s.right, rounds, y, i);
    hide SideOk, OnWire, AfterHandle;
  }

  // ---------------------------------------------------------------- progress with rounds in flight

  /** The number of rounds that j texts behind the head may take. */
  function Rest(lag: nat, j: nat): nat
    requires 0 < lag
  {
    if j == 0 then 0 else j + 2 * lag - 1 + Rest(lag, j - 1)
  }

  lemma {:induction false} RestClosed(lag: nat, j: nat)
    requires 0 < lag
    ensures 2 * Rest(lag, j) == j * (j + 1) + 2 * (j * (2 * lag - 1))
  {
    if j > 0 {
      RestClosed(lag, j - 1);
      assert j * (2 * lag - 1) == (j - 1) * (2 * lag - 1) + (2 * lag - 1);
    }
  }

  lemma {:induction false} RestGrows(lag: nat, i: nat, j: nat)
    requires 0 < lag && i <= j
    ensures Rest(lag, i) <= Rest(lag, j)
  {
    if i < j {
      RestGrows(lag, i, j - 1);
    }
  }

  predicate IsHead(x: Party, seqNo: int) {
    x.conv.seqBase > 0 && seqNo == x.conv.seqBase + Gone(x)
  }

  /** The head of the queue is on its way to y, marked lowest. */
  ghost predicate HeadComing(lag: nat, x: Side, y: Side, due: int) {
    exists i: nat ::
      && i < |x.boxes| && i < |x.msgs| && i !in y.handled && i + lag + 1 <= due
      && x.msgs[i].lowest && IsHead(x.party, x.msgs[i].seqNo)
  }

  /** y's acknowledgement of the head is on its way to x. */
  ghost predicate AckComing(x: Side, y: Side, due: int) {
    exists j: nat ::
      j < |y.boxes| && j < |y.msgs| && j !in x.handled && j + 1 <= due && HeadDelivered(x.party, y.msgs[j].ack)
  }

  /** When x has handled the first due rounds, the head of its queue is gone. */
  ghost predicate Due(lag: nat, x: Side, y: Side, due: int) {
    || |x.boxes| + ToHead(|x.party.conv.outQueue|, x.party.conv.lastOut) + lag <= due
    || HeadComing(lag, x, y, due)
    || (HeadDelivered(x.party, y.party.conv.ack) && |y.boxes| + 1 <= due)
    || AckComing(x, y, due)
  }

  /** When x has handled the first total rounds, its queue is empty. */
  ghost predicate EmptyBy(lag: nat, x: Side, y: Side, total: int)
    requires 0 < lag
  {
    var k := |x.party.conv.outQueue|;
    k == 0 || Due(lag, x, y, total - Rest(lag, k - 1))
  }

  lemma {:induction false} DueIsAhead(lag: nat, x: Side, y: Side, due: int)
    requires 0 < lag && LagOk(lag, x, y) && Due(lag, x, y, due)
    requires |x.msgs| == |x.boxes| && |y.msgs| == |y.boxes|
    requires forall i :: i in y.handled ==> i < |y.boxes|
    ensures |x.boxes| + 1 <= due + lag
  {
    ToHeadPositive(x.party);
    hide ToHead;
    var next: nat := |y.boxes|;
    assert next !in y.handled;
  }

  /** x composes: the queue stays, and either the position moves on or the head goes out, marked lowest. */
  lemma {:induction false} ComposeMovesOn(h: HashFn, x: Party, round: u32)
    requires QueueOk(x) && PaceOk(x) && Ready(x, round) && x.conv.outQueue != []
    ensures var x' := AfterCompose(h, x, round, 0);
            var msg := PickText(x.conv, round).1;
            && x'.conv.outQueue == x.conv.outQueue && Gone(x') == Gone(x)
            && (x.conv.seqBase > 0 ==> x'.conv.seqBase == x.conv.seqBase)
            && ((msg.lowest && IsHead(x', msg.seqNo))
                || ToHead(|x'.conv.outQueue|, x'.conv.lastOut) + 1 <= ToHead(|x.conv.outQueue|, x.conv.lastOut))
  {
    ComposeShape(h, x, round, 0);
    PickPlace(x, round);
    hide AfterCompose, QueueOk;
  }

  lemma {:induction false} SenderComposes(
    h: HashFn, rounds: seq<u32>, lag: nat, x: Side, y: Side, total: int)
    requires 0 < lag && QueueOk(x.party) && PaceOk(x.party) && |x.boxes| < |rounds| && |x.msgs| == |x.boxes|
    requires Ready(x.party, rounds[|x.boxes|])
    requires forall i :: i in y.handled ==> i < |x.boxes|
    requires EmptyBy(lag, x, y, total)
    ensures EmptyBy(lag, Moved(h, rounds, x, y, ComposeNext), y, total)
  {
    var c := |x.boxes|;
    var x' := Moved(h, rounds, x, y, ComposeNext);
    var k := |x.party.conv.outQueue|;
    if k == 0 {
      ComposeShape(h, x.party, rounds[c], 0);
    } else {
      ComposeMovesOn(h, x.party, rounds[c]);
      hide AfterCompose, Boxed, PickText, ToHead, QueueOk, PaceOk, Ready, Gone;
      var due := total - Rest(lag, k - 1);
      if HeadComing(lag, x, y, due) {
        var i: nat :| i < |x.boxes| && i < |x.msgs| && i !in y.handled && i + lag + 1 <= due
                      && x.msgs[i].lowest && IsHead(x.party, x.msgs[i].seqNo);
        assert x'.msgs[i] == x.msgs[i];
        assert HeadComing(lag, x', y, due);
      } else if AckComing(x, y, due) {
        assert AckComing(x', y, due);
      } else if HeadDelivered(x.party, y.party.conv.ack) && |y.boxes| + 1 <= due {
      } else {
        assert x'.msgs[c] == PickText(x.party.conv, rounds[c]).1;
        assert c !in y.handled;
        var out := x'.msgs[c].lowest && IsHead(x'.party, x'.msgs[c].seqNo);
        assert out && c + lag + 1 <= due ==> HeadComing(lag, x', y, due);
        ToHeadPositive(x.party);
      }
    }
  }

  lemma {:induction false} ToHeadPositive(x: Party)
    ensures ToHead(|x.conv.outQueue|, x.conv.lastOut) >= 1
    ensures ToHead(|x.conv.outQueue|, x.conv.lastOut) <= Max(|x.conv.outQueue|, 1)
  {
  }

  /** y composes: its message carries its acknowledgement. */
  lemma {:induction false} PeerComposes(
    h: HashFn, rounds: seq<u32>, lag: nat, x: Side, y: Side, total: int)
    requires 0 < lag && |y.boxes| < |rounds| && |y.msgs| == |y.boxes|
    requires forall i :: i in x.handled ==> i < |y.boxes|
    requires EmptyBy(lag, x, y, total)
    ensures EmptyBy(lag, x, Moved(h, rounds, y, x, ComposeNext), total)
  {
    var c := |y.boxes|;
    var y' := Moved(h, rounds, y, x, ComposeNext);
    var k := |x.party.conv.outQueue|;
    if k > 0 {
      ComposeShape(h, y.party, rounds[c], 0);
      AckSent(y.party.conv, rounds[c]);
      hide AfterCompose, Boxed, PickText, ToHead, Gone;
      var due := total - Rest(lag, k - 1);
      if HeadComing(lag, x, y, due) {
        assert HeadComing(lag, x, y', due);
      } else if AckComing(x, y, due) {
        var j: nat :| j < |y.boxes| && j < |y.msgs| && j !in x.handled && j + 1 <= due
                      && HeadDelivered(x.party, y.msgs[j].ack);
        assert y'.msgs[j] == y.msgs[j];
        assert AckComing(x, y', due);
      } else if HeadDelivered(x.party, y.party.conv.ack) && |y.boxes| + 1 <= due {
        assert y'.msgs[c].ack == y.party.conv.ack && c !in x.handled;
        assert AckComing(x, y', due);
      }
    }
  }

  lemma {:induction false} AckSent(c: Conv, round: u32)
    ensures PickText(c, round).1.ack == c.ack
  {
  }

  /** y takes in a message: its acknowledgement does not go back, and covers what was marked lowest. */
  lemma {:induction false} AckGoesUp(y: Party, round: u32, enc: Cipher, msg: ConvoMessage)
    requires Accept(y.conv, round, enc) == Some(msg) && 0 !in y.conv.inQueue
    ensures var y' := AfterHandle(y, round, enc);
            y'.conv.ack >= y.conv.ack && (msg.lowest ==> y'.conv.ack >= msg.seqNo)
  {
    hide AfterHandle, Prune, Drain, Accept;
    AcceptedReply(y, round, enc, msg);
    if msg.lowest {
      LowestAcknowledged(TakeAck(y.conv.(rounds := KeepRounds(y.conv.rounds, round)), msg.ack), msg);
    }
  }

  lemma {:induction false} PeerHandles(
    h: HashFn, rounds: seq<u32>, lag: nat, x: Side, y: Side, i: nat, total: int)
    requires 0 < lag && |y.boxes| <= |rounds| && i < |y.boxes| && i < |x.boxes| && |x.msgs| == |x.boxes|
    requires i !in y.handled && LagOk(lag, x, y) && 0 !in y.party.conv.inQueue
    requires Accept(y.party.conv, rounds[i], x.boxes[i]) == Some(x.msgs[i].(text := Fit(x.msgs[i].text)))
    requires EmptyBy(lag, x, y, total)
    ensures EmptyBy(lag, x, Moved(h, rounds, y, x, HandleAnswer(i)), total)
  {
    var y' := Moved(h, rounds, y, x, HandleAnswer(i));
    var k := |x.party.conv.outQueue|;
    if k > 0 {
      AckGoesUp(y.party, rounds[i], x.boxes[i], x.msgs[i].(text := Fit(x.msgs[i].text)));
      hide AfterHandle, ToHead, Gone, Accept, Fit;
      var due := total - Rest(lag, k - 1);
      if HeadComing(lag, x, y, due) {
        var j: nat :| j < |x.boxes| && j < |x.msgs| && j !in y.handled && j + lag + 1 <= due
                      && x.msgs[j].lowest && IsHead(x.party, x.msgs[j].seqNo);
        if j != i {
          assert j !in y'.handled;
          assert HeadComing(lag, x, y', due);
        } else {
          assert HeadDelivered(x.party, y'.party.conv.ack);
          assert |y.boxes| <= i + lag;
        }
      } else if AckComing(x, y, due) {
        assert AckComing(x, y', due);
      }
    }
  }

  /** x takes in an acknowledgement: unless the head goes, nothing changes for it. */
  lemma {:induction false} SenderHandles(
    h: HashFn, rounds: seq<u32>, lag: nat, x: Side, y: Side, i: nat, total: int)
    requires 0 < lag && |x.boxes| <= |rounds| && i < |y.boxes| && i < |x.boxes|
    requires |x.msgs| == |x.boxes| && |y.msgs| == |y.boxes|
    requires forall j :: j in y.handled ==> j < |y.boxes|
    requires i !in x.handled && LagOk(lag, x, y) && 0 !in x.party.conv.inQueue && QueueOk(x.party)
    requires Accept(x.party.conv, rounds[i], y.boxes[i]) == Some(y.msgs[i].(text := Fit(y.msgs[i].text)))
    requires EmptyBy(lag, x, y, total)
    ensures EmptyBy(lag, Moved(h, rounds, x, y, HandleAnswer(i)), y, total)
  {
    var x' := Moved(h, rounds, x, y, HandleAnswer(i));
    var msg := y.msgs[i].(text := Fit(y.msgs[i].text));
    var k := |x.party.conv.outQueue|;
    AcceptedPrunes(x.party, rounds[i], y.boxes[i], msg);
    var n := Reach(x.party.conv.seqBase, Gone(x.party), k, msg.ack);
    if 0 < k {
      var due := total - Rest(lag, k - 1);
      hide AfterHandle, Accept, Fit, QueueOk;
      if n == 0 {
        assert x.party.conv.outQueue[n..] == x.party.conv.outQueue;
        HeadStays(lag, x, x', y, i, due);
      } else if n < k {
        DueIsAhead(lag, x, y, due);
        NextHeadDue(lag, x', y, k, due);
      }
    }
  }

  lemma {:induction false} HeadStays(lag: nat, x: Side, x': Side, y: Side, i: nat, due: int)
    requires |x.party.conv.outQueue| > 0 && i < |y.msgs|
    requires Reach(x.party.conv.seqBase, Gone(x.party), |x.party.conv.outQueue|, y.msgs[i].ack) == 0
    requires x'.boxes == x.boxes && x'.msgs == x.msgs && x'.handled == x.handled + {i}
    requires x'.party.conv.outQueue == x.party.conv.outQueue && x'.party.queued == x.party.queued
    requires x'.party.conv.seqBase == x.party.conv.seqBase && x'.party.conv.lastOut == x.party.conv.lastOut
    requires Due(lag, x, y, due)
    ensures Due(lag, x', y, due)
  {
    if HeadComing(lag, x, y, due) {
      assert HeadComing(lag, x', y, due);
    } else if AckComing(x, y, due) {
      var j: nat :| j < |y.boxes| && j < |y.msgs| && j !in x.handled && j + 1 <= due
                    && HeadDelivered(x.party, y.msgs[j].ack);
      assert j != i;
      assert j !in x'.handled;
      assert AckComing(x', y, due);
    }
  }

  lemma {:induction false} NextHeadDue(lag: nat, x: Side, y: Side, k: nat, due: int)
    requires 0 < lag && 0 < |x.party.conv.outQueue| < k && |x.boxes| + 1 <= due + lag
    ensures EmptyBy(lag, x, y, due + Rest(lag, k - 1))
  {
    ToHeadPositive(x.party);
    RestGrows(lag, |x.party.conv.outQueue|, k - 1);
  }

  lemma {:induction false} MoveKeepsBoundOfSender(
    h: HashFn, s: System, rounds: seq<u32>, lag: nat, x: Side, y: Side, m: Move, total: int)
    requires Setting(h, s, rounds, lag)
    requires SideOk(h, s.left, rounds, x) && SideOk(h, s.right, rounds, y) && LagOk(lag, x, y)
    requires Inv(System(x.party, y.party)) && MayMove(rounds, lag, x, y, m)
    requires Matched(x, y) && EmptyBy(lag, x, y, total)
    ensures EmptyBy(lag, Moved(h, rounds, x, y, m), y, total)
  {
    hide EmptyBy, Moved, AllSent, LagOk, BookOk, SentOk, SeenOk, ShownOk;
    match m
    case ComposeNext =>
      NextReady(h, s, s.left, rounds, x);
      SenderComposes(h, rounds, lag, x, y, total);
    case HandleAnswer(i) =>
      SettingTurned(h, s, rounds, lag);
      EveryAnswerAccepted(h, System(s.right, s.left), rounds, lag, y, x, i);
      BookStartsAtOne(y.party);
      SenderHandles(h, rounds, lag, x, y, i, total);
  }

  lemma {:induction false} MoveKeepsBoundOfPeer(
    h: HashFn, s: System, rounds: seq<u32>, lag: nat, x: Side, y: Side, m: Move, total: int)
    requires Setting(h, s, rounds, lag)
    requires SideOk(h, s.left, rounds, x) && SideOk(h, s.right, rounds, y) && LagOk(lag, x, y)
    requires Inv(System(x.party, y.party)) && MayMove(rounds, lag, y, x, m)
    requires Matched(x, y) && EmptyBy(lag, x, y, total)
    ensures EmptyBy(lag, x, Moved(h, rounds, y, x, m), total)
  {
    hide EmptyBy, Moved, AllSent, LagOk, BookOk, SentOk, SeenOk, ShownOk;
    match m
    case ComposeNext => PeerComposes(h, rounds, lag, x, y, total);
    case HandleAnswer(i) =>
      EveryAnswerAccepted(h, s, rounds, lag, x, y, i);
      BookStartsAtOne(x.party);
      PeerHandles(h, rounds, lag, x, y, i, total);
  }

  // ---------------------------------------------------------------- whole runs

  lemma {:induction false} Turned(h: HashFn, s: System, rounds: seq<u32>, lag: nat, p: Pair)
    requires PairOk(h, s, rounds, lag, p)
    ensures PairOk(h, System(s.right, s.left), rounds, lag, Pair(p.right, p.left))
  {
    hide SideOk, Direction;
  }

  /** A move of the left side keeps the bounds of both. */
  lemma {:induction false} LeftMoveKeeps(
    h: HashFn, s: System, rounds: seq<u32>, lag: nat, p: Pair, m: Move, total: int, peerTotal: int)
    requires Setting(h, s, rounds, lag) && PairOk(h, s, rounds, lag, p)
    requires |p.left.boxes| <= |rounds| && MayMove(rounds, lag, p.left, p.right, m)
    requires EmptyBy(lag, p.left, p.right, total) && EmptyBy(lag, p.right, p.left, peerTotal)
    ensures var t := p.(left := Moved(h, rounds, p.left, p.right, m));
            && PairOk(h, s, rounds, lag, t)
            && EmptyBy(lag, t.left, t.right, total) && EmptyBy(lag, t.right, t.left, peerTotal)
  {
    hide Setting, SideOk, LagOk, Matched, EmptyBy, Direction, MayMove, Moved;
    MoveKeepsSides(h, s, rounds, lag, p.left, p.right, m);
    MoveKeepsBoundOfSender(h, s, rounds, lag, p.left, p.right, m, total);
    SettingTurned(h, s, rounds, lag);
    Turned(h, s, rounds, lag, p);
    MoveKeepsBoundOfPeer(h, System(s.right, s.left), rounds, lag, p.right, p.left, m, peerTotal);
  }

  lemma {:induction false} OkBounded(h: HashFn, s: System, rounds: seq<u32>, lag: nat, p: Pair)
    requires PairOk(h, s, rounds, lag, p)
    ensures Bounded(rounds, p)
  {
    hide AllSent, Direction;
  }

  lemma {:induction false} MoveFits(rounds: seq<u32>, lag: nat, me: Side, peer: Side, m: Move)
    requires MayMove(rounds, lag, me, peer, m)
    ensures m.ComposeNext? ==> |me.boxes| < |rounds|
    ensures m.HandleAnswer? ==> m.i < |me.boxes| && m.i < |peer.boxes|
  {
  }

  lemma {:induction false} FliesKeeps(
    h: HashFn, s: System, rounds: seq<u32>, lag: nat, p: Pair, moves: seq<(bool, Move)>, t: Pair,
    total: int, peerTotal: int)
    requires Setting(h, s, rounds, lag) && PairOk(h, s, rounds, lag, p) && Bounded(rounds, p)
    requires Flies(h, rounds, lag, p, moves, t)
    requires EmptyBy(lag, p.left, p.right, total) && EmptyBy(lag, p.right, p.left, peerTotal)
    ensures PairOk(h, s, rounds, lag, t)
    ensures EmptyBy(lag, t.left, t.right, total) && EmptyBy(lag, t.right, t.left, peerTotal)
    decreases |moves|
  {
    hide Setting, PairOk, EmptyBy, MayMove, Moved;
    if moves != [] {
      var (byLeft, m) := moves[0];
      if byLeft {
        MoveFits(rounds, lag, p.left, p.right, m);
        LeftMoveKeeps(h, s, rounds, lag, p, m, total, peerTotal);
        var next := p.(left := Moved(h, rounds, p.left, p.right, m));
        OkBounded(h, s, rounds, lag, next);
        FliesKeeps(h, s, rounds, lag, next, moves[1..], t, total, peerTotal);
      } else {
        var turned, flipped := System(s.right, s.left), Pair(p.right, p.left);
        MoveFits(rounds, lag, p.right, p.left, m);
        SettingTurned(h, s, rounds, lag);
        Turned(h, s, rounds, lag, p);
        LeftMoveKeeps(h, turned, rounds, lag, flipped, m, peerTotal, total);
        Turned(h, turned, rounds, lag, flipped.(left := Moved(h, rounds, p.right, p.left, m)));
        var next := p.(right := Moved(h, rounds, p.right, p.left, m));
        OkBounded(h, s, rounds, lag, next);
        FliesKeeps(h, s, rounds, lag, next, moves[1..], t, total, peerTotal);
      }
    }
  }

  /** As many rounds as k unacknowledged texts may take with lag rounds in flight. */
  predicate EnoughInFlight(lag: nat, k: nat, n: nat) {
    k > 0 ==> 2 * (n - 1) >= k * (k + 1) + 2 * (k * (2 * lag - 1) - lag)
  }

  /** With one round at a time this is the bound for lossless rounds. */
  lemma {:induction false} OneInFlight(k: nat, n: nat)
    ensures EnoughInFlight(1, k, n) <==> Enough(k, n)
  {
  }

  lemma {:induction false} InFlightClosed(lag: nat, k: nat, n: nat)
    requires 0 < lag && 0 < k
    ensures EnoughInFlight(lag, k, n) <==> n >= k + lag + Rest(lag, k - 1)
  {
    RestClosed(lag, k - 1);
    hide Rest;
    var each := 2 * lag - 1;
    assert (k - 1) * each == k * each - each;
    assert (k - 1) * k == k * (k + 1) - 2 * k;
  }

  lemma {:induction false} BeginsWithin(lag: nat, s: System, n: nat)
    requires 0 < lag && EnoughInFlight(lag, |s.left.conv.outQueue|, n)
    ensures var p := Begin(s); EmptyBy(lag, p.left, p.right, n)
  {
    var k := |s.left.conv.outQueue|;
    hide EnoughInFlight, Rest, ToHead;
    if k > 0 {
      ToHeadPositive(s.left);
      InFlightClosed(lag, k, n);
    }
  }

  /** Once all rounds are over nothing is coming any more. */
  lemma {:induction false} NothingComing(lag: nat, rounds: seq<u32>, x: Side, y: Side, due: int)
    requires Done(rounds, x) && Done(rounds, y)
    ensures Due(lag, x, y, due) ==> due > |rounds|
  {
    ToHeadPositive(x.party);
    hide ToHead;
  }

  lemma {:induction false} DoneIsEmpty(lag: nat, rounds: seq<u32>, x: Side, y: Side)
    requires 0 < lag && Done(rounds, x) && Done(rounds, y) && EmptyBy(lag, x, y, |rounds|)
    ensures x.party.conv.outQueue == []
  {
    hide Due, Done;
    var k := |x.party.conv.outQueue|;
    NothingComing(lag, rounds, x, y, |rounds| - Rest(lag, if k > 0 then k - 1 else 0));
  }

  lemma {:induction false} BeginsOk(h: HashFn, s: System, rounds: seq<u32>, lag: nat)
    requires Inv(s) && 0 < lag && CloseTogether(rounds, lag) && GoodRounds(s, rounds)
    requires rounds != [] && InSync(h, s, rounds[0])
    ensures Setting(h, s, rounds, lag) && PairOk(h, s, rounds, lag, Begin(s))
  {
    hide CloseTogether, GoodRounds, QueueOk, PaceOk, BookOk, WiresOk, SentOk, SeenOk, WaitingOk, ShownOk;
    forall i | 0 <= i < |rounds|
      ensures s.left.conv.sessionKeyRound <= rounds[i] && s.right.conv.sessionKeyRound <= rounds[i]
      ensures KeyAt(h, s.left, rounds[i]) == KeyAt(h, s.right, rounds[i])
    {
      GoUp(rounds, s, i);
      RollComposes(h, s.left.conv.sessionKey, s.left.conv.sessionKeyRound, rounds[0], rounds[i]);
      RollComposes(h, s.right.conv.sessionKey, s.right.conv.sessionKeyRound, rounds[0], rounds[i]);
    }
  }

  lemma {:induction false} GoUp(rounds: seq<u32>, s: System, i: nat)
    requires GoodRounds(s, rounds) && i < |rounds|
    ensures rounds[0] <= rounds[i]
  {
  }

  lemma {:induction false} InFlightKeeps(
    h: HashFn, s: System, rounds: seq<u32>, lag: nat, moves: seq<(bool, Move)>, t: Pair, total: nat, peerTotal: nat)
    requires Inv(s) && 0 < lag && CloseTogether(rounds, lag) && GoodRounds(s, rounds)
    requires rounds != [] && InSync(h, s, rounds[0])
    requires Flies(h, rounds, lag, Begin(s), moves, t)
    requires EnoughInFlight(lag, |s.left.conv.outQueue|, total)
    requires EnoughInFlight(lag, |s.right.conv.outQueue|, peerTotal)
    ensures PairOk(h, s, rounds, lag, t)
    ensures EmptyBy(lag, t.left, t.right, total) && EmptyBy(lag, t.right, t.left, peerTotal)
  {
    BeginsOk(h, s, rounds, lag);
    hide Inv, CloseTogether, GoodRounds, InSync, Flies, EnoughInFlight, PairOk, EmptyBy, Setting;
    BeginsWithin(lag, s, total);
    BeginsWithin(lag, System(s.right, s.left), peerTotal);
    FliesKeeps(h, s, rounds, lag, Begin(s), moves, t, total, peerTotal);
  }

  /** Whatever was composed and handled before, and in whatever order: an answer is accepted as the peer sent it. */
  lemma {:induction false} AcceptedInFlight(
    h: HashFn, a: Name, b: Name, events: seq<Event>, s: System, rounds: seq<u32>, lag: nat,
    moves: seq<(bool, Move)>, t: Pair)
    requires a != b && Run(h, a, b, events, s)
    requires 0 < lag && CloseTogether(rounds, lag) && GoodRounds(s, rounds)
    requires rounds != [] && InSync(h, s, rounds[0])
    requires Flies(h, rounds, lag, Begin(s), moves, t)
    ensures Bounded(rounds, t) && |t.left.msgs| == |t.left.boxes| && |t.right.msgs| == |t.right.boxes|
    ensures forall i: nat :: MayMove(rounds, lag, t.right, t.left, HandleAnswer(i)) ==>
              Accept(t.right.party.conv, rounds[i], t.left.boxes[i])
              == Some(t.left.msgs[i].(text := Fit(t.left.msgs[i].text)))
    ensures forall i: nat :: MayMove(rounds, lag, t.left, t.right, HandleAnswer(i)) ==>
              Accept(t.left.party.conv, rounds[i], t.right.boxes[i])
              == Some(t.right.msgs[i].(text := Fit(t.right.msgs[i].text)))
    ensures || (Done(rounds, t.left) && Done(rounds, t.right))
            || (exists m :: MayMove(rounds, lag, t.left, t.right, m))
            || (exists m :: MayMove(rounds, lag, t.right, t.left, m))
  {
    RunKeepsInv(h, a, b, events, s);
    hide Run, Inv, InSync, GoodRounds, CloseTogether, Flies, Done, EnoughInFlight, EmptyBy, PairOk, Setting;
    PlentyIsEnough(lag, |s.left.conv.outQueue|, |s.left.conv.outQueue|);
    PlentyIsEnough(lag, |s.right.conv.outQueue|, |s.right.conv.outQueue|);
    var most, peerMost := Plenty(lag, |s.left.conv.outQueue|), Plenty(lag, |s.right.conv.outQueue|);
    InFlightKeeps(h, s, rounds, lag, moves, t, most, peerMost);
    BeginsOk(h, s, rounds, lag);
    AnswersAccepted(h, s, rounds, lag, t);
    NeverStuck(rounds, lag, t);
  }

  lemma {:induction false} AnswersAccepted(h: HashFn, s: System, rounds: seq<u32>, lag: nat, t: Pair)
    requires Setting(h, s, rounds, lag) && PairOk(h, s, rounds, lag, t)
    ensures Bounded(rounds, t) && Matched(t.left, t.right)
    ensures |t.left.msgs| == |t.left.boxes| && |t.right.msgs| == |t.right.boxes|
    ensures forall i: nat :: MayMove(rounds, lag, t.right, t.left, HandleAnswer(i)) ==>
              Accept(t.right.party.conv, rounds[i], t.left.boxes[i])
              == Some(t.left.msgs[i].(text := Fit(t.left.msgs[i].text)))
    ensures forall i: nat :: MayMove(rounds, lag, t.left, t.right, HandleAnswer(i)) ==>
              Accept(t.left.party.conv, rounds[i], t.right.boxes[i])
              == Some(t.right.msgs[i].(text := Fit(t.right.msgs[i].text)))
  {
    OkBounded(h, s, rounds, lag, t);
    hide Inv, Accept, Fit, AllSent, LagOk;
    forall i: nat | MayMove(rounds, lag, t.right, t.left, HandleAnswer(i))
      ensures Accept(t.right.party.conv, rounds[i], t.left.boxes[i])
              == Some(t.left.msgs[i].(text := Fit(t.left.msgs[i].text)))
    {
      EveryAnswerAccepted(h, s, rounds, lag, t.left, t.right, i);
    }
    SettingTurned(h, s, rounds, lag);
    forall i: nat | MayMove(rounds, lag, t.left, t.right, HandleAnswer(i))
      ensures Accept(t.left.party.conv, rounds[i], t.right.boxes[i])
              == Some(t.right.msgs[i].(text := Fit(t.right.msgs[i].text)))
    {
      EveryAnswerAccepted(h, System(s.right, s.left), rounds, lag, t.right, t.left, i);
    }
  }

  /**
   Bounded delivery with rounds in flight: from any reachable state, however composing and handling
   interleave with up to lag rounds open at a time and the answers in any order, k unacknowledged texts
   are gone when all of enough rounds are over, and everything queued in this run was delivered.
   */
  lemma {:induction false} EmptiedInFlight(
    h: HashFn, a: Name, b: Name, events: seq<Event>, s: System, rounds: seq<u32>, lag: nat,
    moves: seq<(bool, Move)>, t: Pair)
    requires a != b && Run(h, a, b, events, s)
    requires 0 < lag && CloseTogether(rounds, lag) && GoodRounds(s, rounds)
    requires rounds != [] && InSync(h, s, rounds[0])
    requires Flies(h, rounds, lag, Begin(s), moves, t) && Done(rounds, t.left) && Done(rounds, t.right)
    ensures EnoughInFlight(lag, |s.left.conv.outQueue|, |rounds|) ==> Emptied(t.left.party, t.right.party)
    ensures EnoughInFlight(lag, |s.right.conv.outQueue|, |rounds|) ==> Emptied(t.right.party, t.left.party)
  {
    hide Run, InSync, GoodRounds, CloseTogether, Flies, Done, EnoughInFlight, Emptied, EmptyBy;
    RunKeepsInv(h, a, b, events, s);
    var big := Plenty(lag, |s.left.conv.outQueue| + |s.right.conv.outQueue|);
    hide PairOk;
    if EnoughInFlight(lag, |s.left.conv.outQueue|, |rounds|) {
      PlentyIsEnough(lag, |s.right.conv.outQueue|, |s.left.conv.outQueue| + |s.right.conv.outQueue|);
      InFlightKeeps(h, s, rounds, lag, moves, t, |rounds|, big);
      DoneIsEmpty(lag, rounds, t.left, t.right);
      AllEmptied(h, s, rounds, lag, t);
    }
    if EnoughInFlight(lag, |s.right.conv.outQueue|, |rounds|) {
      PlentyIsEnough(lag, |s.left.conv.outQueue|, |s.left.conv.outQueue| + |s.right.conv.outQueue|);
      InFlightKeeps(h, s, rounds, lag, moves, t, big, |rounds|);
      DoneIsEmpty(lag, rounds, t.right, t.left);
      AllEmptied(h, s, rounds, lag, t);
    }
  }

  /** Enough rounds for up to k texts. */
  function Plenty(lag: nat, k: nat): nat
    requires 0 < lag
  {
    k + lag + Rest(lag, k)
  }

  lemma {:induction false} PlentyIsEnough(lag: nat, j: nat, k: nat)
    requires 0 < lag && j <= k
    ensures EnoughInFlight(lag, j, Plenty(lag, k))
  {
    hide EnoughInFlight, Rest;
    if j > 0 {
      InFlightClosed(lag, j, Plenty(lag, k));
      RestGrows(lag, j - 1, k);
    } else {
      NoneIsEnough(lag, Plenty(lag, k));
    }
  }

  lemma {:induction false} NoneIsEnough(lag: nat, n: nat)
    ensures EnoughInFlight(lag, 0, n)
  {
  }

  /** A queue that is empty after such a run was delivered. */
  lemma {:induction false} AllEmptied(h: HashFn, s: System, rounds: seq<u32>, lag: nat, t: Pair)
    requires PairOk(h, s, rounds, lag, t)
    ensures t.left.party.conv.outQueue == [] ==> Emptied(t.left.party, t.right.party)
    ensures t.right.party.conv.outQueue == [] ==> Emptied(t.right.party, t.left.party)
  {
    hide SideOk, LagOk, Matched, Direction, Emptied;
    EmptyDelivered(t.left.party, t.right.party);
    EmptyDelivered(t.right.party, t.left.party);
  }

  lemma {:induction false} EmptyDelivered(x: Party, y: Party)
    requires Direction(x, y)
    ensures x.conv.outQueue == [] ==> Emptied(x, y)
  {
    if x.conv.outQueue == [] {
      EmptyAfter(x, y, x, y, 0);
    }
  }

  /** If nobody has restarted, everything queued is then on the peer's screen. */
  lemma {:induction false} DeliveredInFlight(
    h: HashFn, a: Name, b: Name, events: seq<Event>, s: System, rounds: seq<u32>, lag: nat,
    moves: seq<(bool, Move)>, t: Pair)
    requires a != b && Run(h, a, b, events, s)
    requires s.left.restarts == 0 && s.right.restarts == 0
    requires 0 < lag && CloseTogether(rounds, lag) && GoodRounds(s, rounds)
    requires rounds != [] && InSync(h, s, rounds[0])
    requires Flies(h, rounds, lag, Begin(s), moves, t) && Done(rounds, t.left) && Done(rounds, t.right)
    ensures EnoughInFlight(lag, |s.left.conv.outQueue|, |rounds|) ==>
              Display(t.right.party.texts) == ShownAll(s.left.queued)
    ensures EnoughInFlight(lag, |s.right.conv.outQueue|, |rounds|) ==>
              Display(t.left.party.texts) == ShownAll(s.right.queued)
  {
    hide Run, InSync, GoodRounds, CloseTogether, Flies, Done, EnoughInFlight, Emptied, EmptyBy, PairOk;
    EmptiedInFlight(h, a, b, events, s, rounds, lag, moves, t);
    RunKeepsInv(h, a, b, events, s);
    var big := Plenty(lag, |s.left.conv.outQueue| + |s.right.conv.outQueue|);
    PlentyIsEnough(lag, |s.left.conv.outQueue|, |s.left.conv.outQueue| + |s.right.conv.outQueue|);
    PlentyIsEnough(lag, |s.right.conv.outQueue|, |s.left.conv.outQueue| + |s.right.conv.outQueue|);
    InFlightKeeps(h, s, rounds, lag, moves, t, big, big);
    SameQueued(h, s, rounds, lag, t);
    if EnoughInFlight(lag, |s.left.conv.outQueue|, |rounds|) {
      AllDisplayed(t.left.party, t.right.party);
    }
    if EnoughInFlight(lag, |s.right.conv.outQueue|, |rounds|) {
      AllDisplayed(t.right.party, t.left.party);
    }
  }

  lemma {:induction false} SameQueued(h: HashFn, s: System, rounds: seq<u32>, lag: nat, t: Pair)
    requires PairOk(h, s, rounds, lag, t)
    ensures t.left.party.queued == s.left.queued && t.right.party.queued == s.right.queued
    ensures t.left.party.restarts == s.left.restarts && t.right.party.restarts == s.right.restarts
    ensures Direction(t.left.party, t.right.party) && Direction(t.right.party, t.left.party)
  {
    hide AllSent, Direction, LagOk, Matched;
  }
}
