/** Overlapping rounds: several are composed before any of them is answered. What keeps an answer acceptable. */
module Overlap {
  import opened Common
  import opened ConvoWire
  import opened Ratchet
  import opened Conversations
  import opened Delivery
  import opened BoundedDelivery

  ghost function AfterAll(h: HashFn, p: Party, actions: seq<Action>): Party
    decreases |actions|
  {
    if actions == [] then p else AfterAll(h, After(h, p, actions[0]), actions[1..])
  }

  /** Handling an answer forgets this round, and every round more than ten older, on uint32; a restart forgets all. */
  predicate Forgets(a: Action, round: u32) {
    a.Restart? || (a.Handle? && !Stays(round, a.round))
  }

  lemma {:induction false} ForgetsExactly(h: HashFn, p: Party, a: Action, round: u32)
    requires a.Compose? ==> a.round != round
    ensures var q := After(h, p, a);
            && q.conv.me == p.conv.me && q.conv.peer == p.conv.peer
            && (round in q.conv.rounds <==> round in p.conv.rounds && !Forgets(a, round))
            && (round in q.conv.rounds ==> q.conv.rounds[round] == p.conv.rounds[round])
  {
    hide Prune, Drain, PickText, Receive;
    if a.Handle? && Accept(p.conv, a.round, a.enc).Some? {
      ReceiveKeepsRounds(TakeAck(p.conv.(rounds := KeepRounds(p.conv.rounds, a.round)),
                                 Accept(p.conv, a.round, a.enc).value.ack),
                         Accept(p.conv, a.round, a.enc).value);
    } else if a.Compose? {
      PickKeepsRounds(p.conv, a.round);
    }
  }

  lemma {:induction false} ReceiveKeepsRounds(c: Conv, msg: ConvoMessage)
    ensures Receive(c, msg).0 == c.(inQueue := Receive(c, msg).0.inQueue, ack := Receive(c, msg).0.ack)
  {
    hide Drain;
  }

  lemma {:induction false} PickKeepsRounds(c: Conv, round: u32)
    ensures var p := PickText(c, round).0; p == c.(seqBase := p.seqBase, lastOut := p.lastOut)
  {
  }

  lemma {:induction false} GoneForGood(h: HashFn, p: Party, actions: seq<Action>, round: u32)
    requires round !in p.conv.rounds
    requires forall i :: 0 <= i < |actions| && actions[i].Compose? ==> actions[i].round != round
    ensures round !in AfterAll(h, p, actions).conv.rounds
    decreases |actions|
  {
    hide After, Forgets;
    if actions != [] {
      ForgetsExactly(h, p, actions[0], round);
      GoneForGood(h, After(h, p, actions[0]), actions[1..], round);
    }
  }

  /** A round stays pending through any actions exactly as long as none of them forgets it. */
  lemma {:induction false} PendingExactly(h: HashFn, p: Party, actions: seq<Action>, round: u32)
    requires round in p.conv.rounds
    requires forall i :: 0 <= i < |actions| && actions[i].Compose? ==> actions[i].round != round
    ensures var q := AfterAll(h, p, actions);
            && q.conv.me == p.conv.me && q.conv.peer == p.conv.peer
            && (round in q.conv.rounds <==> forall i :: 0 <= i < |actions| ==> !Forgets(actions[i], round))
            && (round in q.conv.rounds ==> q.conv.rounds[round] == p.conv.rounds[round])
    decreases |actions|
  {
    hide After, Forgets;
    if actions != [] {
      var rest := actions[1..];
      var p' := After(h, p, actions[0]);
      ForgetsExactly(h, p, actions[0], round);
      NamesStay(h, p', rest);
      if Forgets(actions[0], round) {
        GoneForGood(h, p', rest, round);
      } else {
        PendingExactly(h, p', rest, round);
        assert forall i :: 0 < i < |actions| ==> actions[i] == rest[i - 1];
        assert forall i :: 0 <= i < |rest| ==> rest[i] == actions[i + 1];
      }
    }
  }

  lemma {:induction false} NamesStay(h: HashFn, p: Party, actions: seq<Action>)
    ensures var q := AfterAll(h, p, actions); q.conv.me == p.conv.me && q.conv.peer == p.conv.peer
    decreases |actions|
  {
    if actions != [] {
      NamesStayOnce(h, p, actions[0]);
      NamesStay(h, After(h, p, actions[0]), actions[1..]);
    }
  }

  lemma {:induction false} NamesStayOnce(h: HashFn, p: Party, a: Action)
    ensures After(h, p, a).conv.me == p.conv.me && After(h, p, a).conv.peer == p.conv.peer
  {
    hide Prune, Drain;
  }

  /**
   Overlapping rounds: x and y both compose for a round, and then y does anything at all, such as
   composing for other rounds and handling their answers. y accepts what x sent in the round, as x
   sent it, if and only if nothing y did meanwhile forgets the round.
   */
  lemma {:induction false} AcceptedExactly(h: HashFn, x: Party, y: Party, round: u32, actions: seq<Action>)
    requires Paired(h, x, y, round)
    requires x.conv.me == y.conv.peer && x.conv.peer == y.conv.me && x.conv.me != y.conv.me
    requires forall i :: 0 <= i < |actions| && actions[i].Compose? ==> actions[i].round != round
    ensures var q := AfterAll(h, AfterCompose(h, y, round, 0), actions);
            var msg := PickText(x.conv, round).1;
            && (Accept(q.conv, round, Boxed(h, x, round)).Some? <==>
                  forall i :: 0 <= i < |actions| ==> !Forgets(actions[i], round))
            && (Accept(q.conv, round, Boxed(h, x, round)).Some? ==>
                  Accept(q.conv, round, Boxed(h, x, round)) == Some(msg.(text := Fit(msg.text))))
  {
    var y1 := AfterCompose(h, y, round, 0);
    PeerAccepts(h, x, y, round);
    assert round in y1.conv.rounds;
    PendingExactly(h, y1, actions, round);
    hide PickText, Boxed, AfterCompose, AfterAll, Unmarshal, Open, Fit, Forgets;
  }

  /** From round 10 on, answers that come in any order within ten rounds forget nothing but their own. */
  lemma {:induction false} StaysWithinTen(r: u32, round: u32)
    requires 10 <= round
    ensures Stays(r, round) <==> r != round && round <= r + 10
  {
  }

  /** Before round 10 the subtraction wraps, and an answer forgets all rounds but the very last ones. */
  lemma {:induction false} EarlyAnswersForget(r: u32, round: u32)
    requires round < 10
    ensures Stays(r, round) <==> r >= TWO_TO_THE_32 - 10 + round
  {
  }
}
