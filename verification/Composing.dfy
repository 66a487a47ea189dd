/** What a conversation puts on the wire means to the peer, to a lone user and to a user who talks to themself. */
module Composing {
  import opened Common
  import opened ConvoWire
  import opened Ratchet
  import opened Conversations

  /** The message of a round reaches the drop where the peer's does, and opens there for the peer alone. */
  lemma {:induction false} PeersMeet(h: HashFn, x: Conv, y: Conv, round: u32, noise: nat)
    requires x.me == y.peer && x.peer == y.me
    requires x.sessionKeyRound <= round && y.sessionKeyRound <= round
    requires Roll(h, x.sessionKey, x.sessionKeyRound, round) == Roll(h, y.sessionKey, y.sessionKeyRound, round)
    ensures var mine, theirs := Next(h, x, round, noise).1, Next(h, y, round, noise).1;
            && mine.DeadDropMessage? && theirs.DeadDropMessage? && mine.drop == theirs.drop
            && mine.drop.round == round
            && forall name :: (Open(name, mine.enc, round, mine.drop.key).Some? <==> name == y.me)
  {
    PickKeepsKey(x, round);
    PickKeepsKey(y, round);
    hide PickText, Roll, Marshal;
  }

  lemma {:induction false} PickKeepsKey(c: Conv, round: u32)
    ensures var p := PickText(c, round).0;
            p.sessionKey == c.sessionKey && p.sessionKeyRound == c.sessionKeyRound && p.rounds == c.rounds
            && p.me == c.me && p.peer == c.peer && p.inQueue == c.inQueue && p.ack == c.ack
  {
  }

  /** Two conversations activated with one key for one round meet in that round and in every later one. */
  lemma {:induction false} ActivatedPeersMeet(
    h: HashFn, x: Conv, y: Conv, key: Bytes, keyRound: u32, round: u32, noise: nat)
    requires x.me == y.peer && x.peer == y.me && keyRound <= round
    ensures var mine, theirs := Next(h, Activate(x, key, keyRound), round, noise).1,
                                Next(h, Activate(y, key, keyRound), round, noise).1;
            && mine.DeadDropMessage? && theirs.DeadDropMessage? && mine.drop == theirs.drop
            && mine.drop.key == Roll(h, key, keyRound, round)
            && Open(y.me, mine.enc, round, theirs.drop.key).Some?
            && Open(x.me, theirs.enc, round, mine.drop.key).Some?
  {
    PeersMeet(h, Activate(x, key, keyRound), Activate(y, key, keyRound), round, noise);
    PickKeepsKey(Activate(x, key, keyRound), round);
    PickKeepsKey(Activate(y, key, keyRound), round);
    hide PickText, Roll, Marshal;
  }

  /** A round that the ratchet has passed gets noise: no key, no pending round, and the ratchet stays. */
  lemma {:induction false} PassedRoundIsNoise(h: HashFn, c: Conv, round: u32, noise: nat)
    ensures var (after, out) := Next(h, c, round, noise);
            && (out.Dummy? <==> round < c.sessionKeyRound)
            && (out.Dummy? ==> out.noise == noise && after.rounds == c.rounds && after.sessionKey == c.sessionKey
                               && after.sessionKeyRound == c.sessionKeyRound)
            && (out.DeadDropMessage? ==> after.rounds.Keys == c.rounds.Keys + {round} && after.sessionKeyRound == round)
  {
    PickKeepsKey(c, round);
    hide PickText, Roll, Marshal;
  }

  /**
   A box that comes back unchanged, which is what a lone user of a drop gets, is taken for a message if
   and only if the conversation is with oneself.
   */
  lemma {:induction false} EchoTakenExactly(h: HashFn, c: Conv, round: u32, noise: nat)
    requires Next(h, c, round, noise).1.DeadDropMessage?
    ensures var (after, out) := Next(h, c, round, noise);
            var msg := PickText(c, round).1;
            Accept(after, round, out.enc) == if c.me == c.peer then Some(msg.(text := Fit(msg.text))) else None
  {
    PickKeepsKey(c, round);
    MarshalRoundTrip(PickText(c, round).1);
    hide PickText, Roll, Marshal, Unmarshal, Fit;
  }

  /** With nothing to send a conversation still sends: an acknowledgement, which delivers no text to the peer. */
  lemma {:induction false} CoverDeliversNothing(c: Conv, round: u32, peer: Conv)
    requires c.outQueue == []
    ensures var (after, msg) := PickText(c, round);
            && after == c && msg.ack == c.ack && Receive(peer, msg) == (peer, [])
            && |msg.text| == 231 && forall i :: 0 <= i < 231 ==> msg.text[i] == 0
  {
  }
}
