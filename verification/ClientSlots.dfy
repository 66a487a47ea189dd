/**
 The two client objects at the ends of a round: the one that gives every conversation a slot and hands
 it that slot's reply, and the one that keeps each round's onion keys and opens the reply onions.
 */
module ClientSlots {
  import opened Common
  import opened Ratchet
  import opened Conversations
  import Onions

  const NUM_OUTGOING: nat := 5

  predicate NoRepeats<T(==)>(s: seq<T>) {
    forall i, j :: 0 <= i < j < |s| ==> s[i] != s[j]
  }

  lemma {:induction false} ExtendNoRepeats<T>(s: seq<T>)
    ensures NoRepeats<T>([])
    ensures NoRepeats(s) ==> forall x :: x !in s ==> NoRepeats(s + [x])
  {
  }

  /** Handling a reply leaves the ratchet alone. */
  lemma {:induction false} ReplyKeepsKey(c: Conv, round: u32, enc: Cipher)
    ensures Reply(c, round, enc).0.sessionKey == c.sessionKey
  {
    hide KeepRounds, Prune, Drain, Accept;
  }

  class GuiClient {
    var active: set<Conversation>
    var pendingRounds: map<u32, seq<Conversation>>

    /** At most five conversations are active, so every round fits its five slots. */
    ghost predicate Valid()
      reads this, active
    {
      && |active| <= NUM_OUTGOING
      && (forall c :: c in active ==> |c.sessionKey| == SIZE_KEY)
      && (forall r :: r in pendingRounds ==> |pendingRounds[r]| <= NUM_OUTGOING && NoRepeats(pendingRounds[r]))
    }

    constructor ()
      ensures Valid() && active == {} && pendingRounds == map[]
    {
      active := {};
      pendingRounds := map[];
    }

    /**
     Five messages, whatever is active: slot i is composed by the conversation that is remembered for
     it, every active conversation has exactly one slot, and the rest is noise.
     */
    method Outgoing(h: HashFn, round: u32, noise: nat -> nat)
      returns (out: seq<Conversations.Outgoing>, ghost convos: seq<Conversation>)
      requires IsHash(h) && Valid()
      modifies this`pendingRounds, active
      ensures Valid() && |out| == 5
      ensures pendingRounds == old(pendingRounds)[round := convos]
      ensures |convos| == |active| && NoRepeats(convos) && forall c :: c in active <==> c in convos
      ensures forall i :: 0 <= i < |convos| ==>
        convos[i] in old(active) && (convos[i].Value(), out[i]) == Next(h, old(convos[i].Value()), round, noise(i))
      ensures forall i :: |convos| <= i < 5 ==> out[i] == Dummy(noise(i))
    {
      var composers;
      out, composers := ComposeActive(h, round, noise);
      convos := composers;
      ghost var composed := out;
      while |out| < NUM_OUTGOING
        invariant |convos| <= |out| <= NUM_OUTGOING && out[..|convos|] == composed
        invariant forall i :: |convos| <= i < |out| ==> out[i] == Dummy(noise(i))
      {
        out := out + [Dummy(noise(|out|))];
      }
      forall i | 0 <= i < |convos|
        ensures out[i] == composed[i]
      {
        assert out[..|convos|][i] == composed[i];
      }
      pendingRounds := pendingRounds[round := composers];
    }

    /** The active conversations in some order, each asked once for its message. */
    method ComposeActive(h: HashFn, round: u32, noise: nat -> nat)
      returns (out: seq<Conversations.Outgoing>, convos: seq<Conversation>)
      requires IsHash(h) && Valid()
      modifies active
      ensures Valid() && |out| == |convos| == |active| && NoRepeats(convos)
      ensures forall c :: c in active <==> c in convos
      ensures forall i :: 0 <= i < |convos| ==>
        convos[i] in old(active) && (convos[i].Value(), out[i]) == Next(h, old(convos[i].Value()), round, noise(i))
    {
      hide Next, NoRepeats, Conversation.Value;
      ghost var was := map c | c in active :: c.Value();
      out := [];
      convos := [];
      assert NoRepeats(convos) by { ExtendNoRepeats(convos); }
      var todo := active;
      while todo != {}
        invariant todo <= active && |out| == |convos| && |convos| + |todo| == |active|
        invariant forall c :: c in active <==> c in todo || c in convos
        invariant forall c :: c in convos ==> c !in todo
        invariant NoRepeats(convos)
        invariant forall c :: c in active ==> |c.sessionKey| == SIZE_KEY
        invariant forall c :: c in todo ==> c.Value() == was[c]
        invariant forall i :: 0 <= i < |convos| ==>
          convos[i] in was && (convos[i].Value(), out[i]) == Next(h, was[convos[i]], round, noise(i))
        decreases todo
      {
        var convo: Conversation :| convo in todo;
        ExtendNoRepeats(convos);
        var msg := convo.NextMessage(h, round, noise(|convos|));
        out := out + [msg];
        convos := convos + [convo];
        todo := todo - {convo};
      }
    }

    /** The conversations that composed a round's slots, in the order of the slots. */
    function Composers(round: u32): seq<Conversation>
      reads this
    {
      if round in pendingRounds then pendingRounds[round] else []
    }

    lemma {:induction false} ComposersDiffer(round: u32)
      requires Valid()
      ensures var convos := Composers(round);
              forall i, j :: 0 <= i < |convos| && 0 <= j < |convos| && i != j ==> convos[i] != convos[j]
    {
    }

    /** Slot i's reply goes to the conversation that composed slot i, and to no other. */
    method Replies(round: u32, replies: seq<Cipher>) returns (shown: seq<seq<Bytes>>)
      requires Valid() && |Composers(round)| <= |replies|
      modifies this`pendingRounds, Composers(round)
      ensures Valid()
      ensures pendingRounds == old(pendingRounds) - {round} && |shown| == |old(Composers(round))|
      ensures forall i :: 0 <= i < |shown| ==>
        (var (after, texts) := Reply(old(Composers(round)[i].Value()), round, replies[i]);
         old(Composers(round))[i].Value() == after && shown[i] == Display(texts))
    {
      hide Reply, NoRepeats;
      var convos := Composers(round);
      ghost var was := seq(|convos|, k requires 0 <= k < |convos| => old(convos[k].Value()));
      ComposersDiffer(round);
      pendingRounds := pendingRounds - {round};
      shown := [];
      for i := 0 to |convos|
        invariant |shown| == i
        invariant pendingRounds == old(pendingRounds) - {round}
        invariant forall c :: c in active ==> |c.sessionKey| == SIZE_KEY
        invariant forall k :: i <= k < |convos| ==> convos[k].Value() == was[k]
        invariant forall k :: 0 <= k < i ==>
          (var (after, texts) := Reply(was[k], round, replies[k]);
           convos[k].Value() == after && shown[k] == Display(texts))
      {
        ReplyKeepsKey(convos[i].Value(), round, replies[i]);
        var texts := convos[i].HandleReply(round, replies[i]);
        shown := shown + [texts];
      }
    }

    /**
     A round of this client, from composing to replies; answer is what comes back for a slot's message.
     Every active conversation composes once and handles the answer to its own message.
     */
    method PlayRound(h: HashFn, round: u32, noise: nat -> nat, answer: Conversations.Outgoing -> Cipher)
      returns (shown: seq<seq<Bytes>>, ghost convos: seq<Conversation>)
      requires IsHash(h) && Valid()
      modifies this`pendingRounds, active
      ensures Valid() && pendingRounds == old(pendingRounds) - {round}
      ensures |shown| == |convos| == |active| && NoRepeats(convos) && forall c :: c in active <==> c in convos
      ensures forall i :: 0 <= i < |convos| ==>
        convos[i] in old(active) &&
        var (composed, out) := Next(h, old(convos[i].Value()), round, noise(i));
        var (after, texts) := Reply(composed, round, answer(out));
        convos[i].Value() == after && shown[i] == Display(texts)
    {
      hide Next, Reply;
      var out;
      out, convos := Outgoing(h, round, noise);
      var replies := seq(|out|, i requires 0 <= i < |out| => answer(out[i]));
      assert Composers(round) == convos;
      shown := Replies(round, replies);
    }

    /** A sixth conversation is refused; so is one that is already active when five are. */
    method ActivateConvo(convo: Conversation, sessionKey: Bytes, convoRound: u32) returns (ok: bool)
      requires Valid() && |sessionKey| == SIZE_KEY
      modifies this`active, convo`sessionKey, convo`sessionKeyRound, convo`lastOut
      ensures Valid() && ok == (|old(active)| < 5)
      ensures active == if ok then old(active) + {convo} else old(active)
      ensures convo.Value() == if ok then Activate(old(convo.Value()), sessionKey, convoRound) else old(convo.Value())
    {
      if |active| >= NUM_OUTGOING {
        return false;
      }
      active := active + {convo};
      convo.sessionKey, convo.sessionKeyRound, convo.lastOut := sessionKey, convoRound, -1;
      return true;
    }

    method DeactivateConvo(convo: Conversation) returns (ok: bool)
      requires Valid()
      modifies this`active
      ensures Valid() && ok == (convo in old(active)) && active == old(active) - {convo}
    {
      ok := convo in active;
      if ok {
        active := active - {convo};
      }
    }
  }

  // ---------------------------------------------------------------- rounds and their onion keys

  /** A configuration of the service, as far as rounds depend on it. */
  datatype ConvoConfig = ConvoConfig(hash: Bytes, numMixers: nat)

  /** A round the client takes part in; its keys are there once its onions have been sealed. */
  datatype RoundState = RoundState(config: ConvoConfig, onionKeys: Option<seq<seq<Onions.Key>>>)

  datatype Announced = RunIt | TooLate | AlreadyKnown | DifferentConfigs | NoConfig

  datatype ReplyResult =
    | Messages(msgs: seq<Option<Bytes>>)
    | NotConfigured
    | NoKeys
    | WrongCount(want: nat, got: nat)

  /** Slot i's message, if its onion has the right size and opens under slot i's keys. */
  function OpenSlot(
    c: Onions.Crypto, round: u32, st: RoundState, keys: seq<Onions.Key>, size: nat, onion: Bytes): Option<Bytes>
  {
    if |onion| != size + st.config.numMixers * Onions.BOX_OVERHEAD then None
    else Onions.Peel(c, Onions.BackwardNonce(round), keys, onion)
  }

  class Client {
    var latestRound: u32
    var rounds: map<u32, RoundState>
    var convoConfig: ConvoConfig

    constructor (config: ConvoConfig)
      ensures latestRound == 0 && rounds == map[] && convoConfig == config
    {
      latestRound := 0;
      convoConfig := config;
      rounds := map[];
    }

    /** Announcements may come out of order; the latest round never goes back. */
    method SetLatestRound(round: u32)
      modifies this`latestRound
      ensures latestRound == Max(old(latestRound), round)
    {
      if round > latestRound {
        latestRound := round;
      }
    }

    /**
     A round is run once however often it is announced, under the configuration of its first announcement,
     and not when its end is too near. An unknown configuration is fetched and becomes the current one.
     */
    method NewConvoRound(round: u32, hash: Bytes, tooLate: bool, fetch: Bytes -> Option<ConvoConfig>)
      returns (r: Announced)
      modifies this
      ensures latestRound == Max(old(latestRound), round)
      ensures r.TooLate? <==> tooLate
      ensures r.AlreadyKnown? <==> !tooLate && round in old(rounds) && old(rounds)[round].config.hash == hash
      ensures r.DifferentConfigs? <==> !tooLate && round in old(rounds) && old(rounds)[round].config.hash != hash
      ensures r.NoConfig? <==>
        !tooLate && round !in old(rounds) && hash != old(convoConfig).hash && fetch(hash).None?
      ensures convoConfig ==
        if !tooLate && round !in old(rounds) && hash != old(convoConfig).hash && fetch(hash).Some?
        then fetch(hash).value.(hash := hash) else old(convoConfig)
      ensures rounds == if r.RunIt? then old(rounds)[round := RoundState(convoConfig, None)] else old(rounds)
      ensures r.RunIt? ==> convoConfig.hash == hash
    {
      SetLatestRound(round);
      if tooLate {
        return TooLate;
      }
      if round in rounds {
        return if rounds[round].config.hash != hash then DifferentConfigs else AlreadyKnown;
      }
      if hash != convoConfig.hash {
        var fetched := fetch(hash);
        if fetched.None? {
          return NoConfig;
        }
        convoConfig := fetched.value.(hash := hash);
      }
      rounds := rounds[round := RoundState(convoConfig, None)];
      return RunIt;
    }

    /** The onions of a round's messages; their keys are kept under the same slots. */
    method SealMessages(c: Onions.Crypto, round: u32, msgs: seq<Bytes>, ephs: seq<seq<Onions.Key>>, servers: seq<Bytes>)
      returns (onions: seq<Bytes>)
      requires round in rounds && |ephs| == |msgs|
      requires forall i :: 0 <= i < |ephs| ==> |ephs[i]| == |servers|
      modifies this`rounds
      ensures |onions| == |msgs|
      ensures forall i :: 0 <= i < |msgs| ==>
        onions[i] == Onions.SealOnion(c, Onions.ForwardNonce(round), ephs[i], servers, msgs[i])
      ensures round in rounds && rounds == old(rounds)[round := rounds[round]]
      ensures rounds[round].config == old(rounds)[round].config
      ensures rounds[round].onionKeys == Some(KeysFor(c, ephs, servers))
    {
      onions := [];
      var keys := [];
      for i := 0 to |msgs|
        invariant |onions| == |keys| == i
        invariant forall k :: 0 <= k < i ==>
          onions[k] == Onions.SealOnion(c, Onions.ForwardNonce(round), ephs[k], servers, msgs[k])
        invariant forall k :: 0 <= k < i ==> keys[k] == Onions.ClientKeys(c, ephs[k], servers)
      {
        onions := onions + [Onions.SealOnion(c, Onions.ForwardNonce(round), ephs[i], servers, msgs[i])];
        keys := keys + [Onions.ClientKeys(c, ephs[i], servers)];
      }
      assert keys == KeysFor(c, ephs, servers);
      rounds := rounds[round := rounds[round].(onionKeys := Some(keys))];
    }

    /** Opens a reply; size is that of an encrypted message body. The round is over only when this succeeds. */
    method OpenReplyOnion(c: Onions.Crypto, round: u32, size: nat, onions: seq<Bytes>) returns (r: ReplyResult)
      modifies this`rounds
      ensures r.NotConfigured? <==> round !in old(rounds)
      ensures r.NoKeys? <==> round in old(rounds) && old(rounds)[round].onionKeys.None?
      ensures r.WrongCount? <==>
        round in old(rounds) && old(rounds)[round].onionKeys.Some? && |old(rounds)[round].onionKeys.value| != |onions|
      ensures r.Messages? ==>
        && |r.msgs| == |onions|
        && forall i :: 0 <= i < |onions| ==>
             r.msgs[i] == OpenSlot(c, round, old(rounds)[round], old(rounds)[round].onionKeys.value[i], size, onions[i])
             && (r.msgs[i].Some? ==> |onions[i]| == size + 16 * old(rounds)[round].config.numMixers)
      ensures rounds == if r.Messages? then old(rounds) - {round} else old(rounds)
    {
      if round !in rounds {
        return NotConfigured;
      }
      var st := rounds[round];
      if st.onionKeys.None? {
        return NoKeys;
      }
      var onionKeys := st.onionKeys.value;
      if |onionKeys| != |onions| {
        return WrongCount(|onionKeys|, |onions|);
      }
      var expectedOnionSize := size + st.config.numMixers * Onions.BOX_OVERHEAD;
      var msgs: seq<Option<Bytes>> := [];
      for i := 0 to |onions|
        invariant |msgs| == i
        invariant forall k :: 0 <= k < i ==> msgs[k] == OpenSlot(c, round, st, onionKeys[k], size, onions[k])
      {
        if |onions[i]| != expectedOnionSize {
          msgs := msgs + [None];
        } else {
          msgs := msgs + [Onions.Peel(c, Onions.BackwardNonce(round), onionKeys[i], onions[i])];
        }
      }
      rounds := rounds - {round};
      return Messages(msgs);
    }
  }

  function KeysFor(c: Onions.Crypto, ephs: seq<seq<Onions.Key>>, servers: seq<Bytes>): (keys: seq<seq<Onions.Key>>)
    requires forall i :: 0 <= i < |ephs| ==> |ephs[i]| == |servers|
    ensures |keys| == |ephs|
    ensures forall i :: 0 <= i < |keys| ==> keys[i] == Onions.ClientKeys(c, ephs[i], servers)
  {
    seq(|ephs|, i requires 0 <= i < |ephs| => Onions.ClientKeys(c, ephs[i], servers))
  }
}
