/** The assumptions about mixed rounds can be met, for any number of rounds: one mixer, two clients. */
module MixedExample {
  import opened Common
  import opened ConvoWire
  import opened Onions
  import opened Shuffles
  import opened MixRounds
  import opened ChainRouting
  import opened DeadDrops
  import opened EndToEnd
  import opened Batching
  import opened SlotAlignment
  import opened MixedDelivery
  import R = Ratchet
  import V = Conversations
  import D = Delivery
  import B = BoundedDelivery
  import Redelivery

  /** The body of a box names its round and, in its last byte, which of two names it is for. */
  function BodyFor(name: V.Name, c: V.Cipher): (b: Bytes)
    ensures |b| == SIZE_ENCRYPTED_BODY
  {
    match c
    case SecretBox(_, round, recipient, _) =>
      BigEndian32(round) + Zeros(SIZE_ENCRYPTED_BODY - 5) + [if recipient == name then 0 else 1]
    case Noise(_) => Zeros(SIZE_ENCRYPTED_BODY)
  }

  lemma {:induction false} BodiesDiffer(name: V.Name, x: V.Cipher, y: V.Cipher)
    requires x.SecretBox? && y.SecretBox?
    requires x.round != y.round || (x.recipient == name) != (y.recipient == name)
    ensures BodyFor(name, x) != BodyFor(name, y)
  {
    var a, b := BodyFor(name, x), BodyFor(name, y);
    assert a[..4] == BigEndian32(x.round) && b[..4] == BigEndian32(y.round);
    BigEndianRoundTrip(x.round);
    BigEndianRoundTrip(y.round);
    assert a[SIZE_ENCRYPTED_BODY - 1] == (if x.recipient == name then 0 else 1);
    assert b[SIZE_ENCRYPTED_BODY - 1] == (if y.recipient == name then 0 else 1);
  }

  type Table = map<Bytes, V.Cipher>

  /** An encoding that takes bytes for what a table has under them. */
  function Reading(name: V.Name, table: Table): Encoding {
    Encoding(
      (d: V.Drop) => Zeros(SIZE_DROP),
      (c: V.Cipher) => BodyFor(name, c),
      (b: Bytes) => if b in table then table[b] else V.Noise(0))
  }

  lemma {:induction false} ReadingOk(name: V.Name, table: Table)
    ensures EncodingOk(Reading(name, table))
  {
  }

  predicate Reads(name: V.Name, table: Table, c: V.Cipher) {
    BodyFor(name, c) in table && table[BodyFor(name, c)] == c
  }

  function Identity(n: nat): Perm {
    Perm(seq(n, i => i), seq(n, i => i))
  }

  const OneMixer: seq<Mixer> := [Mixer([], [], (n: nat) => Identity(n), (i: nat) => [])]

  lemma {:induction false} OneMixerOk()
    ensures ConvoChain(OneMixer) && |OneMixer| == 1
  {
    assert OneMixer[0].noise == [];
    assert MixerOk(OneMixer[0]);
  }

  /** Two messages with different keys are both kept. */
  lemma {:induction false} TwoKept(incoming: seq<Option<Bytes>>, x: Bytes, y: Bytes)
    requires incoming == [Some(x), Some(y)] && MsgKey(x) != MsgKey(y)
    ensures Index(incoming, 0) == 0 && Index(incoming, 1) == 1 && |Valid(incoming, 2)| == 2
  {
    assert Kept(incoming, 0) && Kept(incoming, 1);
    assert Valid(incoming, 0) == [];
    assert Valid(incoming, 1) == [x];
  }

  /** In one round the two messages differ in their last byte. */
  lemma {:induction false} KeysDiffer(e: Encoding, name: V.Name, table: Table, x: V.Cipher, y: V.Cipher, d: V.Drop)
    requires e == Reading(name, table) && x.SecretBox? && y.SecretBox?
    requires x.recipient == name && y.recipient != name
    ensures var m, n := MessageOf(e, d, x), MessageOf(e, d, y);
            |m| == |n| == SIZE_DEAD_DROP_MESSAGE && MsgKey(m) != MsgKey(n)
  {
    var m, n := MessageOf(e, d, x), MessageOf(e, d, y);
    assert MsgKey(m)[7] == m[|m| - 1] == BodyFor(name, x)[SIZE_ENCRYPTED_BODY - 1];
    assert MsgKey(n)[7] == n[|n| - 1] == BodyFor(name, y)[SIZE_ENCRYPTED_BODY - 1];
  }

  function OneOnion(c: Crypto, round: u32, m: Bytes): Bytes {
    SealOnion(c, ForwardNonce(round), [[]], PublicKeys(c, OneMixer), m)
  }

  /** Both onions arrive at the only mixer, in their order, and nothing else does. */
  lemma {:induction false} BothArrive(c: Crypto, round: u32, x: Bytes, y: Bytes)
    requires Lawful(c) && |x| == |y| == SIZE_DEAD_DROP_MESSAGE && MsgKey(x) != MsgKey(y)
    requires ConvoChain(OneMixer)
    ensures var onions := [OneOnion(c, round, x), OneOnion(c, round, y)];
            var r := ConvoRound(c, round);
            && Trace(r, OneMixer, onions, 0) == 0 && Trace(r, OneMixer, onions, 1) == 1
            && |LastBatch(r, OneMixer, onions)| == 2
  {
    var r := ConvoRound(c, round);
    var onions := [OneOnion(c, round, x), OneOnion(c, round, y)];
    Opens(c, round, x);
    Opens(c, round, y);
    var incoming := Decrypted(r, OneMixer[0], 1, onions);
    assert incoming == [Some(x), Some(y)];
    TwoKept(incoming, x, y);
    hide SealOnion, Decrypt, Kept, Valid, Index, Lawful;
    assert OneMixer[0].noise == [];
  }

  lemma {:induction false} Opens(c: Crypto, round: u32, m: Bytes)
    requires Lawful(c) && |m| == SIZE_DEAD_DROP_MESSAGE
    ensures Decrypt(ConvoRound(c, round), OneMixer[0], 1, OneOnion(c, round, m)) == Some(m)
  {
    var r := ConvoRound(c, round);
    ClientOnionOpens(r, OneMixer, [[]], m);
    hide SealOnion, Lawful, Decrypt;
    assert OneMixer[1..] == [];
  }

  /** Two clients with one onion each. */
  function TwoBundles(c: Crypto, round: u32, x: Bytes, y: Bytes): seq<Bundle> {
    [Bundle(0, [OneOnion(c, round, x)]), Bundle(1, [OneOnion(c, round, y)])]
  }

  lemma {:induction false} TwoJoined(bundles: seq<Bundle>, x: Bytes, y: Bytes)
    requires bundles == [Bundle(0, [x]), Bundle(1, [y])]
    ensures Joined(bundles) == [x, y] && Start(bundles, 0) == 0 && Start(bundles, 1) == 1
  {
    StartNext(bundles, 0);
    StartNext(bundles, 1);
    assert bundles[..0] == [] && bundles[..2] == bundles;
  }

  lemma {:induction false} TwoCut(bundles: seq<Bundle>, replies: seq<Bytes>, x: Bytes, y: Bytes)
    requires bundles == [Bundle(0, [x]), Bundle(1, [y])] && |replies| == 2
    ensures CutAtRanges(bundles, replies, [Reply(0, replies[0..1]), Reply(1, replies[1..2])])
  {
    TwoJoined(bundles, x, y);
    hide Joined, Start;
  }

  ghost function TwoMixed(c: Crypto, round: u32, x: Message, y: Message): Mix
    requires Lawful(c) && ConvoChain(OneMixer)
  {
    var bundles := TwoBundles(c, round, x, y);
    var replies := MixedReplies(c, round, OneMixer, Joined(bundles));
    var sent := if |replies| == 2 then [Reply(0, replies[0..1]), Reply(1, replies[1..2])] else [];
    Mix(OneMixer, bundles, sent, Slot(0, 0, [[[]]], [x]), Slot(1, 0, [[[]]], [y]))
  }

  lemma {:induction false} TwoSlots(c: Crypto, round: u32, x: Message, y: Message)
    requires Lawful(c) && ConvoChain(OneMixer) && MsgKey(x) != MsgKey(y)
    ensures var mix := TwoMixed(c, round, x, y);
            && CutAtRanges(mix.bundles, MixedReplies(c, round, mix.chain, Joined(mix.bundles)), mix.sent)
            && SlotIn(c, round, mix, mix.left, x) && SlotIn(c, round, mix, mix.right, y)
            && Place(mix, mix.left) == 0 && Place(mix, mix.right) == 1
            && Arrival(c, round, mix, mix.left) == 0 && Arrival(c, round, mix, mix.right) == 1
            && |LastBatch(ConvoRound(c, round), mix.chain, Joined(mix.bundles))| == 2
  {
    hide Joined, Start, CutAtRanges, LastBatch, Trace, Lawful, MixedReplies, SealOnion;
    var bundles := TwoBundles(c, round, x, y);
    var ox, oy := OneOnion(c, round, x), OneOnion(c, round, y);
    TwoJoined(bundles, ox, oy);
    BothArrive(c, round, x, y);
    TwoReplies(c, round, [ox, oy]);
    TwoCut(bundles, MixedReplies(c, round, OneMixer, [ox, oy]), ox, oy);
  }

  lemma {:induction false} TwoReplies(c: Crypto, round: u32, onions: seq<Bytes>)
    requires Lawful(c) && ConvoChain(OneMixer)
    ensures |MixedReplies(c, round, OneMixer, onions)| == |onions|
  {
    hide RunRound;
  }

  lemma {:induction false} BoxFor(h: R.HashFn, p: D.Party, round: u32)
    requires p.conv.sessionKeyRound <= round
    ensures var box := B.Boxed(h, p, round); box.SecretBox? && box.round == round && box.recipient == p.conv.peer
  {
    hide R.Roll;
  }

  /** The table reads both boxes of every round that the peers go through from s. */
  ghost predicate ReadsAll(h: R.HashFn, s: D.System, rounds: seq<u32>, name: V.Name, table: Table)
    decreases |rounds|
  {
    rounds != [] ==>
      && Reads(name, table, B.Boxed(h, s.left, rounds[0])) && Reads(name, table, B.Boxed(h, s.right, rounds[0]))
      && ReadsAll(h, B.Exchange(h, s, rounds[0]), rounds[1..], name, table)
  }

  /** From s the peers can go through these rounds. */
  ghost predicate CanGo(h: R.HashFn, s: D.System, rounds: seq<u32>, name: V.Name) {
    && D.Inv(s) && B.GoodRounds(s, rounds) && (rounds != [] ==> B.InSync(h, s, rounds[0]))
    && s.left.conv.peer == name && s.right.conv.peer != name
  }

  lemma {:induction false} GoodTail(s: D.System, t: D.System, rounds: seq<u32>)
    requires B.GoodRounds(s, rounds) && rounds != []
    requires t.left.queued == s.left.queued && t.right.queued == s.right.queued
    ensures B.GoodRounds(t, rounds[1..])
    ensures |rounds| > 1 ==> rounds[0] < rounds[1]
    ensures |rounds| > 1 ==> rounds[1] + 1 + |s.left.queued| < TWO_TO_THE_32
    ensures |rounds| > 1 ==> rounds[1] + 1 + |s.right.queued| < TWO_TO_THE_32
  {
  }

  lemma {:induction false} GoesOn(h: R.HashFn, s: D.System, rounds: seq<u32>, name: V.Name)
    requires CanGo(h, s, rounds, name) && rounds != []
    ensures CanGo(h, B.Exchange(h, s, rounds[0]), rounds[1..], name)
  {
    hide D.Inv, B.InSync, B.Exchange, B.GoodRounds, B.Measure;
    var t := B.Exchange(h, s, rounds[0]);
    B.RoundsLeft(h, s, rounds[0]);
    GoodTail(s, t, rounds);
    if |rounds| > 1 {
      B.StaysInSync(h, s, rounds[0], rounds[1]);
    }
    NamesStay(h, s, rounds[0]);
  }

  lemma {:induction false} NamesStay(h: R.HashFn, s: D.System, round: u32)
    requires B.InSync(h, s, round) && D.Inv(s)
    ensures var t := B.Exchange(h, s, round);
            t.left.conv.peer == s.left.conv.peer && t.right.conv.peer == s.right.conv.peer
  {
    B.ComposeThenHandle(h, s.left, round, B.Boxed(h, s.right, round));
    B.ComposeThenHandle(h, s.right, round, B.Boxed(h, s.left, round));
    PeerStays(h, s.left, round, B.Boxed(h, s.right, round));
    PeerStays(h, s.right, round, B.Boxed(h, s.left, round));
  }

  lemma {:induction false} PeerStays(h: R.HashFn, p: D.Party, round: u32, enc: V.Cipher)
    ensures D.AfterHandle(D.AfterCompose(h, p, round, 0), round, enc).conv.peer == p.conv.peer
  {
    hide V.Drain, V.Prune, V.Accept, V.KeepRounds, R.Roll;
  }

  /** Entries for an earlier round leave the later rounds' entries alone. */
  lemma {:induction false} MoreIsRead(
    h: R.HashFn, s: D.System, rounds: seq<u32>, name: V.Name, table: Table, c: V.Cipher)
    requires CanGo(h, s, rounds, name) && ReadsAll(h, s, rounds, name, table)
    requires c.SecretBox? && forall i :: 0 <= i < |rounds| ==> c.round < rounds[i]
    ensures ReadsAll(h, s, rounds, name, table[BodyFor(name, c) := c])
    decreases |rounds|
  {
    hide CanGo, BodyFor, B.Boxed, B.Exchange;
    if rounds != [] {
      GoesOn(h, s, rounds, name);
      BoxesOf(h, s, rounds, name);
      BodiesDiffer(name, c, B.Boxed(h, s.left, rounds[0]));
      BodiesDiffer(name, c, B.Boxed(h, s.right, rounds[0]));
      MoreIsRead(h, B.Exchange(h, s, rounds[0]), rounds[1..], name, table, c);
    }
  }

  lemma {:induction false} BoxesOf(h: R.HashFn, s: D.System, rounds: seq<u32>, name: V.Name)
    requires CanGo(h, s, rounds, name) && rounds != []
    ensures var x, y := B.Boxed(h, s.left, rounds[0]), B.Boxed(h, s.right, rounds[0]);
            && x.SecretBox? && x.round == rounds[0] && x.recipient == name
            && y.SecretBox? && y.round == rounds[0] && y.recipient != name
            && BodyFor(name, x) != BodyFor(name, y)
  {
    hide D.Inv, B.Boxed, BodyFor, R.Roll;
    BoxFor(h, s.left, rounds[0]);
    BoxFor(h, s.right, rounds[0]);
    BodiesDiffer(name, B.Boxed(h, s.left, rounds[0]), B.Boxed(h, s.right, rounds[0]));
  }

  lemma {:induction false} TableExists(h: R.HashFn, s: D.System, rounds: seq<u32>, name: V.Name) returns (table: Table)
    requires CanGo(h, s, rounds, name)
    ensures ReadsAll(h, s, rounds, name, table)
    decreases |rounds|
  {
    hide CanGo, BodyFor, B.Boxed, B.Exchange;
    if rounds == [] {
      table := map[];
    } else {
      GoesOn(h, s, rounds, name);
      BoxesOf(h, s, rounds, name);
      RoundsAscend(h, s, rounds, name);
      var x, y := B.Boxed(h, s.left, rounds[0]), B.Boxed(h, s.right, rounds[0]);
      var next := B.Exchange(h, s, rounds[0]);
      var rest := TableExists(h, next, rounds[1..], name);
      MoreIsRead(h, next, rounds[1..], name, rest, x);
      MoreIsRead(h, next, rounds[1..], name, rest[BodyFor(name, x) := x], y);
      table := rest[BodyFor(name, x) := x][BodyFor(name, y) := y];
    }
  }

  lemma {:induction false} RoundsAscend(h: R.HashFn, s: D.System, rounds: seq<u32>, name: V.Name)
    requires CanGo(h, s, rounds, name) && rounds != []
    ensures forall i :: 0 <= i < |rounds[1..]| ==> rounds[0] < rounds[1..][i]
  {
  }

  /** One round can be mixed: the two clients alone with one mixer. */
  lemma {:induction false} GoodMixFor(
    c: Crypto, h: R.HashFn, s: D.System, rounds: seq<u32>, name: V.Name, table: Table) returns (mix: Mix)
    requires Lawful(c) && CanGo(h, s, rounds, name) && rounds != [] && ReadsAll(h, s, rounds, name, table)
    ensures GoodMix(Reading(name, table), c, h, s, rounds[0], mix)
  {
    var round, e := rounds[0], Reading(name, table);
    BoxesOf(h, s, rounds, name);
    ReadingOk(name, table);
    OneMixerOk();
    var first, second := B.Boxed(h, s.left, round), B.Boxed(h, s.right, round);
    assert ReadsBack(e, first) && ReadsBack(e, second);
    hide R.Roll, D.Inv, B.Boxed, BodyFor, ReadsAll;
    var drop := V.Drop(RoundKey(h, s.left, round), round);
    KeysDiffer(e, name, table, first, second, drop);
    var x, y := Sent(e, h, s.left, round), Sent(e, h, s.right, round);
    assert y == MessageOf(e, drop, second);
    mix := TwoMixed(c, round, x, y);
    TwoSlots(c, round, x, y);
    hide SlotIn, CutAtRanges, LastBatch, Trace, Arrival, Joined, Lawful, MixedReplies, Place;
    hide Reading, ReadsBack, EncodingOk, B.InSync, Sent;
    assert OwnDrop(e, c, h, s, round, mix);
  }

  lemma {:induction false} MixesFor(
    c: Crypto, h: R.HashFn, s: D.System, rounds: seq<u32>, name: V.Name, table: Table) returns (mixes: seq<Mix>)
    requires Lawful(c) && CanGo(h, s, rounds, name) && ReadsAll(h, s, rounds, name, table)
    ensures |mixes| == |rounds|
    ensures MixedRounds(Reading(name, table), c, h, s, rounds, mixes, B.Exchanges(h, s, rounds))
    decreases |rounds|
  {
    hide CanGo, GoodMix, AfterMix, B.Exchange, Reading, Lawful, Reads;
    mixes := [];
    if rounds != [] {
      var e := Reading(name, table);
      var mix := GoodMixFor(c, h, s, rounds, name, table);
      GoesOn(h, s, rounds, name);
      MixedRoundIsExchange(e, c, h, s, rounds[0], mix);
      var rest := MixesFor(c, h, B.Exchange(h, s, rounds[0]), rounds[1..], name, table);
      mixes := [mix] + rest;
      assert mixes[1..] == rest;
    }
  }

  /**
   Every lossless run can be mixed: for any number of rounds that two peers can go through, from any
   reachable state, there are an encoding and mixing rounds that carry them through exactly these.
   */
  lemma {:induction false} EveryLosslessRunCanBeMixed(
    c: Crypto, h: R.HashFn, a: V.Name, b: V.Name, events: seq<D.Event>, s: D.System, rounds: seq<u32>)
    requires Lawful(c) && a != b && D.Run(h, a, b, events, s)
    requires rounds != [] && B.GoodRounds(s, rounds) && B.InSync(h, s, rounds[0])
    ensures exists e, mixes ::
      |mixes| == |rounds| && MixedRounds(e, c, h, s, rounds, mixes, B.Exchanges(h, s, rounds))
  {
    D.RunKeepsInv(h, a, b, events, s);
    var name := s.left.conv.peer;
    assert D.Direction(s.left, s.right);
    assert CanGo(h, s, rounds, name);
    hide CanGo, D.Inv, D.Direction, MixedRounds;
    var table := TableExists(h, s, rounds, name);
    var mixes := MixesFor(c, h, s, rounds, name, table);
  }

  /** And there are such runs: with one text waiting, two peers can go through any rounds. */
  lemma {:induction false} LosslessRunsHappen(
    h: R.HashFn, a: V.Name, b: V.Name, text: Bytes, key: Bytes, rounds: seq<u32>)
    requires a != b && rounds != [] && forall i, j :: 0 <= i < j < |rounds| ==> rounds[i] < rounds[j]
    requires forall i :: 0 <= i < |rounds| ==> rounds[i] + 2 < TWO_TO_THE_32
    ensures exists events, s ::
      && D.Run(h, a, b, events, s) && B.GoodRounds(s, rounds) && B.InSync(h, s, rounds[0])
      && |s.left.conv.outQueue| == 1
  {
    var events, s := Redelivery.OneTextWaits(h, a, b, text, key);
    B.LeadsExtends(h, D.Initial(a, b), [], D.Initial(a, b), events, s);
    assert [] + events == events;
    assert D.Run(h, a, b, events, s);
    hide R.Roll, D.Inv, D.Run;
    assert B.InSync(h, s, rounds[0]);
    assert B.GoodRounds(s, rounds);
  }
}
