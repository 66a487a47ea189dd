/**
 A mixing round as a function: what each mixer of a chain does to a batch of onions on the way in,
 and to the replies on the way out.
 */
module MixRounds {
  import opened Common
  import opened Onions
  import opened Shuffles

  /** A mixer with everything it chooses: its key, its noise, its shuffles and its fresh keys. */
  datatype Mixer = Mixer(private: Key, noise: seq<Bytes>, perm: nat -> Perm, freshKey: nat -> Key)

  /** What a round has in common for all mixers; handle is what the last one does with the messages. */
  datatype Round = Round(
    crypto: Crypto,
    forward: Bytes,
    backward: Bytes,
    sizeIncoming: nat,
    sizeReply: nat,
    handle: seq<Bytes> -> seq<Bytes>)

  ghost predicate RoundOk(r: Round) {
    && Lawful(r.crypto)
    && r.sizeIncoming >= 8 && r.sizeReply > 0
    && forall b :: |r.handle(b)| == |b|
  }

  ghost predicate MixerOk(m: Mixer) {
    forall n :: IsPerm(m.perm(n), n)
  }

  ghost predicate ChainOk(chain: seq<Mixer>) {
    forall i :: 0 <= i < |chain| ==> MixerOk(chain[i])
  }

  // ---------------------------------------------------------------- decrypting

  function SharedKey(r: Round, m: Mixer, hops: nat, onion: Bytes): Key {
    if |onion| != OnionSize(hops, r.sizeIncoming) || hops == 0 then Zeros(32)
    else r.crypto.shared(onion[..SIZE_PUBLIC_KEY], m.private)
  }

  /** What decryptionWorker leaves in a slot; hops counts this mixer and those after it. */
  function Decrypt(r: Round, m: Mixer, hops: nat, onion: Bytes): Option<Bytes> {
    if |onion| != OnionSize(hops, r.sizeIncoming) || hops == 0 then None
    else r.crypto.open(SharedKey(r, m, hops, onion), r.forward, onion[SIZE_PUBLIC_KEY..])
  }

  function Decrypted(r: Round, m: Mixer, hops: nat, onions: seq<Bytes>): (d: seq<Option<Bytes>>)
    ensures |d| == |onions|
    ensures forall i :: 0 <= i < |d| ==> d[i] == Decrypt(r, m, hops, onions[i])
  {
    seq(|onions|, i requires 0 <= i < |onions| => Decrypt(r, m, hops, onions[i]))
  }

  function SharedKeys(r: Round, m: Mixer, hops: nat, onions: seq<Bytes>): (k: seq<Key>)
    ensures |k| == |onions|
    ensures forall i :: 0 <= i < |k| ==> k[i] == SharedKey(r, m, hops, onions[i])
  {
    seq(|onions|, i requires 0 <= i < |onions| => SharedKey(r, m, hops, onions[i]))
  }

  lemma {:induction false} DecryptSize(r: Round, m: Mixer, hops: nat, onion: Bytes)
    requires SizesOk(r.crypto) && Decrypt(r, m, hops, onion).Some?
    ensures |Decrypt(r, m, hops, onion).value| == OnionSize(hops - 1, r.sizeIncoming)
  {
  }

  // ---------------------------------------------------------------- filtering

  /** The last 8 bytes of a message tell it from others (its key is at the beginning). */
  function MsgKey(msg: Bytes): Bytes {
    if |msg| < 8 then msg else msg[|msg| - 8..]
  }

  /** A slot is kept when it decrypted and no earlier slot has its key. */
  predicate Kept(incoming: seq<Option<Bytes>>, i: nat)
    requires i < |incoming|
  {
    incoming[i].Some? &&
    forall j :: 0 <= j < i && incoming[j].Some? ==> MsgKey(incoming[j].value) != MsgKey(incoming[i].value)
  }

  /** Two messages are taken for one when their last eight bytes are the same. */
  predicate SameEnd(x: Bytes, y: Bytes) {
    |x| >= 8 && |y| >= 8 && x[|x| - 8..] == y[|y| - 8..]
  }

  ghost predicate AllLong(incoming: seq<Option<Bytes>>) {
    forall i :: 0 <= i < |incoming| && incoming[i].Some? ==> |incoming[i].value| >= 8
  }

  /** A slot is dropped if and only if it did not decrypt or an earlier one that did has the same last eight bytes. */
  lemma {:induction false} KeptExactly(incoming: seq<Option<Bytes>>, i: nat)
    requires i < |incoming| && AllLong(incoming)
    ensures Kept(incoming, i) <==>
      incoming[i].Some? &&
      forall j :: 0 <= j < i && incoming[j].Some? ==> !SameEnd(incoming[j].value, incoming[i].value)
  {
    if incoming[i].Some? {
      forall j | 0 <= j < i && incoming[j].Some?
        ensures SameEnd(incoming[j].value, incoming[i].value) <==>
          MsgKey(incoming[j].value) == MsgKey(incoming[i].value)
      {
      }
    }
  }

  lemma {:induction false} DroppedExactly(incoming: seq<Option<Bytes>>, i: nat)
    requires i < |incoming| && AllLong(incoming)
    ensures Index(incoming, i) == -1 <==>
      incoming[i].None? ||
      exists j :: 0 <= j < i && incoming[j].Some? && SameEnd(incoming[j].value, incoming[i].value)
  {
    KeptExactly(incoming, i);
    hide Kept, SameEnd;
  }

  /** What a mixer decrypts is long enough to be told apart. */
  lemma {:induction false} DecryptedLong(r: Round, m: Mixer, hops: nat, onions: seq<Bytes>)
    requires SizesOk(r.crypto) && r.sizeIncoming >= 8
    ensures AllLong(Decrypted(r, m, hops, onions))
  {
    forall i | 0 <= i < |onions| && Decrypt(r, m, hops, onions[i]).Some?
      ensures |Decrypt(r, m, hops, onions[i]).value| >= 8
    {
      DecryptSize(r, m, hops, onions[i]);
    }
  }

  /** The kept messages among the first n slots, in order. */
  function Valid(incoming: seq<Option<Bytes>>, n: nat): seq<Bytes>
    requires n <= |incoming|
  {
    if n == 0 then []
    else Valid(incoming, n - 1) + if Kept(incoming, n - 1) then [incoming[n - 1].value] else []
  }

  function Index(incoming: seq<Option<Bytes>>, i: nat): int
    requires i < |incoming|
  {
    if Kept(incoming, i) then |Valid(incoming, i)| else -1
  }

  function Indexes(incoming: seq<Option<Bytes>>): (x: seq<int>)
    ensures |x| == |incoming|
    ensures forall i :: 0 <= i < |x| ==> x[i] == Index(incoming, i)
  {
    seq(|incoming|, i requires 0 <= i < |incoming| => Index(incoming, i))
  }

  lemma {:induction false} ValidGrows(incoming: seq<Option<Bytes>>, i: nat, n: nat)
    requires i <= n <= |incoming|
    ensures Valid(incoming, i) <= Valid(incoming, n)
    decreases n - i
  {
    if i < n {
      ValidGrows(incoming, i, n - 1);
    }
  }

  /** The index of a kept slot is where its message is in the filtered list. */
  lemma {:induction false} IndexPointsToMessage(incoming: seq<Option<Bytes>>, i: nat)
    requires i < |incoming| && Kept(incoming, i)
    ensures var valid := Valid(incoming, |incoming|);
            0 <= Index(incoming, i) < |valid| && valid[Index(incoming, i)] == incoming[i].value
  {
    ValidGrows(incoming, i + 1, |incoming|);
  }

  /** The order of the kept slots is the order of the filtered list. */
  lemma {:induction false} IndexKeepsOrder(incoming: seq<Option<Bytes>>, i: nat, j: nat)
    requires i < j < |incoming| && Kept(incoming, i) && Kept(incoming, j)
    ensures Index(incoming, i) < Index(incoming, j)
  {
    ValidGrows(incoming, i + 1, j);
  }

  /** Every place in the filtered list belongs to a kept slot. */
  lemma {:induction false} IndexOnto(incoming: seq<Option<Bytes>>, n: nat, v: nat) returns (i: nat)
    requires n <= |incoming| && v < |Valid(incoming, n)|
    ensures i < n && Kept(incoming, i) && Index(incoming, i) == v
  {
    if v < |Valid(incoming, n - 1)| {
      i := IndexOnto(incoming, n - 1, v);
    } else {
      i := n - 1;
    }
  }

  /** No two messages of the filtered list end alike, and no ending that came in is missing. */
  lemma {:induction false} ValidKeysDistinct(incoming: seq<Option<Bytes>>, u: nat, v: nat)
    requires u < v < |Valid(incoming, |incoming|)|
    requires AllLong(incoming)
    ensures var valid := Valid(incoming, |incoming|); !SameEnd(valid[u], valid[v])
  {
    var i := IndexOnto(incoming, |incoming|, u);
    var j := IndexOnto(incoming, |incoming|, v);
    IndexPointsToMessage(incoming, i);
    IndexPointsToMessage(incoming, j);
    if j < i {
      IndexKeepsOrder(incoming, j, i);
    }
    KeptExactly(incoming, j);
  }

  lemma {:induction false} EveryKeyKept(incoming: seq<Option<Bytes>>, i: nat) returns (first: nat)
    requires i < |incoming| && incoming[i].Some? && AllLong(incoming)
    ensures first <= i && Kept(incoming, first) && SameEnd(incoming[first].value, incoming[i].value)
  {
    if Kept(incoming, i) {
      first := i;
    } else {
      KeptExactly(incoming, i);
      var j :| 0 <= j < i && incoming[j].Some? && SameEnd(incoming[j].value, incoming[i].value);
      first := EveryKeyKept(incoming, j);
    }
  }

  /** The messages among the first n slots that do not end like an earlier one. */
  ghost function FirstOnes(incoming: seq<Option<Bytes>>, n: nat): seq<Bytes>
    requires n <= |incoming|
  {
    if n == 0 then []
    else
      var last := incoming[n - 1];
      FirstOnes(incoming, n - 1) +
      if last.Some? && forall j :: 0 <= j < n - 1 && incoming[j].Some? ==> !SameEnd(incoming[j].value, last.value)
      then [last.value] else []
  }

  lemma {:induction false} ValidIsFirstOnes(incoming: seq<Option<Bytes>>, n: nat)
    requires n <= |incoming| && AllLong(incoming)
    ensures Valid(incoming, n) == FirstOnes(incoming, n)
  {
    if n > 0 {
      ValidIsFirstOnes(incoming, n - 1);
      KeptExactly(incoming, n - 1);
    }
  }

  /**
   What a mixer hands on for a batch: the first ones of the decrypted messages and then its own noise,
   all of it and nothing else, moved about by its shuffle.
   */
  ghost predicate HandsOn(r: Round, m: Mixer, hops: nat, batch: seq<Bytes>, next: seq<Bytes>) {
    var incoming := Decrypted(r, m, hops, batch);
    var all := FirstOnes(incoming, |incoming|) + m.noise;
    var p := m.perm(|all|);
    && multiset(next) == multiset(all) && |next| == |all| == |p.to|
    && forall v :: 0 <= v < |all| ==> 0 <= p.to[v] < |next| && next[p.to[v]] == all[v]
  }

  // ---------------------------------------------------------------- sealing replies

  function ReplySize(r: Round, hops: nat): nat {
    hops * BOX_OVERHEAD + r.sizeReply
  }

  /** encryptReplies for one slot: its own shared key for a right-sized reply, else zeros under a fresh key. */
  function SealReply(r: Round, m: Mixer, hops: nat, index: int, key: Key, replies: seq<Bytes>, slot: nat): Bytes
    requires index < |replies| && hops > 0
  {
    if index > -1 && |replies[index]| == ReplySize(r, hops - 1)
    then r.crypto.seal(key, r.backward, replies[index])
    else r.crypto.seal(m.freshKey(slot), r.backward, Zeros(ReplySize(r, hops - 1)))
  }

  function SealReplies(
    r: Round, m: Mixer, hops: nat, indexes: seq<int>, keys: seq<Key>, replies: seq<Bytes>): (s: seq<Bytes>)
    requires |indexes| == |keys| && hops > 0
    requires forall i :: 0 <= i < |indexes| ==> indexes[i] < |replies|
    ensures |s| == |indexes|
    ensures forall i :: 0 <= i < |s| ==> s[i] == SealReply(r, m, hops, indexes[i], keys[i], replies, i)
  {
    seq(|indexes|, i requires 0 <= i < |indexes| => SealReply(r, m, hops, indexes[i], keys[i], replies, i))
  }

  // ---------------------------------------------------------------- the chain

  /** What a mixer hands on before shuffling: the filtered messages, then its noise. */
  function Outgoing(r: Round, chain: seq<Mixer>, onions: seq<Bytes>): seq<Bytes>
    requires chain != []
  {
    var incoming := Decrypted(r, chain[0], |chain|, onions);
    Valid(incoming, |incoming|) + chain[0].noise
  }

  /** The slots of a filtered list stay within what a mixer hands on. */
  lemma {:induction false} IndexesInOutgoing(r: Round, chain: seq<Mixer>, onions: seq<Bytes>)
    requires chain != []
    ensures var incoming := Decrypted(r, chain[0], |chain|, onions);
            forall i :: 0 <= i < |incoming| ==> Indexes(incoming)[i] < |Valid(incoming, |incoming|)|
  {
    var incoming := Decrypted(r, chain[0], |chain|, onions);
    forall i | 0 <= i < |incoming|
      ensures Index(incoming, i) < |Valid(incoming, |incoming|)| || |incoming| == 0
    {
      if Kept(incoming, i) {
        IndexPointsToMessage(incoming, i);
      } else {
        assert Index(incoming, i) == -1;
      }
    }
  }

  /** The replies of a round, one per onion, for a chain of at least one mixer. */
  ghost function RunRound(r: Round, chain: seq<Mixer>, onions: seq<Bytes>): (replies: seq<Bytes>)
    requires RoundOk(r) && ChainOk(chain) && chain != []
    ensures |replies| == |onions|
    decreases |chain|
  {
    var m := chain[0];
    var incoming := Decrypted(r, m, |chain|, onions);
    var out := Outgoing(r, chain, onions);
    var answers :=
      if |chain| == 1 then r.handle(out)
      else Unshuffle(m.perm(|out|), RunRound(r, chain[1..], Shuffle(m.perm(|out|), out)));
    IndexesInOutgoing(r, chain, onions);
    SealReplies(r, m, |chain|, Indexes(incoming), SharedKeys(r, m, |chain|, onions),
                answers[..|Valid(incoming, |incoming|)|])
  }
}
