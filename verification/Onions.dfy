/** Layered boxes: what a client seals for a chain of mixers, and what the mixers seal on the way back. */
module Onions {
  import opened Common
  import opened ConvoWire

  type Key = Bytes

  const SIZE_PUBLIC_KEY: nat := 32
  const BOX_OVERHEAD: nat := 16
  const ONION_OVERHEAD: nat := SIZE_PUBLIC_KEY + BOX_OVERHEAD

  /** The box functions, of which only the laws below are used. */
  datatype Crypto = Crypto(
    public: Key -> Bytes,                        // the public key of a private key
    shared: (Bytes, Key) -> Key,                 // box.Precompute(theirs, mine)
    seal: (Key, Bytes, Bytes) -> Bytes,          // box.SealAfterPrecomputation: key, nonce, message
    open: (Key, Bytes, Bytes) -> Option<Bytes>)  // box.OpenAfterPrecomputation: key, nonce, box

  ghost predicate SizesOk(c: Crypto) {
    && (forall k :: |c.public(k)| == SIZE_PUBLIC_KEY)
    && (forall k, n, m :: |c.seal(k, n, m)| == |m| + BOX_OVERHEAD)
    && (forall k, n, b :: c.open(k, n, b).Some? ==> |b| == |c.open(k, n, b).value| + BOX_OVERHEAD)
  }

  /** Opening undoes sealing, and both ends compute one shared key. */
  ghost predicate Lawful(c: Crypto) {
    && SizesOk(c)
    && (forall k, n, m :: c.open(k, n, c.seal(k, n, m)) == Some(m))
    && (forall a, b :: c.shared(c.public(a), b) == c.shared(c.public(b), a))
  }

  function ForwardNonce(round: u32): Bytes {
    BigEndian32(round) + [0] + Zeros(19)
  }

  function BackwardNonce(round: u32): Bytes {
    BigEndian32(round) + [1] + Zeros(19)
  }

  lemma {:induction false} NoncesDiffer(r: u32, q: u32)
    ensures |ForwardNonce(r)| == |BackwardNonce(r)| == 24
    ensures ForwardNonce(r) != BackwardNonce(q)
    ensures r != q ==> ForwardNonce(r) != ForwardNonce(q) && BackwardNonce(r) != BackwardNonce(q)
  {
    assert ForwardNonce(r)[4] == 0 && BackwardNonce(q)[4] == 1;
    assert ForwardNonce(r)[..4] == BackwardNonce(r)[..4] == BigEndian32(r);
    assert ForwardNonce(q)[..4] == BackwardNonce(q)[..4] == BigEndian32(q);
    BigEndianRoundTrip(r);
    BigEndianRoundTrip(q);
  }

  /** A nonce spells the round, then 0 for onions and 1 for replies, then zeros. */
  lemma {:induction false} NonceLayout(round: u32)
    ensures |ForwardNonce(round)| == |BackwardNonce(round)| == 24
    ensures Spelled(ForwardNonce(round), 0) == Spelled(BackwardNonce(round), 0) == round
    ensures ForwardNonce(round)[4] == 0 && BackwardNonce(round)[4] == 1
    ensures forall i :: 5 <= i < 24 ==> ForwardNonce(round)[i] == BackwardNonce(round)[i] == 0
  {
    assert ForwardNonce(round)[..4] == BackwardNonce(round)[..4] == BigEndian32(round);
    SpelledWord(BigEndian32(round));
    BigEndianRoundTrip(round);
    assert forall i :: 0 <= i < 4 ==> ForwardNonce(round)[i] == BigEndian32(round)[i];
  }

  /** One layer: the sender's public key, then the box. */
  function SealLayer(c: Crypto, nonce: Bytes, eph: Key, serverPublic: Bytes, m: Bytes): Bytes {
    c.public(eph) + c.seal(c.shared(serverPublic, eph), nonce, m)
  }

  /** onionbox.Seal: a layer per server, the first server's outermost; the keys are kept for the reply. */
  function SealOnion(c: Crypto, nonce: Bytes, ephs: seq<Key>, servers: seq<Bytes>, m: Bytes): Bytes
    requires |ephs| == |servers|
    decreases |servers|
  {
    if servers == [] then m
    else SealLayer(c, nonce, ephs[0], servers[0], SealOnion(c, nonce, ephs[1..], servers[1..], m))
  }

  function ClientKeys(c: Crypto, ephs: seq<Key>, servers: seq<Bytes>): (keys: seq<Key>)
    requires |ephs| == |servers|
    ensures |keys| == |servers|
  {
    seq(|servers|, i requires 0 <= i < |servers| => c.shared(servers[i], ephs[i]))
  }

  /** onionbox.Open: peels one box per key, the first server's first. */
  function Peel(c: Crypto, nonce: Bytes, keys: seq<Key>, onion: Bytes): Option<Bytes>
    decreases |keys|
  {
    if keys == [] then Some(onion)
    else
      match c.open(keys[0], nonce, onion)
      case None => None
      case Some(inner) => Peel(c, nonce, keys[1..], inner)
  }

  /** Layer i opens to layer i + 1, under key i. */
  ghost predicate Layers(c: Crypto, nonce: Bytes, keys: seq<Key>, layers: seq<Bytes>) {
    && |layers| == |keys| + 1
    && forall i :: 0 <= i < |keys| ==> c.open(keys[i], nonce, layers[i]) == Some(layers[i + 1])
  }

  /** An onion peels to a message exactly when there is a layer for every key, from the onion down to the message. */
  lemma {:induction false} PeelsExactly(c: Crypto, nonce: Bytes, keys: seq<Key>, onion: Bytes, m: Bytes)
    ensures Peel(c, nonce, keys, onion) == Some(m) <==>
      exists layers :: Layers(c, nonce, keys, layers) && layers[0] == onion && layers[|keys|] == m
    decreases |keys|
  {
    if keys == [] {
      assert onion == m ==> Layers(c, nonce, keys, [onion]);
    } else {
      forall layers | Layers(c, nonce, keys, layers) && layers[0] == onion && layers[|keys|] == m
        ensures c.open(keys[0], nonce, onion) == Some(layers[1]) && Layers(c, nonce, keys[1..], layers[1..])
      {
        assert c.open(keys[0], nonce, layers[0]) == Some(layers[1]);
      }
      if c.open(keys[0], nonce, onion).Some? {
        var inner := c.open(keys[0], nonce, onion).value;
        PeelsExactly(c, nonce, keys[1..], inner, m);
        if layers :| Layers(c, nonce, keys[1..], layers) && layers[0] == inner && layers[|keys| - 1] == m {
          LayerBefore(c, nonce, keys, onion, layers);
        }
      }
    }
  }

  lemma {:induction false} LayerBefore(c: Crypto, nonce: Bytes, keys: seq<Key>, onion: Bytes, layers: seq<Bytes>)
    requires keys != [] && Layers(c, nonce, keys[1..], layers)
    requires c.open(keys[0], nonce, onion) == Some(layers[0])
    ensures Layers(c, nonce, keys, [onion] + layers)
  {
    forall i | 0 <= i < |keys|
      ensures c.open(keys[i], nonce, ([onion] + layers)[i]) == Some(([onion] + layers)[i + 1])
    {
      assert i > 0 ==> keys[i] == keys[1..][i - 1];
    }
  }

  function OnionSize(hops: nat, inner: nat): nat {
    hops * ONION_OVERHEAD + inner
  }

  lemma {:induction false} SealOnionSize(c: Crypto, nonce: Bytes, ephs: seq<Key>, servers: seq<Bytes>, m: Bytes)
    requires SizesOk(c) && |ephs| == |servers|
    ensures |SealOnion(c, nonce, ephs, servers, m)| == OnionSize(|servers|, |m|)
    decreases |servers|
  {
    if servers != [] {
      SealOnionSize(c, nonce, ephs[1..], servers[1..], m);
    }
  }

  /** An onion is 32 bytes of its sender's public key and then the box that its first mixer opens, 48 bytes a layer. */
  lemma {:induction false} OnionLayout(c: Crypto, nonce: Bytes, ephs: seq<Key>, servers: seq<Bytes>, m: Bytes)
    requires SizesOk(c) && |ephs| == |servers| > 0
    ensures var onion := SealOnion(c, nonce, ephs, servers, m);
            && |onion| == 48 * |servers| + |m|
            && onion[..32] == c.public(ephs[0])
            && onion[32..]
               == c.seal(c.shared(servers[0], ephs[0]), nonce, SealOnion(c, nonce, ephs[1..], servers[1..], m))
  {
    SealOnionSize(c, nonce, ephs, servers, m);
    var box := c.seal(c.shared(servers[0], ephs[0]), nonce, SealOnion(c, nonce, ephs[1..], servers[1..], m));
    assert SealOnion(c, nonce, ephs, servers, m) == c.public(ephs[0]) + box;
  }

  /** The laws can be met: a box that is its message with sixteen zero bytes behind it. */
  lemma {:induction false} LawsCanBeMet()
    ensures exists c :: Lawful(c)
  {
    var c := Crypto(
      (k: Key) => Zeros(SIZE_PUBLIC_KEY),
      (p: Bytes, k: Key) => Zeros(SIZE_PUBLIC_KEY),
      (k: Key, n: Bytes, m: Bytes) => m + Zeros(BOX_OVERHEAD),
      (k: Key, n: Bytes, b: Bytes) => if |b| < BOX_OVERHEAD then None else Some(b[..|b| - BOX_OVERHEAD]));
    forall k, n, m
      ensures c.open(k, n, c.seal(k, n, m)) == Some(m)
    {
      assert (m + Zeros(BOX_OVERHEAD))[..|m|] == m;
    }
    assert Lawful(c);
  }
}
