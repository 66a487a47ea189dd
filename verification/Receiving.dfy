/** What the reordering receiver does, said without its queue operations, and what it makes of any order of arrival. */
module Receiving {
  import opened Common
  import opened ConvoWire
  import opened Conversations
  import opened Delivery

  /** Nothing that arrives is dropped: above the acknowledgement it is delivered or waits, and waiting goes on. */
  lemma {:induction false} NothingIsDropped(c: Conv, msg: ConvoMessage, after: Conv, texts: seq<Bytes>, k: u32)
    requires TakesIn(c, msg, after, texts) && msg.seqNo > c.ack
    requires k == msg.seqNo || k in c.inQueue
    ensures var text := if k == msg.seqNo then msg.text else c.inQueue[k];
            || (k in after.inQueue && after.inQueue[k] == text)
            || (after.ack - |texts| < k <= after.ack && texts[k - (after.ack - |texts|) - 1] == text)
  {
    var from := if msg.lowest then msg.seqNo - 1 else c.ack;
    assert from < k <= from + |texts| ==> texts[k - from - 1] == c.inQueue[msg.seqNo := msg.text][k];
    assert k in after.inQueue || from < k <= from + |texts|;
  }

  // ---------------------------------------------------------------- any order of arrival

  /** The receiver after these messages, one after the other, with everything it delivered. */
  ghost predicate TakesAll(c: Conv, msgs: seq<ConvoMessage>, after: Conv, texts: seq<Bytes>)
    decreases |msgs|
  {
    if msgs == [] then after == c && texts == []
    else
      exists mid, first, rest ::
        TakesIn(c, msgs[0], mid, first) && TakesAll(mid, msgs[1..], after, rest) && texts == first + rest
  }

  /** Messages about the numbers base to base + n - 1, with these texts, of which only the first is marked lowest. */
  ghost predicate About(msgs: seq<ConvoMessage>, base: u32, run: seq<Bytes>) {
    forall i :: 0 <= i < |msgs| ==> AboutOne(msgs[i], base, run)
  }

  predicate AboutOne(msg: ConvoMessage, base: u32, run: seq<Bytes>) {
    && base <= msg.seqNo < base + |run| && msg.text == run[msg.seqNo - base]
    && (msg.lowest <==> msg.seqNo == base)
  }

  /** The receiver has got these numbers of the run, and delivered its first m texts. */
  ghost predicate Has(c: Conv, before: u32, base: u32, run: seq<Bytes>, got: set<int>, m: nat) {
    && m <= |run| && 0 < base && base + |run| < TWO_TO_THE_32 && before < base
    && (forall k :: k in got ==> base <= k < base + |run|)
    && (forall k: u32 :: k in c.inQueue <==> k in got && k >= base + m)
    && (forall k: u32 :: k in c.inQueue ==> c.inQueue[k] == run[k - base])
    && (if base in got then 0 < m && c.ack == base + m - 1 && base + m !in got else m == 0 && c.ack == before)
    && (forall k :: base <= k < base + m ==> k in got)
  }

  /** What waits is of the run, under its own text. */
  lemma {:induction false} RunWaits(
    c: Conv, before: u32, base: u32, run: seq<Bytes>, got: set<int>, m: nat, msg: ConvoMessage, k: u32)
    requires Has(c, before, base, run, got, m) && AboutOne(msg, base, run) && msg.seqNo > c.ack
    ensures var waiting := c.inQueue[msg.seqNo := msg.text];
            && (k in waiting <==> k in got + {msg.seqNo} && k >= base + m)
            && (k in waiting ==> k < base + |run| && waiting[k] == run[k - base])
  {
  }

  /** A message behind the head of the run, before the head has come: it waits. */
  lemma {:induction false} WaitsForHead(
    c: Conv, before: u32, base: u32, run: seq<Bytes>, got: set<int>, msg: ConvoMessage, after: Conv, texts: seq<Bytes>)
    requires Has(c, before, base, run, got, 0) && AboutOne(msg, base, run) && TakesIn(c, msg, after, texts)
    requires base !in got && !msg.lowest
    ensures texts == [] && Has(after, before, base, run, got + {msg.seqNo}, 0)
  {
    forall k: u32
      ensures var waiting := c.inQueue[msg.seqNo := msg.text];
              && (k in waiting <==> k in got + {msg.seqNo} && k >= base)
              && (k in waiting ==> k < base + |run| && waiting[k] == run[k - base])
    {
      RunWaits(c, before, base, run, got, 0, msg, k);
    }
    var next: u32 := before + 1;
    assert texts != [] ==> next in c.inQueue[msg.seqNo := msg.text];
  }

  /** The longest run of what waits, from the first m of the run on: the next texts, up to what has not come. */
  lemma {:induction false} LongestOfRun(
    waiting: map<u32, Bytes>, base: u32, run: seq<Bytes>, got: set<int>, m: nat, texts: seq<Bytes>)
    requires 0 < base && base + |run| < TWO_TO_THE_32 && m <= |run| && base + m - 1 + |texts| < TWO_TO_THE_32
    requires forall k: u32 :: k in waiting <==> k in got && k >= base + m
    requires forall k: u32 :: k in waiting ==> k < base + |run| && waiting[k] == run[k - base]
    requires LongestRun(waiting, base + m - 1, |texts|)
    requires forall k: u32 :: base + m <= k < base + m + |texts| ==> texts[k - base - m] == waiting[k]
    ensures m + |texts| <= |run| && texts == run[m..m + |texts|]
    ensures forall k :: base + m <= k < base + m + |texts| ==> k in got
    ensures base + m + |texts| !in got
  {
    forall i | 0 <= i < |texts|
      ensures m + i < |run| && texts[i] == run[m + i] && base + m + i in got
    {
      InRun(waiting, base + m - 1, |texts|, i);
    }
    if |texts| > 0 {
      InRun(waiting, base + m - 1, |texts|, |texts| - 1);
    }
    var next: u32 := base + m + |texts|;
    assert next !in waiting;
    forall k | base + m <= k < base + m + |texts|
      ensures k in got
    {
      assert base + m + (k - base - m) in got;
    }
  }

  lemma {:induction false} InRun(waiting: map<u32, Bytes>, from: nat, n: nat, i: nat)
    requires LongestRun(waiting, from, n) && i < n && from + n < TWO_TO_THE_32
    ensures var k: u32 := from + 1 + i; k in waiting
  {
  }

  /** A message that can be delivered, or waits behind a gap, once the head has come or is this one. */
  lemma {:induction false} ChainGrows(
    c: Conv, before: u32, base: u32, run: seq<Bytes>, got: set<int>, m: nat, msg: ConvoMessage, after: Conv,
    texts: seq<Bytes>)
    requires Has(c, before, base, run, got, m) && AboutOne(msg, base, run) && TakesIn(c, msg, after, texts)
    requires msg.seqNo > c.ack && (msg.lowest || base in got)
    ensures m + |texts| <= |run| && texts == run[m..m + |texts|]
    ensures Has(after, before, base, run, got + {msg.seqNo}, m + |texts|)
  {
    hide Has, TakesIn, LongestRun, AboutOne;
    HasBounds(c, before, base, run, got, m);
    var waiting := c.inQueue[msg.seqNo := msg.text];
    forall k: u32
      ensures k in waiting <==> k in got + {msg.seqNo} && k >= base + m
      ensures k in waiting ==> k < base + |run| && waiting[k] == run[k - base]
    {
      RunWaits(c, before, base, run, got, m, msg, k);
    }
    var from: u32 := if msg.lowest then msg.seqNo - 1 else c.ack;
    FromOfRun(c, before, base, run, got, m, msg);
    TookParts(c, msg, after, texts);
    LongestOfRun(waiting, base, run, got + {msg.seqNo}, m, texts);
    HasMore(c, before, base, run, got, m, msg, after, |texts|);
  }

  lemma {:induction false} HasBounds(c: Conv, before: u32, base: u32, run: seq<Bytes>, got: set<int>, m: nat)
    requires Has(c, before, base, run, got, m)
    ensures m <= |run| && 0 < base && base + |run| < TWO_TO_THE_32
  {
  }

  lemma {:induction false} FromOfRun(
    c: Conv, before: u32, base: u32, run: seq<Bytes>, got: set<int>, m: nat, msg: ConvoMessage)
    requires Has(c, before, base, run, got, m) && AboutOne(msg, base, run)
    requires msg.seqNo > c.ack && (msg.lowest || base in got)
    ensures (if msg.lowest then msg.seqNo - 1 else c.ack) == base + m - 1
  {
  }

  lemma {:induction false} TookParts(c: Conv, msg: ConvoMessage, after: Conv, texts: seq<Bytes>)
    requires TakesIn(c, msg, after, texts) && msg.seqNo > c.ack
    ensures var waiting := c.inQueue[msg.seqNo := msg.text];
            var from := if msg.lowest then msg.seqNo - 1 else c.ack;
            && LongestRun(waiting, from, |texts|) && after.ack == from + |texts|
            && (forall k: u32 :: from < k <= from + |texts| ==> texts[k - from - 1] == waiting[k])
            && (forall k: u32 :: k in after.inQueue <==> k in waiting && !(from < k <= from + |texts|))
            && (forall k: u32 :: k in after.inQueue ==> after.inQueue[k] == waiting[k])
  {
  }

  lemma {:induction false} HasMore(
    c: Conv, before: u32, base: u32, run: seq<Bytes>, got: set<int>, m: nat, msg: ConvoMessage, after: Conv, n: nat)
    requires Has(c, before, base, run, got, m) && AboutOne(msg, base, run) && (msg.lowest || base in got)
    requires msg.seqNo > c.ack && m + n <= |run| && after.ack == base + m - 1 + n
    requires var waiting := c.inQueue[msg.seqNo := msg.text];
             && (forall k: u32 :: k in waiting <==> k in got + {msg.seqNo} && k >= base + m)
             && (forall k: u32 :: k in waiting ==> waiting[k] == run[k - base])
             && (forall k: u32 :: k in after.inQueue <==> k in waiting && !(base + m - 1 < k <= base + m - 1 + n))
             && (forall k: u32 :: k in after.inQueue ==> after.inQueue[k] == waiting[k])
    requires forall k :: base + m <= k < base + m + n ==> k in got + {msg.seqNo}
    requires base + m + n !in got + {msg.seqNo}
    ensures Has(after, before, base, run, got + {msg.seqNo}, m + n)
  {
  }

  lemma {:induction false} TakesOneMore(
    c: Conv, before: u32, base: u32, run: seq<Bytes>, got: set<int>, m: nat, msg: ConvoMessage, after: Conv,
    texts: seq<Bytes>)
    requires Has(c, before, base, run, got, m) && AboutOne(msg, base, run) && TakesIn(c, msg, after, texts)
    ensures m + |texts| <= |run| && texts == run[m..m + |texts|]
    ensures Has(after, before, base, run, got + {msg.seqNo}, m + |texts|)
  {
    if msg.seqNo <= c.ack {
      assert msg.seqNo in got;
      assert got + {msg.seqNo} == got;
    } else if base in got || msg.lowest {
      ChainGrows(c, before, base, run, got, m, msg, after, texts);
    } else {
      WaitsForHead(c, before, base, run, got, msg, after, texts);
    }
  }

  lemma {:induction false} SlicesJoin<T>(s: seq<T>, a: nat, b: nat, c: nat)
    requires a <= b <= c <= |s|
    ensures s[a..b] + s[b..c] == s[a..c]
  {
  }

  lemma {:induction false} TakesAllOfRun(
    c: Conv, before: u32, base: u32, run: seq<Bytes>, got: set<int>, m: nat,
    msgs: seq<ConvoMessage>, after: Conv, texts: seq<Bytes>)
    requires Has(c, before, base, run, got, m) && About(msgs, base, run) && TakesAll(c, msgs, after, texts)
    ensures m + |texts| <= |run| && texts == run[m..m + |texts|]
    ensures Has(after, before, base, run, got + Numbers(msgs), m + |texts|)
    decreases |msgs|
  {
    hide Has, TakesIn, TakesAll, AboutOne;
    if msgs == [] {
      assert got + Numbers(msgs) == got;
      NoneTaken(c, after, texts);
      HasBounds(c, before, base, run, got, m);
    } else {
      var mid, first, rest := FirstTaken(c, msgs, after, texts);
      assert AboutOne(msgs[0], base, run);
      TakesOneMore(c, before, base, run, got, m, msgs[0], mid, first);
      TakesAllOfRun(mid, before, base, run, got + {msgs[0].seqNo}, m + |first|, msgs[1..], after, rest);
      assert got + Numbers(msgs) == got + {msgs[0].seqNo} + Numbers(msgs[1..]);
      SlicesJoin(run, m, m + |first|, m + |texts|);
    }
  }

  lemma {:induction false} NoneTaken(c: Conv, after: Conv, texts: seq<Bytes>)
    requires TakesAll(c, [], after, texts)
    ensures after == c && texts == []
  {
  }

  lemma {:induction false} FirstTaken(c: Conv, msgs: seq<ConvoMessage>, after: Conv, texts: seq<Bytes>)
    returns (mid: Conv, first: seq<Bytes>, rest: seq<Bytes>)
    requires TakesAll(c, msgs, after, texts) && msgs != []
    ensures TakesIn(c, msgs[0], mid, first) && TakesAll(mid, msgs[1..], after, rest) && texts == first + rest
  {
    hide TakesIn;
    mid, first, rest :|
      TakesIn(c, msgs[0], mid, first) && TakesAll(mid, msgs[1..], after, rest) && texts == first + rest;
  }

  ghost function Numbers(msgs: seq<ConvoMessage>): set<int> {
    if msgs == [] then {} else {msgs[0].seqNo} + Numbers(msgs[1..])
  }

  /**
   Any order of arrival: a receiver with nothing waiting, whose acknowledgement is below a run of n
   numbers, gets each of them at least once, the first marked lowest. Whatever the order, without
   anything being sent again for it, all n texts are delivered, in the order of their numbers, and
   the acknowledgement is the last of them.
   */
  lemma {:induction false} AnyOrderDelivers(
    c: Conv, base: u32, run: seq<Bytes>, msgs: seq<ConvoMessage>, after: Conv, texts: seq<Bytes>)
    requires c.inQueue == map[] && c.ack < base && base + |run| < TWO_TO_THE_32 && run != []
    requires About(msgs, base, run) && TakesAll(c, msgs, after, texts)
    requires forall k :: base <= k < base + |run| ==> k in Numbers(msgs)
    ensures texts == run && after.ack == base + |run| - 1 && after.inQueue == map[]
  {
    TakesAllOfRun(c, c.ack, base, run, {}, 0, msgs, after, texts);
    var m := |texts|;
    assert {} + Numbers(msgs) == Numbers(msgs);
    assert base in Numbers(msgs);
    assert m < |run| ==> base + m in Numbers(msgs);
  }

  /** The messages taken in one after the other are such a sequence. */
  ghost function AllReceived(c: Conv, msgs: seq<ConvoMessage>): (Conv, seq<Bytes>)
    decreases |msgs|
  {
    if msgs == [] then (c, [])
    else
      var (mid, first) := Receive(c, msgs[0]);
      var (after, rest) := AllReceived(mid, msgs[1..]);
      (after, first + rest)
  }

  lemma {:induction false} ReceivedInTurn(c: Conv, msgs: seq<ConvoMessage>)
    requires 0 !in c.inQueue
    ensures TakesAll(c, msgs, AllReceived(c, msgs).0, AllReceived(c, msgs).1)
    decreases |msgs|
  {
    if msgs != [] {
      ReceiveExactly(c, msgs[0]);
      var (mid, first) := Receive(c, msgs[0]);
      hide Receive;
      assert 0 !in mid.inQueue by { ZeroStaysOut(c, msgs[0], mid, first); }
      hide TakesIn;
      ReceivedInTurn(mid, msgs[1..]);
    }
  }

  lemma {:induction false} ZeroStaysOut(c: Conv, msg: ConvoMessage, after: Conv, texts: seq<Bytes>)
    requires 0 !in c.inQueue && TakesIn(c, msg, after, texts)
    ensures 0 !in after.inQueue
  {
  }
}
