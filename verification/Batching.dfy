/** The coordinator's batch: bundles are joined before mixing, and the replies are cut at the same places. */
module Batching {
  import opened Common

  /** What one client sent for a round. */
  datatype Bundle = Bundle(sender: nat, onions: seq<Bytes>)

  datatype SenderRange = SenderRange(sender: nat, start: nat, end: nat)

  /** A reply message to one sender. */
  datatype Reply = Reply(receiver: nat, onions: seq<Bytes>)

  datatype Outcome = Mixed(sent: seq<Reply>) | ServerError

  function Joined(out: seq<Bundle>): seq<Bytes> {
    if out == [] then [] else Joined(out[..|out| - 1]) + out[|out| - 1].onions
  }

  /** Where bundle i's onions start in the joined batch. */
  function Start(out: seq<Bundle>, i: nat): nat
    requires i <= |out|
  {
    |Joined(out[..i])|
  }

  ghost function Concat(replies: seq<Reply>): seq<Bytes> {
    if replies == [] then [] else Concat(replies[..|replies| - 1]) + replies[|replies| - 1].onions
  }

  lemma {:induction false} StartNext(out: seq<Bundle>, i: nat)
    requires i < |out|
    ensures Joined(out[..i + 1]) == Joined(out[..i]) + out[i].onions
    ensures Start(out, i + 1) == Start(out, i) + |out[i].onions|
  {
    assert out[..i + 1][..i] == out[..i];
  }

  /** Bundle i's onions are the stretch of the batch from its start. */
  lemma {:induction false} JoinedAt(out: seq<Bundle>, i: nat, n: nat)
    requires i < n <= |out|
    ensures Start(out, i) + |out[i].onions| <= Start(out, n)
    ensures Joined(out[..n])[Start(out, i)..Start(out, i) + |out[i].onions|] == out[i].onions
  {
    StartNext(out, n - 1);
    if i < n - 1 {
      JoinedAt(out, i, n - 1);
      var start := Start(out, i);
      assert Joined(out[..n])[start..start + |out[i].onions|] == Joined(out[..n - 1])[start..start + |out[i].onions|];
    }
  }

  /** Every place in the batch belongs to exactly one bundle. */
  lemma {:induction false} RangesPartition(out: seq<Bundle>, n: nat, k: nat) returns (i: nat)
    requires n <= |out| && k < Start(out, n)
    ensures i < n && Start(out, i) <= k < Start(out, i) + |out[i].onions|
    ensures forall j :: 0 <= j < n && j != i ==> !(Start(out, j) <= k < Start(out, j) + |out[j].onions|)
  {
    StartNext(out, n - 1);
    if k < Start(out, n - 1) {
      i := RangesPartition(out, n - 1, k);
    } else {
      i := n - 1;
      forall j | 0 <= j < n - 1
        ensures Start(out, j) + |out[j].onions| <= Start(out, n - 1)
      {
        JoinedAt(out, j, n - 1);
      }
    }
  }

  /** The replies to cut for a batch that was mixed. */
  ghost predicate CutAtRanges(out: seq<Bundle>, replies: seq<Bytes>, sent: seq<Reply>) {
    && |replies| == |Joined(out)| && |sent| == |out|
    && forall i :: 0 <= i < |out| ==>
         && sent[i].receiver == out[i].sender
         && Start(out, i) + |out[i].onions| <= |replies|
         && sent[i].onions == replies[Start(out, i)..Start(out, i) + |out[i].onions|]
  }

  /** Nothing is lost, added or reordered: the replies that were sent are the mixed replies. */
  lemma {:induction false} RepliesConserved(out: seq<Bundle>, replies: seq<Bytes>, sent: seq<Reply>)
    requires CutAtRanges(out, replies, sent)
    ensures Concat(sent) == replies
  {
    ConcatUpTo(out, replies, sent, |out|);
    assert out[..|out|] == out && sent[..|out|] == sent;
  }

  lemma {:induction false} ConcatUpTo(out: seq<Bundle>, replies: seq<Bytes>, sent: seq<Reply>, n: nat)
    requires CutAtRanges(out, replies, sent) && n <= |out|
    ensures Start(out, n) <= |replies| && Concat(sent[..n]) == replies[..Start(out, n)]
  {
    if n > 0 {
      CutAt(out, replies, sent, n - 1);
      ConcatUpTo(out, replies, sent, n - 1);
      StartNext(out, n - 1);
      hide CutAtRanges, Start, Joined;
      ConcatNext(sent, n);
      SliceNext(replies, Start(out, n - 1), Start(out, n));
    }
  }

  lemma {:induction false} ConcatNext(sent: seq<Reply>, n: nat)
    requires 0 < n <= |sent|
    ensures Concat(sent[..n]) == Concat(sent[..n - 1]) + sent[n - 1].onions
  {
    assert sent[..n][..n - 1] == sent[..n - 1];
  }

  lemma {:induction false} SliceNext<T>(s: seq<T>, a: nat, b: nat)
    requires a <= b <= |s|
    ensures s[..a] + s[a..b] == s[..b]
  {
  }

  lemma {:induction false} CutAt(out: seq<Bundle>, replies: seq<Bytes>, sent: seq<Reply>, i: nat)
    requires CutAtRanges(out, replies, sent) && i < |out|
    ensures |sent| == |out| && Start(out, i) + |out[i].onions| <= |replies|
    ensures sent[i].onions == replies[Start(out, i)..Start(out, i) + |out[i].onions|]
  {
    hide Start, Joined;
  }

  /** Reply j to the sender of bundle i is the mix's reply to onion j of that bundle. */
  lemma {:induction false} SlotsLineUp(out: seq<Bundle>, replies: seq<Bytes>, sent: seq<Reply>, i: nat, j: nat)
    requires CutAtRanges(out, replies, sent) && i < |out| && j < |out[i].onions|
    ensures |sent[i].onions| == |out[i].onions|
    ensures Start(out, i) + j < |replies|
    ensures Joined(out)[Start(out, i) + j] == out[i].onions[j] && sent[i].onions[j] == replies[Start(out, i) + j]
  {
    assert out[..|out|] == out;
    assert Start(out, |out|) == |Joined(out)|;
    hide CutAtRanges, Joined, Start;
    JoinedAt(out, i, |out|);
    CutAt(out, replies, sent, i);
    SliceAt(Joined(out), Start(out, i), out[i].onions, j);
    SliceAt(replies, Start(out, i), sent[i].onions, j);
  }

  lemma {:induction false} SliceAt<T>(s: seq<T>, start: nat, piece: seq<T>, j: nat)
    requires start + |piece| <= |s| && s[start..start + |piece|] == piece && j < |piece|
    ensures s[start + j] == piece[j]
  {
    assert s[start..start + |piece|][j] == s[start + j];
  }

  /** The batch that goes to the mixers and each bundle's range in it. */
  method JoinBundles(out: seq<Bundle>) returns (onions: seq<Bytes>, senders: seq<SenderRange>)
    ensures onions == Joined(out) && |senders| == |out|
    ensures forall i :: 0 <= i < |out| ==>
      senders[i] == SenderRange(out[i].sender, Start(out, i), Start(out, i) + |out[i].onions|)
    ensures forall i :: 0 <= i < |out| ==> Start(out, i) + |out[i].onions| <= |onions|
  {
    onions, senders := [], [];
    for i := 0 to |out|
      invariant onions == Joined(out[..i]) && |senders| == i
      invariant forall k :: 0 <= k < i ==>
        senders[k] == SenderRange(out[k].sender, Start(out, k), Start(out, k) + |out[k].onions|)
      invariant forall k :: 0 <= k < i ==> Start(out, k) + |out[k].onions| <= |onions|
    {
      StartNext(out, i);
      senders := senders + [SenderRange(out[i].sender, |onions|, |onions| + |out[i].onions|)];
      onions := onions + out[i].onions;
    }
    assert out[..|out|] == out;
  }

  /** mixOnions: mix is the mixers' round, None when it fails. */
  method MixOnions(out: seq<Bundle>, mix: seq<Bytes> -> Option<seq<Bytes>>) returns (r: Outcome)
    requires forall b :: mix(b).Some? ==> |mix(b).value| == |b|
    ensures r.ServerError? <==> mix(Joined(out)).None?
    ensures r.Mixed? ==> CutAtRanges(out, mix(Joined(out)).value, r.sent)
  {
    hide Joined, Start;
    var onions, senders := JoinBundles(out);
    var mixed := mix(onions);
    if mixed.None? {
      return ServerError;
    }
    var replies := mixed.value;
    var sent := [];
    for i := 0 to |senders|
      invariant |sent| == i
      invariant forall k :: 0 <= k < i ==>
        sent[k] == Reply(out[k].sender, replies[Start(out, k)..Start(out, k) + |out[k].onions|])
    {
      var sr := senders[i];
      sent := sent + [Reply(sr.sender, replies[sr.start..sr.end])];
    }
    return Mixed(sent);
  }
}
