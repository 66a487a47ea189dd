/** Splitting a batch into consecutive spans, and putting the pieces back. */
module Spans {
  import opened Common

  datatype Span = Span(start: nat, count: nat)

  /** The contract of the span library: consecutive spans of one size, the last one possibly shorter. */
  function SpansFrom(total: nat, size: nat, start: nat): seq<Span>
    requires size > 0
    decreases if start < total then total - start else 0
  {
    if start >= total then []
    else
      var count := if start + size > total then total - start else size;
      [Span(start, count)] + SpansFrom(total, size, start + count)
  }

  function SpansOf(total: nat, size: nat): seq<Span>
    requires size > 0
  {
    SpansFrom(total, size, 0)
  }

  /** A client sends a batch over about five connections. */
  function SpanSize(numOnions: nat): (s: nat)
    ensures s > 0
  {
    if numOnions / 5 == 0 then 1 else numOnions / 5
  }

  predicate InSpan(s: Span, i: int) {
    s.start <= i < s.start + s.count
  }

  /** Spans stay in range and none is empty. */
  lemma {:induction false} SpansInRange(total: nat, size: nat, start: nat, k: nat)
    requires size > 0 && k < |SpansFrom(total, size, start)|
    ensures var s := SpansFrom(total, size, start)[k];
            start <= s.start && 0 < s.count <= size && s.start + s.count <= total
    decreases k
  {
    if k > 0 {
      var count := if start + size > total then total - start else size;
      SpansInRange(total, size, start + count, k - 1);
    }
  }

  /** Every index lies in exactly one span. */
  lemma {:induction false} SpansPartition(total: nat, size: nat, start: nat, i: nat) returns (k: nat)
    requires size > 0 && start <= i < total
    ensures k < |SpansFrom(total, size, start)| && InSpan(SpansFrom(total, size, start)[k], i)
    ensures forall m :: 0 <= m < |SpansFrom(total, size, start)| && m != k ==>
              !InSpan(SpansFrom(total, size, start)[m], i)
    decreases total - start
  {
    var spans := SpansFrom(total, size, start);
    var count := if start + size > total then total - start else size;
    if i < start + count {
      k := 0;
      forall m | 0 < m < |spans|
        ensures !InSpan(spans[m], i)
      {
        SpansInRange(total, size, start + count, m - 1);
      }
    } else {
      var rest := SpansPartition(total, size, start + count, i);
      k := rest + 1;
      forall m | 0 <= m < |spans| && m != k
        ensures !InSpan(spans[m], i)
      {
        if m > 0 {
          assert spans[m] == SpansFrom(total, size, start + count)[m - 1];
        }
      }
    }
  }

  /** Span k is the k-th stretch of that size, cut off at the end. */
  lemma {:induction false} SpanPlace(total: nat, size: nat, start: nat, k: nat)
    requires size > 0 && k < |SpansFrom(total, size, start)|
    ensures var s := SpansFrom(total, size, start)[k];
            && s.start == start + k * size
            && s.count == if s.start + size <= total then size else total - s.start
    decreases k
  {
    if k > 0 {
      assert start + size < total;
      SpanPlace(total, size, start + size, k - 1);
      assert k * size == (k - 1) * size + size;
    }
  }

  /** Onions and replies travel in pieces of sixteen, the last of which may be shorter. */
  lemma {:induction false} PiecesOfSixteen(count: nat, k: nat)
    requires k < |SpansOf(count, STREAM_SPAN)|
    ensures var piece := SpansOf(count, STREAM_SPAN)[k];
            && piece.start == 16 * k && 0 < piece.count <= 16 && piece.start + piece.count <= count
            && (k < |SpansOf(count, STREAM_SPAN)| - 1 ==> piece.count == 16)
  {
    SpanPlace(count, STREAM_SPAN, 0, k);
    SpansInRange(count, STREAM_SPAN, 0, k);
    if k < |SpansOf(count, STREAM_SPAN)| - 1 {
      SpanPlace(count, STREAM_SPAN, 0, k + 1);
      SpansInRange(count, STREAM_SPAN, 0, k + 1);
    }
  }

  lemma {:induction false} SpanCount(total: nat, size: nat, start: nat)
    requires size > 0
    ensures var n := |SpansFrom(total, size, start)|;
            if start >= total then n == 0 else (n - 1) * size < total - start <= n * size
    decreases if start < total then total - start else 0
  {
    if start < total {
      var count := if start + size > total then total - start else size;
      SpanCount(total, size, start + count);
      var n := |SpansFrom(total, size, start)|;
      assert n == |SpansFrom(total, size, start + count)| + 1;
      assert (n - 1) * size == (n - 2) * size + size;
      assert n * size == (n - 1) * size + size;
    }
  }

  lemma {:induction false} ProductAtLeast(n: nat, size: nat)
    ensures n >= 9 ==> n * size >= 9 * size
  {
    if n >= 9 {
      assert n * size == 9 * size + (n - 9) * size;
    }
  }

  /** A batch of any size goes over at most nine connections. */
  lemma {:induction false} AtMostNineConnections(numOnions: nat)
    ensures |SpansOf(numOnions, SpanSize(numOnions))| <= 9
  {
    var size := SpanSize(numOnions);
    var n := |SpansOf(numOnions, size)|;
    SpanCount(numOnions, size, 0);
    assert numOnions <= 5 * size + 4;
    if n > 0 {
      ProductAtLeast(n - 1, size);
    }
  }

  /** The bound is reached by batches of nine onions and by no others. */
  lemma {:induction false} NineConnectionsExactly(numOnions: nat)
    ensures |SpansOf(numOnions, SpanSize(numOnions))| == 9 <==> numOnions == 9
  {
    var size := SpanSize(numOnions);
    var n := |SpansOf(numOnions, size)|;
    SpanCount(numOnions, size, 0);
    if n == 9 {
      assert 8 * size < numOnions <= 5 * size + 4;
      assert size == 1;
    }
  }

  const STREAM_SPAN: nat := 16

  /** GetOnions for one connection: the server streams a span of its replies in pieces of sixteen. */
  method FetchSpan<T>(source: seq<T>, span: Span, replies: array<T>)
    requires span.start + span.count <= |source| == replies.Length
    modifies replies
    ensures forall i :: 0 <= i < |source| ==> replies[i] == if InSpan(span, i) then source[i] else old(replies[i])
  {
    var pieces := SpansOf(span.count, STREAM_SPAN);
    var k := 0;
    ghost var done: nat := 0;
    while k < |pieces|
      invariant k <= |pieces|
      invariant done <= span.count
      invariant SpansFrom(span.count, STREAM_SPAN, done) == pieces[k..]
      invariant forall i :: 0 <= i < |source| ==>
                  replies[i] == if span.start <= i < span.start + done then source[i] else old(replies[i])
    {
      var piece := pieces[k];
      assert piece == SpansFrom(span.count, STREAM_SPAN, done)[0];
      var offset := span.start + piece.start;
      forall i | 0 <= i < piece.count {
        replies[offset + i] := source[offset + i];
      }
      done := done + piece.count;
      k := k + 1;
    }
  }

  /** The pieces of all connections, arriving in any order, rebuild the server's replies. */
  method FetchAll<T(0)>(source: seq<T>) returns (copy: seq<T>)
    ensures copy == source
  {
    var replies := new T[|source|];
    var spans := SpansOf(|source|, SpanSize(|source|));
    var todo := Indices(|spans|);
    while todo != {}
      invariant forall k :: k in todo ==> k < |spans|
      invariant forall i, k :: 0 <= k < |spans| && k !in todo && InSpan(spans[k], i) && 0 <= i < |source| ==>
                  replies[i] == source[i]
      decreases todo
    {
      var k :| k in todo;
      SpansInRange(|source|, SpanSize(|source|), 0, k);
      FetchSpan(source, spans[k], replies);
      todo := todo - {k};
    }
    forall i | 0 <= i < |source|
      ensures replies[i] == source[i]
    {
      var k := SpansPartition(|source|, SpanSize(|source|), 0, i);
    }
    copy := replies[..];
  }
}
