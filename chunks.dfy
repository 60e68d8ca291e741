/** `chunks(l, n)` of backend/mp/helpers: consecutive slices of at most n items. */
module Chunks {

  /** The concatenation of a sequence of sequences. */
  function Concat<T>(ss: seq<seq<T>>): seq<T>
  {
    if |ss| == 0 then [] else ss[0] + Concat(ss[1..])
  }

  /** The slice size chunks uses: n clamped to at least 1. */
  function Width(n: int): (w: nat)
    ensures w >= 1 && (n >= 1 ==> w == n)
  {
    if n < 1 then 1 else n
  }

  /** (l[i : i + n] for i in range(0, len(l), n)) with n = max(1, n). */
  function Chunks<T>(l: seq<T>, n: int): (r: seq<seq<T>>)
    ensures Concat(r) == l
    ensures forall i :: 0 <= i < |r| ==> 0 < |r[i]| <= Width(n)
    ensures forall i :: 0 <= i < |r| - 1 ==> |r[i]| == Width(n)
    ensures |l| == 0 <==> |r| == 0
    decreases |l|
  {
    var w := Width(n);
    if |l| == 0 then []
    else if |l| <= w then [l]
    else
      var rest := Chunks(l[w..], n);
      assert l[..w] + l[w..] == l;
      [l[..w]] + rest
  }

  /** There are ceil(len(l) / n) chunks. */
  lemma {:induction false} ChunksCount<T>(l: seq<T>, n: int)
    requires |l| > 0
    ensures (|Chunks(l, n)| - 1) * Width(n) < |l| <= |Chunks(l, n)| * Width(n)
    decreases |l|
  {
    var w := Width(n);
    if |l| > w {
      ChunksCount(l[w..], n);
      var k := |Chunks(l[w..], n)|;
      assert |Chunks(l, n)| == k + 1;
      assert (k + 1) * w == k * w + w;
    }
  }

  /** Concatenation distributes over appending. */
  lemma {:induction false} ConcatAppend<T>(a: seq<seq<T>>, b: seq<seq<T>>)
    ensures Concat(a + b) == Concat(a) + Concat(b)
  {
    if |a| > 0 {
      assert (a + b)[1..] == a[1..] + b;
      ConcatAppend(a[1..], b);
    } else {
      assert a + b == b;
    }
  }
}
