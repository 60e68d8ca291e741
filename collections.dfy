/** Small facts about sequences and sets used throughout. */
module Collections {

  /** The elements of a sequence. */
  lemma SeqSetCons<T>(s: seq<T>)
    requires |s| > 0
    ensures (set x | x in s) == {s[0]} + (set x | x in s[1..])
  {
    assert s == [s[0]] + s[1..];
    forall x | x in s ensures x == s[0] || x in s[1..] {
      var i :| 0 <= i < |s| && s[i] == x;
      if i > 0 {
        assert s[1..][i - 1] == x;
      }
    }
  }

  /** Adding a new element to a set adds one to its difference with e, unless it is in e. */
  lemma DiffStep<T>(x: T, s: set<T>, e: set<T>)
    requires x !in s
    ensures |({x} + s) - e| == |s - e| + (if x in e then 0 else 1)
  {
    if x in e {
      assert ({x} + s) - e == s - e;
    } else {
      assert ({x} + s) - e == {x} + (s - e);
    }
  }

  /** A subset and its complement make up the whole. */
  lemma SubsetSplit<T>(e: set<T>, s: set<T>)
    requires e <= s
    ensures |s| == |e| + |s - e|
  {
    assert s == e + (s - e);
  }
}
