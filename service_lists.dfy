/** sorted(services, key=lambda d: d["name"]) as transaction_changed uses it to compare the
    stored and the incoming services of an order transaction. */
module ServiceLists {
  import opened Wrappers
  import opened Values

  /** Python's <= on str: code point by code point, a proper prefix first. */
  predicate StrLe(a: string, b: string)
    decreases |a|
  {
    |a| == 0 || (|b| > 0 && (a[0] < b[0] || (a[0] == b[0] && StrLe(a[1..], b[1..]))))
  }

  lemma {:induction false} StrLeRefl(a: string)
    ensures StrLe(a, a)
    decreases |a|
  {
    if |a| > 0 {
      StrLeRefl(a[1..]);
    }
  }

  lemma {:induction false} StrLeTotal(a: string, b: string)
    ensures StrLe(a, b) || StrLe(b, a)
    decreases |a|
  {
    if |a| > 0 && |b| > 0 && a[0] == b[0] {
      StrLeTotal(a[1..], b[1..]);
    }
  }

  lemma {:induction false} StrLeTrans(a: string, b: string, c: string)
    requires StrLe(a, b) && StrLe(b, c)
    ensures StrLe(a, c)
    decreases |a|
  {
    if |a| > 0 && a[0] == b[0] && b[0] == c[0] {
      StrLeTrans(a[1..], b[1..], c[1..]);
    }
  }

  lemma {:induction false} StrLeAntisym(a: string, b: string)
    requires StrLe(a, b) && StrLe(b, a)
    ensures a == b
    decreases |a|
  {
    if |a| > 0 {
      StrLeAntisym(a[1..], b[1..]);
      assert a == [a[0]] + a[1..] && b == [b[0]] + b[1..];
    }
  }

  /** d["name"]: KeyError without a name; a name that is not a string raises TypeError. */
  function NameOf(v: Value): (r: Result<string>)
    ensures r.Ok? <==> v.VObj? && "name" in v.fields && v.fields["name"].VStr?
    ensures r.Ok? ==> r.value == v.fields["name"].s
  {
    match v
    case VObj(m) =>
      if "name" !in m then Err(KeyError)
      else if m["name"].VStr? then Ok(m["name"].s)
      else Err(TypeError)
    case _ => Err(TypeError)
  }

  /** The sort key of an item ("" for one whose key raises). */
  function Name(v: Value): string
  {
    if NameOf(v).Ok? then NameOf(v).value else ""
  }

  /** The keys are computed first, in order: the first that raises ends the sort. */
  function CheckNames(xs: seq<Value>): (r: Result<seq<Value>>)
    ensures r.Ok? <==> forall i :: 0 <= i < |xs| ==> NameOf(xs[i]).Ok?
    ensures r.Ok? ==> r.value == xs
    ensures r.Err? ==> exists i :: 0 <= i < |xs| && NameOf(xs[i]) == Err(r.error)
  {
    if |xs| == 0 then Ok(xs)
    else if NameOf(xs[0]).Err? then Err(NameOf(xs[0]).error)
    else
      var rest := CheckNames(xs[1..]);
      if rest.Err? then Err(rest.error) else Ok(xs)
  }

  predicate Sorted(s: seq<Value>)
  {
    forall i, j :: 0 <= i < j < |s| ==> StrLe(Name(s[i]), Name(s[j]))
  }

  /** x goes before the first item whose name is not smaller, so after no item of its name. */
  function Insert(x: Value, s: seq<Value>): seq<Value>
  {
    if |s| == 0 then [x]
    else if StrLe(Name(x), Name(s[0])) then [x] + s
    else [s[0]] + Insert(x, s[1..])
  }

  /** A stable sort by name. */
  function SortByName(xs: seq<Value>): seq<Value>
  {
    if |xs| == 0 then [] else Insert(xs[0], SortByName(xs[1..]))
  }

  lemma {:induction false} InsertFacts(x: Value, s: seq<Value>)
    requires Sorted(s)
    ensures Sorted(Insert(x, s))
    ensures multiset(Insert(x, s)) == multiset(s) + multiset{x}
  {
    InsertSorted(x, s);
    InsertPerm(x, s);
  }

  lemma {:induction false} InsertPerm(x: Value, s: seq<Value>)
    ensures multiset(Insert(x, s)) == multiset(s) + multiset{x}
  {
    if |s| > 0 && !StrLe(Name(x), Name(s[0])) {
      InsertPerm(x, s[1..]);
      assert s == [s[0]] + s[1..];
    }
  }

  /** An item no greater than the first of a sorted list can go in front of it. */
  lemma SortedCons(a: Value, rest: seq<Value>)
    requires Sorted(rest) && (|rest| > 0 ==> StrLe(Name(a), Name(rest[0])))
    ensures Sorted([a] + rest)
  {
    var r := [a] + rest;
    forall i, j | 0 <= i < j < |r| ensures StrLe(Name(r[i]), Name(r[j])) {
      if i == 0 {
        if j > 1 {
          StrLeTrans(Name(a), Name(rest[0]), Name(rest[j - 1]));
        }
      } else {
        assert r[i] == rest[i - 1] && r[j] == rest[j - 1];
      }
    }
  }

  lemma {:induction false} InsertSorted(x: Value, s: seq<Value>)
    requires Sorted(s)
    ensures Sorted(Insert(x, s))
  {
    if |s| == 0 {
      assert Insert(x, s) == [x] + [];
      SortedCons(x, []);
    } else if StrLe(Name(x), Name(s[0])) {
      SortedCons(x, s);
    } else {
      SortedTail(s);
      InsertSorted(x, s[1..]);
      var rest := Insert(x, s[1..]);
      assert StrLe(Name(s[0]), Name(rest[0])) by {
        StrLeTotal(Name(x), Name(s[0]));
        if |s| > 1 {
          assert StrLe(Name(s[0]), Name(s[1]));
        }
      }
      SortedCons(s[0], rest);
    }
  }

  /** The result is sorted by name and holds the same items. */
  lemma {:induction false} SortFacts(xs: seq<Value>)
    ensures Sorted(SortByName(xs))
    ensures multiset(SortByName(xs)) == multiset(xs)
  {
    if |xs| > 0 {
      SortFacts(xs[1..]);
      InsertFacts(xs[0], SortByName(xs[1..]));
      assert xs == [xs[0]] + xs[1..];
    }
  }

  /** The items of one name, in order. */
  function OfName(s: seq<Value>, n: string): seq<Value>
  {
    if |s| == 0 then [] else (if Name(s[0]) == n then [s[0]] else []) + OfName(s[1..], n)
  }

  lemma {:induction false} InsertOfName(x: Value, s: seq<Value>, n: string)
    ensures OfName(Insert(x, s), n) == (if Name(x) == n then [x] + OfName(s, n) else OfName(s, n))
  {
    if |s| > 0 && !StrLe(Name(x), Name(s[0])) {
      InsertOfName(x, s[1..], n);
      StrLeRefl(Name(x));
      assert Insert(x, s)[1..] == Insert(x, s[1..]);
    } else if |s| > 0 {
      assert ([x] + s)[1..] == s;
    }
  }

  /** The sort is stable: the items of each name keep their order. */
  lemma {:induction false} SortStable(xs: seq<Value>, n: string)
    ensures OfName(SortByName(xs), n) == OfName(xs, n)
  {
    if |xs| > 0 {
      SortStable(xs[1..], n);
      InsertOfName(xs[0], SortByName(xs[1..]), n);
    }
  }

  /** Items that share a name are the same item. */
  predicate NamesDetermine(s: seq<Value>)
  {
    forall x, y :: x in s && y in s && Name(x) == Name(y) ==> x == y
  }

  lemma SortedTail(s: seq<Value>)
    requires |s| > 0 && Sorted(s)
    ensures Sorted(s[1..])
  {
    forall i, j | 0 <= i < j < |s[1..]| ensures StrLe(Name(s[1..][i]), Name(s[1..][j])) {
      assert s[1..][i] == s[i + 1] && s[1..][j] == s[j + 1];
    }
  }

  lemma NamesDetermineTail(s: seq<Value>)
    requires |s| > 0 && NamesDetermine(s)
    ensures NamesDetermine(s[1..])
  {
    forall x, y | x in s[1..] && y in s[1..] && Name(x) == Name(y) ensures x == y {
      assert x in s && y in s;
    }
  }

  /** The first items of two sorted orders of the same items have the same name. */
  lemma HeadsShareName(a: seq<Value>, b: seq<Value>)
    requires |a| > 0 && |b| > 0 && Sorted(a) && Sorted(b) && multiset(a) == multiset(b)
    ensures StrLe(Name(a[0]), Name(b[0])) && StrLe(Name(b[0]), Name(a[0]))
  {
    assert a[0] in multiset(b) && b[0] in multiset(a);
    var j :| 0 <= j < |b| && b[j] == a[0];
    var i :| 0 <= i < |a| && a[i] == b[0];
    StrLeRefl(Name(a[0]));
    StrLeRefl(Name(b[0]));
    if i > 0 {
      assert StrLe(Name(a[0]), Name(a[i]));
    }
    if j > 0 {
      assert StrLe(Name(b[0]), Name(b[j]));
    }
  }

  /** So they start with the same item. */
  lemma HeadStep(a: seq<Value>, b: seq<Value>)
    requires |a| > 0 && |b| > 0 && Sorted(a) && Sorted(b) && multiset(a) == multiset(b) && NamesDetermine(a)
    ensures a[0] == b[0]
  {
    HeadsShareName(a, b);
    StrLeAntisym(Name(a[0]), Name(b[0]));
    assert b[0] in multiset(a);
  }

  /** Removing one common first item leaves the same items. */
  lemma TailStep<T>(a: seq<T>, b: seq<T>)
    requires |a| > 0 && |b| > 0 && a[0] == b[0] && multiset(a) == multiset(b)
    ensures multiset(a[1..]) == multiset(b[1..])
  {
    assert a == [a[0]] + a[1..] && b == [b[0]] + b[1..];
    assert multiset(a[1..]) == multiset(a) - multiset{a[0]};
    assert multiset(b[1..]) == multiset(b) - multiset{b[0]};
  }

  /** Two sorted orders of the same items are one when a name determines its item. */
  lemma {:induction false} SortedUnique(a: seq<Value>, b: seq<Value>)
    requires Sorted(a) && Sorted(b) && multiset(a) == multiset(b) && NamesDetermine(a)
    ensures a == b
    decreases |a|
  {
    assert |a| == |b| by {
      assert |multiset(a)| == |multiset(b)|;
    }
    if |a| > 0 {
      HeadStep(a, b);
      TailStep(a, b);
      SortedTail(a);
      SortedTail(b);
      NamesDetermineTail(a);
      SortedUnique(a[1..], b[1..]);
      assert a == [a[0]] + a[1..] && b == [b[0]] + b[1..];
    }
  }

  /** sorted_a != sorted_b: the two sorted lists differ exactly when the items differ as
      multisets, provided a name determines its item. */
  lemma SortedDiffer(a: seq<Value>, b: seq<Value>)
    requires NamesDetermine(a)
    ensures SortByName(a) != SortByName(b) <==> multiset(a) != multiset(b)
  {
    SortFacts(a);
    SortFacts(b);
    if multiset(a) == multiset(b) {
      var sa := SortByName(a);
      assert NamesDetermine(sa) by {
        forall x, y | x in sa && y in sa && Name(x) == Name(y) ensures x == y {
          assert x in multiset(a) && y in multiset(a);
        }
      }
      SortedUnique(sa, SortByName(b));
    }
  }
}
