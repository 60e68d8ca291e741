/** The query check_queue starts from (backend/mp/tasks/check_campaign_report.py):
    Report.objects.filter(shop=shop, is_parsed=False).order_by("uuid", "-updated_at")[:5].
    The order is PostgreSQL's: uuid ascending with unset uuids last, then the most recently
    updated first; rows the two columns do not tell apart are taken in primary-key order. */
module QueueOrder {
  import opened Wrappers
  import opened Reports

  /** At most this many reports are looked at per pass. */
  const QueueSize: nat := 5

  // ---------------------------------------------------------------- the order

  /** Lexicographic order of texts, by code point. */
  function StrLt(a: string, b: string): bool
    decreases |a|
  {
    if |a| == 0 then |b| > 0
    else |b| > 0 && (a[0] < b[0] || (a[0] == b[0] && StrLt(a[1..], b[1..])))
  }

  lemma {:induction false} StrLtIrreflexive(a: string)
    ensures !StrLt(a, a)
    decreases |a|
  {
    if |a| > 0 {
      StrLtIrreflexive(a[1..]);
    }
  }

  lemma {:induction false} StrLtTransitive(a: string, b: string, c: string)
    requires StrLt(a, b) && StrLt(b, c)
    ensures StrLt(a, c)
    decreases |a|
  {
    if |a| > 0 && a[0] == b[0] && b[0] == c[0] {
      StrLtTransitive(a[1..], b[1..], c[1..]);
    }
  }

  lemma {:induction false} StrLtTotal(a: string, b: string)
    requires a != b
    ensures StrLt(a, b) || StrLt(b, a)
    decreases |a|
  {
    if |a| > 0 && |b| > 0 && a[0] == b[0] {
      assert a == [a[0]] + a[1..] && b == [b[0]] + b[1..];
      StrLtTotal(a[1..], b[1..]);
    }
  }

  /** uuid ascending, NULLS LAST. */
  predicate UuidLt(a: Option<string>, b: Option<string>)
  {
    a.Some? && (b.None? || StrLt(a.value, b.value))
  }

  /** Report a comes before report b in order_by("uuid", "-updated_at"). */
  predicate Before(rows: map<nat, Report>, a: nat, b: nat)
    requires a in rows && b in rows
  {
    var x := rows[a];
    var y := rows[b];
    UuidLt(x.uuid, y.uuid) || (x.uuid == y.uuid && (x.updatedAt > y.updatedAt || (x.updatedAt == y.updatedAt && a < b)))
  }

  predicate Le(rows: map<nat, Report>, a: nat, b: nat)
    requires a in rows && b in rows
  {
    a == b || Before(rows, a, b)
  }

  lemma BeforeIrreflexive(rows: map<nat, Report>, a: nat)
    requires a in rows
    ensures !Before(rows, a, a)
  {
    if rows[a].uuid.Some? {
      StrLtIrreflexive(rows[a].uuid.value);
    }
  }

  lemma BeforeTransitive(rows: map<nat, Report>, a: nat, b: nat, c: nat)
    requires a in rows && b in rows && c in rows
    requires Before(rows, a, b) && Before(rows, b, c)
    ensures Before(rows, a, c)
  {
    var x, y, z := rows[a].uuid, rows[b].uuid, rows[c].uuid;
    if UuidLt(x, y) && UuidLt(y, z) && z.Some? {
      StrLtTransitive(x.value, y.value, z.value);
    }
  }

  /** Two different reports are always ordered one way or the other. */
  lemma BeforeTotal(rows: map<nat, Report>, a: nat, b: nat)
    requires a in rows && b in rows && a != b
    ensures Before(rows, a, b) || Before(rows, b, a)
  {
    var x, y := rows[a].uuid, rows[b].uuid;
    if x.Some? && y.Some? && x != y {
      StrLtTotal(x.value, y.value);
    }
  }

  lemma LeTransitive(rows: map<nat, Report>, a: nat, b: nat, c: nat)
    requires a in rows && b in rows && c in rows
    requires Le(rows, a, b) && Le(rows, b, c)
    ensures Le(rows, a, c)
  {
    if a != b && b != c {
      BeforeTransitive(rows, a, b, c);
    }
  }

  // ---------------------------------------------------------------- the sort

  predicate InRows(rows: map<nat, Report>, s: seq<nat>)
  {
    forall i :: 0 <= i < |s| ==> s[i] in rows
  }

  predicate Sorted(rows: map<nat, Report>, s: seq<nat>)
    requires InRows(rows, s)
  {
    forall i, j :: 0 <= i < j < |s| ==> Le(rows, s[i], s[j])
  }

  function Insert(rows: map<nat, Report>, x: nat, s: seq<nat>): (r: seq<nat>)
    requires x in rows && InRows(rows, s)
    ensures multiset(r) == multiset(s) + multiset{x}
    ensures InRows(rows, r)
    decreases |s|
  {
    if |s| == 0 then [x]
    else if Le(rows, x, s[0]) then [x] + s
    else
      assert s == [s[0]] + s[1..];
      [s[0]] + Insert(rows, x, s[1..])
  }

  lemma {:induction false} InsertFacts(rows: map<nat, Report>, x: nat, s: seq<nat>)
    requires x in rows && InRows(rows, s)
    ensures Sorted(rows, s) ==> Sorted(rows, Insert(rows, x, s))
    decreases |s|
  {
    if |s| > 0 && Sorted(rows, s) {
      if Le(rows, x, s[0]) {
        SortedCons(rows, x, s);
      } else {
        assert Sorted(rows, s[1..]) by {
          forall i, j | 0 <= i < j < |s[1..]| ensures Le(rows, s[1..][i], s[1..][j]) {
            assert s[1..][i] == s[i + 1] && s[1..][j] == s[j + 1];
          }
        }
        InsertFacts(rows, x, s[1..]);
        var rest := Insert(rows, x, s[1..]);
        assert Le(rows, s[0], rest[0]) by {
          if rest[0] == x {
            BeforeTotal(rows, x, s[0]);
          } else {
            assert |s| > 1 && rest[0] == s[1];
          }
        }
        SortedCons(rows, s[0], rest);
      }
    }
  }

  /** A report no later than the first of a sorted list can go in front of it. */
  lemma SortedCons(rows: map<nat, Report>, a: nat, rest: seq<nat>)
    requires a in rows && InRows(rows, rest) && Sorted(rows, rest)
    requires |rest| > 0 ==> Le(rows, a, rest[0])
    ensures InRows(rows, [a] + rest) && Sorted(rows, [a] + rest)
  {
    var r := [a] + rest;
    assert InRows(rows, r) by {
      forall i | 0 <= i < |r| ensures r[i] in rows {
        if i > 0 { assert r[i] == rest[i - 1]; }
      }
    }
    forall i, j | 0 <= i < j < |r| ensures Le(rows, r[i], r[j]) {
      if i == 0 {
        if j > 1 {
          LeTransitive(rows, a, rest[0], rest[j - 1]);
        }
      } else {
        assert r[i] == rest[i - 1] && r[j] == rest[j - 1];
      }
    }
  }

  /** sorted by order_by("uuid", "-updated_at") */
  function Sort(rows: map<nat, Report>, s: seq<nat>): (r: seq<nat>)
    requires InRows(rows, s)
    ensures multiset(r) == multiset(s)
    ensures InRows(rows, r)
    decreases |s|
  {
    if |s| == 0 then []
    else
      assert s == [s[0]] + s[1..];
      Insert(rows, s[0], Sort(rows, s[1..]))
  }

  lemma {:induction false} SortFacts(rows: map<nat, Report>, s: seq<nat>)
    requires InRows(rows, s)
    ensures Sorted(rows, Sort(rows, s))
    decreases |s|
  {
    if |s| > 0 {
      var tail := s[1..];
      assert InRows(rows, tail) by {
        forall i | 0 <= i < |tail| ensures tail[i] in rows {
          assert tail[i] == s[i + 1];
        }
      }
      SortFacts(rows, tail);
      InsertFacts(rows, s[0], Sort(rows, tail));
    }
  }

  // ---------------------------------------------------------------- the query

  /** filter(shop=shop, is_parsed=False) */
  predicate Unparsed(r: Report, shop: nat)
  {
    r.shop == shop && !r.isParsed
  }

  /** The unparsed reports of the shop below id n, ascending. */
  function UnparsedIds(rows: map<nat, Report>, n: nat, shop: nat): (ids: seq<nat>)
    ensures forall i :: 0 <= i < |ids| ==> ids[i] in rows
    decreases n
  {
    if n == 0 then []
    else
      var below := UnparsedIds(rows, n - 1, shop);
      below + (if n - 1 in rows && Unparsed(rows[n - 1], shop) then [n - 1] else [])
  }

  lemma {:induction false} UnparsedIdsSound(rows: map<nat, Report>, n: nat, shop: nat)
    ensures forall id :: id in UnparsedIds(rows, n, shop) <==> id < n && id in rows && Unparsed(rows[id], shop)
    decreases n
  {
    if n > 0 {
      UnparsedIdsSound(rows, n - 1, shop);
    }
  }

  /** No id is listed twice. */
  lemma {:induction false} UnparsedIdsOnce(rows: map<nat, Report>, n: nat, shop: nat)
    ensures forall id :: multiset(UnparsedIds(rows, n, shop))[id] <= 1
    decreases n
  {
    if n > 0 {
      UnparsedIdsOnce(rows, n - 1, shop);
      UnparsedIdsSound(rows, n - 1, shop);
    }
  }

  function Take(s: seq<nat>, n: nat): (r: seq<nat>)
    ensures |r| <= n && |r| <= |s| && r == s[..|r|]
    ensures |s| <= n ==> r == s
  {
    if |s| <= n then s else s[..n]
  }

  /** The reports check_queue goes through, in order. */
  function Queue(t: ReportTable, shop: nat): seq<nat>
  {
    Take(Sort(t.rows, UnparsedIds(t.rows, t.nextId, shop)), QueueSize)
  }

  /** An element at two places is counted twice. */
  lemma TwiceCounted(s: seq<nat>, i: nat, j: nat)
    requires i < j < |s| && s[i] == s[j]
    ensures multiset(s)[s[i]] >= 2
  {
    assert s == s[..j] + s[j..];
    assert s[i] == s[..j][i];
    assert s[j] == s[j..][0];
    assert multiset(s) == multiset(s[..j]) + multiset(s[j..]);
  }

  /** The batch is a prefix of the shop's sorted unparsed reports. */
  lemma QueuePrefix(t: ReportTable, shop: nat)
    ensures var full := Sort(t.rows, UnparsedIds(t.rows, t.nextId, shop));
      && Sorted(t.rows, full)
      && |Queue(t, shop)| <= QueueSize
      && (forall i :: 0 <= i < |Queue(t, shop)| ==> Queue(t, shop)[i] == full[i])
      && (|Queue(t, shop)| < QueueSize ==> Queue(t, shop) == full)
      && (forall id :: id in multiset(full) <==> id in t.rows && id < t.nextId && Unparsed(t.rows[id], shop))
      && (forall id :: multiset(full)[id] <= 1)
  {
    UnparsedIdsSound(t.rows, t.nextId, shop);
    UnparsedIdsOnce(t.rows, t.nextId, shop);
    SortFacts(t.rows, UnparsedIds(t.rows, t.nextId, shop));
  }

  /** The batch holds unparsed reports of the shop only. */
  lemma QueueUnparsed(t: ReportTable, shop: nat)
    ensures forall i :: 0 <= i < |Queue(t, shop)| ==> Queue(t, shop)[i] in t.rows && Unparsed(t.rows[Queue(t, shop)[i]], shop)
  {
    QueuePrefix(t, shop);
    var full := Sort(t.rows, UnparsedIds(t.rows, t.nextId, shop));
    forall i | 0 <= i < |Queue(t, shop)|
      ensures Queue(t, shop)[i] in t.rows && Unparsed(t.rows[Queue(t, shop)[i]], shop)
    {
      assert full[i] in multiset(full);
    }
  }

  /** The batch is strictly in the query's order, so no report is in it twice. */
  lemma QueueOrdered(t: ReportTable, shop: nat)
    ensures forall i :: 0 <= i < |Queue(t, shop)| ==> Queue(t, shop)[i] in t.rows
    ensures forall i, j :: 0 <= i < j < |Queue(t, shop)| ==> Before(t.rows, Queue(t, shop)[i], Queue(t, shop)[j])
  {
    QueuePrefix(t, shop);
    var full := Sort(t.rows, UnparsedIds(t.rows, t.nextId, shop));
    var q := Queue(t, shop);
    forall i, j | 0 <= i < j < |q|
      ensures Before(t.rows, q[i], q[j])
    {
      if full[i] == full[j] {
        TwiceCounted(full, i, j);
        assert false;
      }
    }
  }

  /** An unparsed report of the shop left out of the batch comes after every report in it,
      and is left out only when the batch is full.  The table scan covers the ids below
      nextId, which is every row of a well-formed table. */
  lemma QueueFirst(t: ReportTable, shop: nat, id: nat)
    requires ValidReports(t)
    requires id in t.rows && Unparsed(t.rows[id], shop) && id !in Queue(t, shop)
    ensures |Queue(t, shop)| == QueueSize
    ensures forall i :: 0 <= i < |Queue(t, shop)| ==> Queue(t, shop)[i] in t.rows && Before(t.rows, Queue(t, shop)[i], id)
  {
    QueuePrefix(t, shop);
    var full := Sort(t.rows, UnparsedIds(t.rows, t.nextId, shop));
    var q := Queue(t, shop);
    assert id in multiset(full);
    var k :| 0 <= k < |full| && full[k] == id;
    OutsidePrefix(q, full, k);
    forall i | 0 <= i < |q| ensures q[i] in t.rows && Before(t.rows, q[i], id) {
      assert q[i] == full[i];
      SortedOnceBefore(t.rows, full, i, k);
    }
  }

  /** An item missing from a prefix of a list sits at or after the prefix's end. */
  lemma OutsidePrefix(q: seq<nat>, full: seq<nat>, k: nat)
    requires k < |full| && |q| <= |full| && (forall i :: 0 <= i < |q| ==> q[i] == full[i])
    requires full[k] !in q
    ensures |q| <= k
  {
  }

  /** In a sorted list holding each report once, an earlier report comes strictly before. */
  lemma SortedOnceBefore(rows: map<nat, Report>, s: seq<nat>, i: nat, k: nat)
    requires InRows(rows, s) && Sorted(rows, s) && i < k < |s|
    requires forall id :: multiset(s)[id] <= 1
    ensures Before(rows, s[i], s[k])
  {
    if s[i] == s[k] {
      TwiceCounted(s, i, k);
    }
  }
}
