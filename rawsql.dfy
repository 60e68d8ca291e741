/** dict_fetchall of backend/api/helpers/db.py. */
module RawSql {
  import opened Values

  function Min(a: nat, b: nat): nat { if a < b then a else b }

  /** dict(zip(columns, row)): pairs up to the shorter length, a later column of the same
      name overwriting an earlier one. */
  function ZipDict(columns: seq<string>, row: seq<Value>): Record
    decreases |columns|
  {
    var n := Min(|columns|, |row|);
    if n == 0 then map[]
    else ZipDict(columns[..n - 1], row[..n - 1])[columns[n - 1] := row[n - 1]]
  }

  /** The keys are the first min(len(columns), len(row)) column names. */
  lemma {:induction false} ZipDictKeys(columns: seq<string>, row: seq<Value>, c: string)
    ensures c in ZipDict(columns, row) <==> exists i :: 0 <= i < Min(|columns|, |row|) && columns[i] == c
  {
    var n := Min(|columns|, |row|);
    if n > 0 {
      var cs := columns[..n - 1];
      ZipDictKeys(cs, row[..n - 1], c);
      assert forall i :: 0 <= i < n - 1 ==> cs[i] == columns[i];
    }
  }

  /** Column i holds row[i] when no later paired column has the same name. */
  lemma {:induction false} ZipDictValue(columns: seq<string>, row: seq<Value>, i: nat)
    requires i < Min(|columns|, |row|)
    requires forall j :: i < j < Min(|columns|, |row|) ==> columns[j] != columns[i]
    ensures columns[i] in ZipDict(columns, row) && ZipDict(columns, row)[columns[i]] == row[i]
  {
    var n := Min(|columns|, |row|);
    if i < n - 1 {
      var cs, rs := columns[..n - 1], row[..n - 1];
      forall j | i < j < Min(|cs|, |rs|) ensures cs[j] != cs[i] {
        assert cs[j] == columns[j];
      }
      ZipDictValue(cs, rs, i);
    }
  }

  /** dict_fetchall(cursor): one dict per fetched row, in order. */
  function DictFetchall(columns: seq<string>, rows: seq<seq<Value>>): (r: seq<Record>)
    ensures |r| == |rows|
    ensures forall k :: 0 <= k < |rows| ==> r[k] == ZipDict(columns, rows[k])
  {
    seq(|rows|, k requires 0 <= k < |rows| => ZipDict(columns, rows[k]))
  }

  /** With distinct column names and a full row, every column maps to its own value. */
  lemma FetchallColumns(columns: seq<string>, rows: seq<seq<Value>>, k: nat, i: nat)
    requires k < |rows| && i < |columns| && |rows[k]| >= |columns|
    requires forall a, b :: 0 <= a < b < |columns| ==> columns[a] != columns[b]
    ensures columns[i] in DictFetchall(columns, rows)[k]
    ensures DictFetchall(columns, rows)[k][columns[i]] == rows[k][i]
  {
    ZipDictValue(columns, rows[k], i);
  }

  /** A short row leaves its missing columns out. */
  lemma ShortRowOmits(columns: seq<string>, row: seq<Value>, c: string)
    requires c !in columns[..Min(|columns|, |row|)]
    ensures c !in ZipDict(columns, row)
  {
    ZipDictKeys(columns, row, c);
    var n := Min(|columns|, |row|);
    assert forall i :: 0 <= i < n ==> columns[i] == columns[..n][i];
  }
}
