/** The helpers of backend/api/views.py that shape what the statistics endpoints return. */
module Views {
  import opened Wrappers
  import opened Values
  import opened Accounts

  /** The requesting user. */
  datatype User = User(id: nat, isSuperuser: bool)

  /** request.GET: each parameter name with all the values it was given, in order. */
  type Query = map<string, seq<string>>

  /** QueryDict.get(name): the last value, or None when the name is absent or has no value. */
  function QueryGet(q: Query, name: string): (r: Option<string>)
    ensures r.Some? <==> name in q && |q[name]| > 0
    ensures r.Some? ==> r.value == q[name][|q[name]| - 1]
  {
    if name in q && |q[name]| > 0 then Some(q[name][|q[name]| - 1]) else None
  }

  /** QueryDict.getlist(name). */
  function QueryList(q: Query, name: string): seq<string>
  {
    if name in q then q[name] else []
  }

  /** if get_data.get(name): the last value is present and not the empty string. */
  predicate Given(q: Query, name: string)
  {
    QueryGet(q, name).Some? && QueryGet(q, name).value != ""
  }

  /** The ids an id__in lookup compares against: every value converted to an integer, the
      lookup raising ValueError when one does not convert. */
  function ParseIds(parse: string -> Option<int>, xs: seq<string>): (r: Result<set<int>>)
    ensures r.Err? <==> exists i :: 0 <= i < |xs| && parse(xs[i]).None?
    ensures r.Err? ==> r.error == ValueError
    ensures r.Ok? ==> forall n :: n in r.value <==> exists i :: 0 <= i < |xs| && parse(xs[i]) == Some(n)
  {
    if |xs| == 0 then Ok({})
    else
      var rest := ParseIds(parse, xs[1..]);
      assert forall i :: 0 < i < |xs| ==> xs[i] == xs[1..][i - 1];
      assert forall i :: 0 <= i < |xs| - 1 ==> xs[1..][i] == xs[i + 1];
      match parse(xs[0])
      case None => Err(ValueError)
      case Some(n) => if rest.Err? then rest else Ok({n} + rest.value)
  }

  /** The conditions one shop is filtered by. */
  datatype Scope = Scope(owner: Option<nat>, only: Option<set<int>>, except: set<int>)

  predicate Admits(sc: Scope, s: Shop)
  {
    s.isActive && (sc.owner.Some? ==> s.user == sc.owner)
    && (sc.only.Some? ==> s.id in sc.only.value) && s.id !in sc.except
  }

  /** The ids of the admitted shops, in table order. */
  function Select(shops: seq<Shop>, sc: Scope): (r: seq<nat>)
    ensures forall n :: n in r <==> exists s :: s in shops && s.id == n && Admits(sc, s)
    ensures |r| <= |shops|
  {
    if |shops| == 0 then []
    else
      assert forall s :: s in shops ==> s == shops[0] || s in shops[1..];
      (if Admits(sc, shops[0]) then [shops[0].id] else []) + Select(shops[1..], sc)
  }

  /** The shop table in its default order, ordering = ["-is_active", "id"]: active shops
      first, and by ascending id among shops of equal activity. */
  predicate Ordered(shops: seq<Shop>)
  {
    forall i, j :: 0 <= i < j < |shops| ==>
      (shops[i].isActive && !shops[j].isActive) || (shops[i].isActive == shops[j].isActive && shops[i].id < shops[j].id)
  }

  predicate Increasing(ids: seq<nat>)
  {
    forall i, j :: 0 <= i < j < |ids| ==> ids[i] < ids[j]
  }

  lemma {:induction false} SelectOrdered(shops: seq<Shop>, sc: Scope)
    requires Ordered(shops)
    ensures Increasing(Select(shops, sc))
  {
    if |shops| > 0 {
      SelectOrdered(shops[1..], sc);
      var rest := Select(shops[1..], sc);
      var head: seq<nat> := if Admits(sc, shops[0]) then [shops[0].id] else [];
      assert Select(shops, sc) == head + rest;
      forall n | n in rest && Admits(sc, shops[0]) ensures shops[0].id < n {
        var s :| s in shops[1..] && s.id == n && Admits(sc, s);
        var j :| 0 <= j < |shops[1..]| && shops[1..][j] == s;
        assert shops[j + 1] == s;
      }
      forall i, j | 0 <= i < j < |head + rest| ensures (head + rest)[i] < (head + rest)[j] {
        assert (head + rest)[j] == rest[j - |head|];
        if i >= |head| {
          assert (head + rest)[i] == rest[i - |head|];
        } else {
          assert rest[j - |head|] in rest;
        }
      }
    }
  }

  /** The filter get_shop_ids builds: active shops of the user, unless a superuser names
      shops; only the named ones when shop_id is given; never the excluded ones. */
  function ScopeOf(user: User, q: Query, parse: string -> Option<int>): Result<Scope>
  {
    var only :- if Given(q, "shop_id") then
                  var ids :- ParseIds(parse, QueryList(q, "shop_id")); Ok(Some(ids))
                else Ok(None);
    var except :- if Given(q, "exclude_shop_id") then ParseIds(parse, QueryList(q, "exclude_shop_id"))
                  else Ok({});
    var owner := if Given(q, "shop_id") && user.isSuperuser then None else Some(user.id);
    Ok(Scope(owner, only, except))
  }

  /** get_shop_ids(user, get_data): the tuple of admitted shop ids, ascending. */
  function GetShopIds(user: User, q: Query, shops: seq<Shop>, parse: string -> Option<int>): (r: Result<seq<nat>>)
    requires Ordered(shops)
    ensures r.Err? <==> ((Given(q, "shop_id") && ParseIds(parse, QueryList(q, "shop_id")).Err?)
      || (Given(q, "exclude_shop_id") && ParseIds(parse, QueryList(q, "exclude_shop_id")).Err?))
    ensures r.Ok? ==> Increasing(r.value)
    ensures r.Ok? ==> forall n :: n in r.value ==> exists s :: s in shops && s.id == n && s.isActive
  {
    var sc :- ScopeOf(user, q, parse);
    SelectOrdered(shops, sc);
    Ok(Select(shops, sc))
  }

  /** Only the named shops are returned when shop_id is given. */
  lemma OnlyRequested(user: User, q: Query, shops: seq<Shop>, parse: string -> Option<int>, n: nat)
    requires Ordered(shops) && Given(q, "shop_id")
    requires GetShopIds(user, q, shops, parse).Ok? && n in GetShopIds(user, q, shops, parse).value
    ensures exists i :: 0 <= i < |QueryList(q, "shop_id")| && parse(QueryList(q, "shop_id")[i]) == Some(n)
  {
    var sc := ScopeOf(user, q, parse).value;
    var s :| s in shops && s.id == n && Admits(sc, s);
  }

  /** An excluded shop is never returned. */
  lemma ExcludedNeverReturned(user: User, q: Query, shops: seq<Shop>, parse: string -> Option<int>, i: nat)
    requires Ordered(shops) && Given(q, "exclude_shop_id")
    requires i < |QueryList(q, "exclude_shop_id")| && parse(QueryList(q, "exclude_shop_id")[i]).Some?
    requires GetShopIds(user, q, shops, parse).Ok?
    ensures parse(QueryList(q, "exclude_shop_id")[i]).value !in GetShopIds(user, q, shops, parse).value
  {
    var n := parse(QueryList(q, "exclude_shop_id")[i]).value;
    var sc := ScopeOf(user, q, parse).value;
    assert n in sc.except;
  }

  /** Without shop_id even a superuser sees only their own shops; an ordinary user always does. */
  lemma OwnShopsOnly(user: User, q: Query, shops: seq<Shop>, parse: string -> Option<int>, n: nat)
    requires Ordered(shops) && (!Given(q, "shop_id") || !user.isSuperuser)
    requires GetShopIds(user, q, shops, parse).Ok? && n in GetShopIds(user, q, shops, parse).value
    ensures exists s :: s in shops && s.id == n && s.user == Some(user.id)
  {
    var sc := ScopeOf(user, q, parse).value;
    var s :| s in shops && s.id == n && Admits(sc, s);
  }

  /** A superuser naming shops gets every active one of them, whoever owns it. */
  lemma SuperuserSeesNamed(user: User, q: Query, shops: seq<Shop>, parse: string -> Option<int>, s: Shop)
    requires Ordered(shops) && Given(q, "shop_id") && user.isSuperuser && !Given(q, "exclude_shop_id")
    requires GetShopIds(user, q, shops, parse).Ok?
    requires s in shops && s.isActive && exists i :: 0 <= i < |QueryList(q, "shop_id")| && parse(QueryList(q, "shop_id")[i]) == Some(s.id)
    ensures s.id in GetShopIds(user, q, shops, parse).value
  {
    var sc := ScopeOf(user, q, parse).value;
    assert Admits(sc, s);
  }

  /** str(value).replace(".", ","). */
  function Commas(s: string): (r: string)
    ensures |r| == |s| && '.' !in r
    ensures forall i :: 0 <= i < |s| ==> r[i] == (if s[i] == '.' then ',' else s[i])
  {
    seq(|s|, i requires 0 <= i < |s| => if s[i] == '.' then ',' else s[i])
  }

  /** One conversion: None becomes 0, anything else its text with a decimal comma. */
  function Converted(env: Env, v: Value): Value
  {
    if v == VNone then VInt(0) else VStr(Commas(env.show(v)))
  }

  /** The row after the inner loop has gone over fs, one field at a time. */
  function ConvertRow(env: Env, r: Record, fs: seq<string>): (c: Record)
    ensures c.Keys == r.Keys
  {
    if |fs| == 0 then r
    else
      var s := ConvertRow(env, r, fs[..|fs| - 1]);
      var f := fs[|fs| - 1];
      if f in s then s[f := Converted(env, s[f])] else s
  }

  /** A column not listed is left as it was. */
  lemma {:induction false} ConvertRowUntouched(env: Env, r: Record, fs: seq<string>, f: string)
    requires f in r && f !in fs
    ensures ConvertRow(env, r, fs)[f] == r[f]
  {
    if |fs| > 0 {
      ConvertRowUntouched(env, r, fs[..|fs| - 1], f);
    }
  }

  /** A column listed once is converted once. */
  lemma {:induction false} ConvertRowOnce(env: Env, r: Record, fs: seq<string>, i: nat)
    requires i < |fs| && fs[i] in r
    requires forall j :: 0 <= j < |fs| && j != i ==> fs[j] != fs[i]
    ensures ConvertRow(env, r, fs)[fs[i]] == Converted(env, r[fs[i]])
  {
    var pre := fs[..|fs| - 1];
    if i == |fs| - 1 {
      ConvertRowUntouched(env, r, pre, fs[i]);
    } else {
      ConvertRowOnce(env, r, pre, i);
    }
  }

  /** A column listed twice (a Decimal field named again in fields) is converted twice:
      a None becomes 0 and then the text of 0. */
  lemma RepeatedFieldConvertsTwice(env: Env, r: Record, f: string)
    requires f in r && r[f] == VNone
    ensures ConvertRow(env, r, [f, f])[f] == VStr(Commas(env.show(VInt(0))))
  {
    assert [f, f][..1] == [f];
    assert [f][..0] == [];
    assert ConvertRow(env, r, [f][..0]) == r;
    assert Converted(env, r[f]) == VInt(0);
    var once := ConvertRow(env, r, [f]);
    assert once == r[f := VInt(0)];
    assert once[f] != VNone;
  }

  /** The inner loop over FIELD_FLOAT on one row. */
  method ConvertFields(env: Env, r0: Record, fs: seq<string>) returns (r: Record)
    ensures r == ConvertRow(env, r0, fs)
  {
    r := r0;
    for j := 0 to |fs|
      invariant r == ConvertRow(env, r0, fs[..j])
    {
      assert fs[..j + 1][..j] == fs[..j];
      var f := fs[j];
      if f in r {
        r := r[f := Converted(env, r[f])];
      }
    }
    assert fs[..|fs|] == fs;
  }

  /** convert_float(rows, model, fields): every row rewritten in place over the model's
      Decimal fields followed by fields. */
  method ConvertFloat(env: Env, rows: array<Record>, decimalFields: seq<string>, fields: seq<string>)
    modifies rows
    ensures forall i :: 0 <= i < rows.Length ==> rows[i] == ConvertRow(env, old(rows[i]), decimalFields + fields)
  {
    var fs := decimalFields + fields;
    for i := 0 to rows.Length
      invariant forall k :: 0 <= k < i ==> rows[k] == ConvertRow(env, old(rows[k]), fs)
      invariant forall k :: i <= k < rows.Length ==> rows[k] == old(rows[k])
    {
      rows[i] := ConvertFields(env, rows[i], fs);
    }
  }
}
