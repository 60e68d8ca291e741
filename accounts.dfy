/** Shops and API keys (backend/mp/models.py) and the key selection of backend/mp/helpers. */
module Accounts {
  import opened Wrappers

  /** A marketplace shop of one user. */
  datatype Shop = Shop(id: nat, shopToken: string, name: string, isActive: bool, user: Option<nat>)

  /** Marketplace credentials of one shop; disabledTill is an instant in seconds. */
  datatype ApiKey = ApiKey(
    id: nat, keyType: string, name: string, clientId: string, clientSecret: string,
    isActive: bool, shop: Option<nat>, disabledTill: int)

  /** created_at and updated_at of a row. */
  datatype Stamps = Stamps(createdAt: int, updatedAt: int)

  // ---------------------------------------------------------------- labels

  const Active: char := '\U{2705}'
  const Inactive: char := '\U{2B55}'

  function Mark(isActive: bool): (m: char)
    ensures m == Active <==> isActive
  {
    if isActive then Active else Inactive
  }

  /** Shop.__str__: the activity mark, then TOKEN.pk.name; upper and the decimal
      rendering of the pk are the runtime's. */
  function ShopLabel(s: Shop, upper: string -> string, showNat: nat -> string): (l: string)
    ensures |l| >= 2 + |s.name| && l[0] == Mark(s.isActive) && l[1] == ' '
    ensures l[|l| - |s.name|..] == s.name
  {
    [Mark(s.isActive)] + " " + upper(s.shopToken) + "." + showNat(s.id) + "." + s.name
  }

  /** APIKey.__str__: the activity mark, then type.name / client_id. */
  function KeyLabel(k: ApiKey): (l: string)
    ensures |l| >= 5 + |k.clientId| && l[0] == Mark(k.isActive) && l[1] == ' '
    ensures l[|l| - |k.clientId| - 3..] == " / " + k.clientId
  {
    [Mark(k.isActive)] + " " + k.keyType + "." + k.name + " / " + k.clientId
  }

  /** The label tells an active shop from an inactive one by its first character. */
  lemma LabelShowsActivity(s: Shop, t: Shop, upper: string -> string, showNat: nat -> string)
    requires s.isActive != t.isActive
    ensures ShopLabel(s, upper, showNat) != ShopLabel(t, upper, showNat)
  {
    assert ShopLabel(s, upper, showNat)[0] != ShopLabel(t, upper, showNat)[0];
  }

  // ---------------------------------------------------------------- disabling and saving

  /** APIKey.is_disabled */
  predicate IsDisabled(k: ApiKey, now: int)
  {
    k.disabledTill > now
  }

  /** The conditions get_key and get_keys put on the key and its shop, besides type and token. */
  predicate Usable(k: ApiKey, shops: map<nat, Shop>, now: int)
  {
    k.isActive && k.disabledTill < now && k.shop.Some? && k.shop.value in shops && shops[k.shop.value].isActive
  }

  /** A key disabled till exactly now is neither disabled nor usable: is_disabled is strict
      one way and the selection filter strict the other. */
  lemma DisabledBoundary(k: ApiKey, shops: map<nat, Shop>, now: int)
    requires k.disabledTill == now
    ensures !IsDisabled(k, now) && !Usable(k, shops, now)
  {
  }

  /** An active key of an active shop is usable exactly when it is not disabled and its
      disabled_till is not now. */
  lemma UsableIffNotDisabled(k: ApiKey, shops: map<nat, Shop>, now: int)
    requires k.isActive && k.shop.Some? && k.shop.value in shops && shops[k.shop.value].isActive
    ensures Usable(k, shops, now) <==> !IsDisabled(k, now) && k.disabledTill != now
  {
  }

  /** save(): a row that already has a primary key gets updated_at = now; a new row takes
      now in both stamps (auto_now_add), and the same for disabled_till of a new key. */
  function Save(pk: Option<nat>, s: Stamps, now: int): (s': Stamps)
    ensures pk.Some? ==> s'.createdAt == s.createdAt && s'.updatedAt == now
    ensures pk.None? ==> s' == Stamps(now, now)
  {
    if pk.Some? then Stamps(s.createdAt, now) else Stamps(now, now)
  }

  /** Saving twice at the same instant is saving once. */
  lemma SaveIdempotent(pk: Option<nat>, s: Stamps, now: int)
    ensures Save(Some(0), Save(pk, s, now), now) == Save(pk, s, now)
  {
  }

  // ---------------------------------------------------------------- uniqueness

  /** unique_together: no two rows share a (shop, client_id) pair; a row without a shop takes
      part in no conflict, as NULL never equals NULL. */
  predicate UniquePairs(pairs: seq<(Option<nat>, string)>)
  {
    forall i, j :: 0 <= i < j < |pairs| && pairs[i].0.Some? ==> pairs[i] != pairs[j]
  }

  function KeyPair(k: ApiKey): (Option<nat>, string)
  {
    (k.shop, k.clientId)
  }

  function KeyPairs(keys: seq<ApiKey>): (ps: seq<(Option<nat>, string)>)
    ensures |ps| == |keys| && forall i :: 0 <= i < |keys| ==> ps[i] == KeyPair(keys[i])
  {
    seq(|keys|, i requires 0 <= i < |keys| => KeyPair(keys[i]))
  }

  /** Inserting a row: IntegrityError when its (shop, client_id) pair is taken. */
  function InsertPair(pairs: seq<(Option<nat>, string)>, p: (Option<nat>, string)): (r: Result<seq<(Option<nat>, string)>>)
    ensures r.Err? <==> p.0.Some? && p in pairs
    ensures r.Ok? ==> r.value == pairs + [p]
  {
    if p.0.Some? && p in pairs then Err(IntegrityError) else Ok(pairs + [p])
  }

  /** An accepted insert keeps the pairs unique. */
  lemma InsertKeepsUnique(pairs: seq<(Option<nat>, string)>, p: (Option<nat>, string))
    requires UniquePairs(pairs) && InsertPair(pairs, p).Ok?
    ensures UniquePairs(InsertPair(pairs, p).value)
  {
    var ps := pairs + [p];
    forall i, j | 0 <= i < j < |ps| && ps[i].0.Some? ensures ps[i] != ps[j] {
      if j == |pairs| {
        assert ps[i] in pairs;
      }
    }
  }

  /** Selfbuy's unique_together on (shop, order), with a nullable shop: a self-buy row is
      refused exactly when a row of the same shop already holds the order number, and an
      accepted one keeps the pairs unique. */
  lemma SelfbuyInsert(pairs: seq<(Option<nat>, string)>, shop: Option<nat>, order: string)
    requires UniquePairs(pairs)
    ensures InsertPair(pairs, (shop, order)).Err? <==> shop.Some? && (shop, order) in pairs
    ensures InsertPair(pairs, (shop, order)).Ok? ==> UniquePairs(InsertPair(pairs, (shop, order)).value)
  {
    if InsertPair(pairs, (shop, order)).Ok? {
      InsertKeepsUnique(pairs, (shop, order));
    }
  }

  // ---------------------------------------------------------------- get_key and get_keys

  /** get_key(pk): the key with that primary key, active, not disabled, of an active shop;
      DoesNotExist otherwise (and for pk None). */
  function GetKey(keys: seq<ApiKey>, shops: map<nat, Shop>, pk: Option<nat>, now: int): (r: Result<ApiKey>)
    ensures r.Ok? ==> r.value in keys && Some(r.value.id) == pk && Usable(r.value, shops, now)
    ensures r.Err? ==> r.error == DoesNotExist
    ensures r.Err? ==> forall k :: k in keys && Some(k.id) == pk ==> !Usable(k, shops, now)
  {
    if |keys| == 0 then Err(DoesNotExist)
    else if Some(keys[0].id) == pk && Usable(keys[0], shops, now) then Ok(keys[0])
    else GetKey(keys[1..], shops, pk, now)
  }

  /** The filter of get_keys: key type, the shop's marketplace token and, when shop_id is
      truthy, the shop. */
  predicate Eligible(k: ApiKey, shops: map<nat, Shop>, mp: string, keyType: string, shopId: Option<int>, now: int)
  {
    && k.keyType == keyType
    && Usable(k, shops, now)
    && shops[k.shop.value].shopToken == mp
    && (shopId.Some? && shopId.value != 0 ==> k.shop.value == shopId.value)
  }

  /** get_keys(mp, key_type, shop_id): the eligible keys grouped by shop, one picked per
      shop (random.choice, here any member of the group). */
  method GetKeys(keys: seq<ApiKey>, shops: map<nat, Shop>, mp: string, keyType: string, shopId: Option<int>, now: int)
    returns (res: seq<ApiKey>)
    ensures forall i :: 0 <= i < |res| ==> res[i] in keys && Eligible(res[i], shops, mp, keyType, shopId, now)
    ensures forall i, j :: 0 <= i < j < |res| ==> res[i].shop.Some? && res[j].shop.Some? && res[i].shop.value < res[j].shop.value
    ensures forall k :: k in keys && Eligible(k, shops, mp, keyType, shopId, now) ==>
      exists i :: 0 <= i < |res| && res[i].shop == k.shop
  {
    var groups, seen := GroupByShop(keys, shops, mp, keyType, shopId, now);
    var order := SortAscending(seen);
    ghost var ok := set k | k in keys && Eligible(k, shops, mp, keyType, shopId, now);
    res := PickPerShop(groups, order, ok);
    forall i, j | 0 <= i < j < |res|
      ensures res[i].shop.Some? && res[j].shop.Some? && res[i].shop.value < res[j].shop.value
    {
      assert res[i].shop == Some(order[i]) && res[j].shop == Some(order[j]);
    }
    forall k | k in keys && Eligible(k, shops, mp, keyType, shopId, now)
      ensures exists i :: 0 <= i < |res| && res[i].shop == k.shop
    {
      assert k.shop.value in seen;
      var i :| 0 <= i < |order| && order[i] == k.shop.value;
      assert res[i].shop == Some(order[i]);
    }
  }

  /** The defaultdict loop: the eligible keys by shop, and the shops in order of first
      appearance. */
  method GroupByShop(keys: seq<ApiKey>, shops: map<nat, Shop>, mp: string, keyType: string, shopId: Option<int>, now: int)
    returns (groups: map<nat, seq<ApiKey>>, order: seq<nat>)
    ensures forall i, j :: 0 <= i < j < |order| ==> order[i] != order[j]
    ensures forall s :: s in order <==> s in groups
    ensures forall s :: s in groups ==> |groups[s]| > 0
    ensures forall s, k :: s in groups && k in groups[s] ==>
      k in keys && k.shop == Some(s) && Eligible(k, shops, mp, keyType, shopId, now)
    ensures forall k :: k in keys && Eligible(k, shops, mp, keyType, shopId, now) ==> k.shop.value in groups
  {
    groups, order := map[], [];
    for n := 0 to |keys|
      invariant forall i, j :: 0 <= i < j < |order| ==> order[i] != order[j]
      invariant forall s :: s in order <==> s in groups
      invariant forall s :: s in groups ==> |groups[s]| > 0
      invariant forall s, k :: s in groups && k in groups[s] ==>
        k in keys && k.shop == Some(s) && Eligible(k, shops, mp, keyType, shopId, now)
      invariant forall k :: k in keys[..n] && Eligible(k, shops, mp, keyType, shopId, now) ==> k.shop.value in groups
    {
      var k := keys[n];
      if Eligible(k, shops, mp, keyType, shopId, now) {
        var s := k.shop.value;
        if s in groups {
          groups := groups[s := groups[s] + [k]];
        } else {
          groups := groups[s := [k]];
          order := order + [s];
        }
      }
    }
    assert keys[..|keys|] == keys;
  }

  /** Strictly ascending. */
  predicate Ascending(s: seq<nat>)
  {
    forall i, j :: 0 <= i < j < |s| ==> s[i] < s[j]
  }

  /** x put into its place in an ascending sequence that does not hold it. */
  function InsertAscending(x: nat, s: seq<nat>): (r: seq<nat>)
    requires Ascending(s) && x !in s
    ensures Ascending(r)
    ensures forall y :: y in r <==> y == x || y in s
  {
    if |s| == 0 then [x]
    else if x < s[0] then [x] + s
    else
      var rest := InsertAscending(x, s[1..]);
      assert forall y :: y in s <==> y == s[0] || y in s[1..];
      assert forall i :: 0 <= i < |rest| ==> s[0] < rest[i] by {
        forall i | 0 <= i < |rest| ensures s[0] < rest[i] {
          assert rest[i] in rest;
          if rest[i] != x {
            var j :| 0 <= j < |s[1..]| && s[1..][j] == rest[i];
            assert s[j + 1] == rest[i];
          }
        }
      }
      [s[0]] + rest
  }

  /** order_by("shop__id") for the grouping: the shops found, in ascending order of id. */
  function SortAscending(s: seq<nat>): (r: seq<nat>)
    requires forall i, j :: 0 <= i < j < |s| ==> s[i] != s[j]
    ensures Ascending(r)
    ensures forall y :: y in r <==> y in s
  {
    if |s| == 0 then []
    else
      var rest := SortAscending(s[..|s| - 1]);
      assert s == s[..|s| - 1] + [s[|s| - 1]];
      InsertAscending(s[|s| - 1], rest)
  }

  /** One key per shop: the only one, or a random choice among several. */
  method PickPerShop(groups: map<nat, seq<ApiKey>>, order: seq<nat>, ghost ok: set<ApiKey>) returns (res: seq<ApiKey>)
    requires forall s :: s in order ==> s in groups && |groups[s]| > 0
    requires forall s, k :: s in groups && k in groups[s] ==> k in ok && k.shop == Some(s)
    ensures |res| == |order|
    ensures forall i :: 0 <= i < |order| ==> res[i] in ok && res[i].shop == Some(order[i])
  {
    res := [];
    for n := 0 to |order|
      invariant |res| == n
      invariant forall i :: 0 <= i < n ==> res[i] in ok && res[i].shop == Some(order[i])
    {
      var g := groups[order[n]];
      var k;
      if |g| == 1 {
        k := g[0];
      } else {
        assert g[0] in g;
        k :| k in g;
      }
      res := res + [k];
    }
  }
}
