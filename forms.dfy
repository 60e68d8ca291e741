/** The API key form's duplicate check and the shop choices of backend/mp/forms.py. */
module Forms {
  import opened Wrappers
  import opened Values
  import opened Accounts

  /** cleaned_data.get(f, "") of a CharField: the string, or "" when the field is absent. */
  function TextOr(data: Record, f: string): string
  {
    if f in data && data[f].VStr? then data[f].s else ""
  }

  /** Another active key (not the instance being edited) with the same client id and secret. */
  predicate Duplicates(k: ApiKey, instancePk: Option<nat>, clientId: string, secret: string)
  {
    Some(k.id) != instancePk && k.clientId == clientId && k.clientSecret == secret && k.isActive
  }

  /** len(api_keys): the number of rows the duplicate query returns. */
  function DuplicateCount(keys: seq<ApiKey>, instancePk: Option<nat>, clientId: string, secret: string): (n: nat)
    ensures n > 0 <==> exists k :: k in keys && Duplicates(k, instancePk, clientId, secret)
  {
    if |keys| == 0 then 0
    else
      assert forall k :: k in keys ==> k == keys[0] || k in keys[1..];
      (if Duplicates(keys[0], instancePk, clientId, secret) then 1 else 0)
      + DuplicateCount(keys[1..], instancePk, clientId, secret)
  }

  /** APIKeyForm.clean: raises a ValidationError iff the key is active and another active
      key shares its client id and secret; otherwise returns cleaned_data unchanged. */
  function Clean(data: Record, instancePk: Option<nat>, keys: seq<ApiKey>): (r: Result<Record>)
    ensures r.Ok? ==> r.value == data
    ensures r.Err? ==> r.error == Validation
    ensures r.Err? <==> (Truthy(Get(data, "is_active"))
      && exists k :: k in keys && Duplicates(k, instancePk, TextOr(data, "client_id"), TextOr(data, "client_secret")))
  {
    var n := DuplicateCount(keys, instancePk, TextOr(data, "client_id"), TextOr(data, "client_secret"));
    if n > 0 && Truthy(Get(data, "is_active")) then Err(Validation) else Ok(data)
  }

  /** An inactive key is never rejected. */
  lemma InactiveNeverRejected(data: Record, instancePk: Option<nat>, keys: seq<ApiKey>)
    requires !Truthy(Get(data, "is_active"))
    ensures Clean(data, instancePk, keys) == Ok(data)
  {
  }

  /** Editing a key does not collide with its own stored row. */
  lemma InstanceExcluded(data: Record, k: ApiKey)
    ensures Clean(data, Some(k.id), [k]) == Ok(data)
  {
    assert !Duplicates(k, Some(k.id), TextOr(data, "client_id"), TextOr(data, "client_secret"));
  }

  /** A new key (no pk yet) that is active and repeats an active key is rejected. */
  lemma NewDuplicateRejected(data: Record, k: ApiKey)
    requires Get(data, "is_active") == VBool(true) && k.isActive
    requires Get(data, "client_id") == VStr(k.clientId) && Get(data, "client_secret") == VStr(k.clientSecret)
    ensures Clean(data, None, [k]) == Err(Validation)
  {
    assert Duplicates(k, None, TextOr(data, "client_id"), TextOr(data, "client_secret"));
  }

  /** The shop field's queryset: with a user, only that user's shops, in order. */
  function ShopChoices(shops: seq<Shop>, user: Option<nat>): (r: seq<Shop>)
    ensures user.None? ==> r == shops
    ensures forall s :: s in r <==> s in shops && (user.Some? ==> s.user == user)
    ensures |r| <= |shops|
  {
    if user.None? || |shops| == 0 then shops
    else
      assert forall s :: s in shops ==> s == shops[0] || s in shops[1..];
      (if shops[0].user == user then [shops[0]] else []) + ShopChoices(shops[1..], user)
  }
}
