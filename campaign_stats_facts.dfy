/** Properties of api_campaign_statistics: without a shop the statistics reconcile across
    every shop's rows, and the rows they create carry no shop. */
module CampaignStatsFacts {
  import opened Wrappers
  import opened Values
  import opened Reconciler
  import ReconcilerFacts
  import opened CampaignStats

  /** Whether a stored row takes part in the lookup does not depend on its shop. */
  lemma ScopeIgnoresShop(env: Env, schema: set<string>, data: seq<Record>, row: Record, v: Value)
    ensures InScope(StatisticsCall(env, schema, data), row) <==> InScope(StatisticsCall(env, schema, data), row["shop" := v])
  {
    var c := StatisticsCall(env, schema, data);
    assert forall k :: k in c.keyFields ==> k != "shop";
    assert forall k :: k in c.keyFields ==> Get(row["shop" := v], k) == Get(row, k);
  }

  /** A created statistics row holds model fields only, and no shop unless the data sends one. */
  lemma CreatedWithoutShop(env: Env, schema: set<string>, data: seq<Record>, t: Table, i: nat)
    requires i < |Creates(StatisticsCall(env, schema, data), t)|
    ensures var row := Creates(StatisticsCall(env, schema, data), t)[i];
      && row.Keys <= schema
      && ("shop" in row ==> exists r :: r in data && "shop" in r)
  {
    var c := StatisticsCall(env, schema, data);
    ReconcilerFacts.CreatedRowShape(c, t, i);
    var k :| k in IdRows(c) && k !in Existing(c, t) && Creates(c, t)[i] == NewRecord(IdRows(c)[k], c.schema, c.shop);
    IdRowsOfKeys(env, data, c.keyFields);
    var inc := IdRows(c)[k];
    assert inc in data;
    var row := Creates(c, t)[i];
    assert row == Restrict(inc, schema) + map[];
    if "shop" in row {
      assert "shop" in inc;
    }
  }
}
