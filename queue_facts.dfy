/** What check_campaign_report promises: which reports count as correct, what one iteration
    does to a report, that a pass touches only the queued reports and gets at most one new
    request accepted, and what the sync task reports. */
module ReportQueueFacts {
  import opened Wrappers
  import opened Values
  import opened Accounts
  import opened Tasks
  import opened Reports
  import opened QueueOrder
  import opened Reconciler
  import opened ReportQueue
  import Stocks
  import Products
  import Campaigns

  // ---------------------------------------------------------------- is_correct_report

  /** The conditions name a params object with two parsable days. */
  ghost predicate WellFormed(parseDay: string -> Option<int>, cond: Value)
  {
    && cond.VObj? && "params" in cond.fields
    && var params := cond.fields["params"];
       && params.VObj? && "dateFrom" in params.fields && "dateTo" in params.fields
       && ParseDay(parseDay, params.fields["dateFrom"]).Ok? && ParseDay(parseDay, params.fields["dateTo"]).Ok?
  }

  function Span(parseDay: string -> Option<int>, cond: Value): int
    requires WellFormed(parseDay, cond)
  {
    var params := cond.fields["params"];
    ParseDay(parseDay, params.fields["dateTo"]).value - ParseDay(parseDay, params.fields["dateFrom"]).value
  }

  /** A report is correct exactly when its days parse, their span is at most LIMIT_DAYS, and a
      collection of at most LIMIT_CAMPAIGNS campaigns is named; a longer span is incorrect
      whatever the campaigns are; anything that fails to parse raises. */
  lemma IsCorrectReportMeaning(parseDay: string -> Option<int>, limitDays: int, limitCampaigns: int, cond: Value)
    ensures var r := IsCorrectReport(parseDay, limitDays, limitCampaigns, cond);
      && (r == Ok(true) <==>
            && WellFormed(parseDay, cond)
            && Span(parseDay, cond) <= limitDays
            && "campaigns" in cond.fields["params"].fields
            && Len(cond.fields["params"].fields["campaigns"]).Ok?
            && Len(cond.fields["params"].fields["campaigns"]).value <= limitCampaigns)
      && (WellFormed(parseDay, cond) && Span(parseDay, cond) > limitDays ==> r == Ok(false))
      && (r.Ok? ==> WellFormed(parseDay, cond))
      && (r.Err? ==> r.error in {KeyError, TypeError, ValueError})
  {
  }

  /** A condition object that says nothing about params is refused with KeyError, and a text
      or a number with TypeError. */
  lemma IsCorrectReportMissingParams(parseDay: string -> Option<int>, limitDays: int, limitCampaigns: int, cond: Value)
    ensures cond.VObj? && "params" !in cond.fields ==> IsCorrectReport(parseDay, limitDays, limitCampaigns, cond) == Err(KeyError)
    ensures !cond.VObj? ==> IsCorrectReport(parseDay, limitDays, limitCampaigns, cond) == Err(TypeError)
  {
  }

  // ---------------------------------------------------------------- one iteration

  /** A report closed as ERROR is marked parsed and saved, and nothing is asked of the API. */
  lemma StepErrorCloses(ctx: Ctx, p: Pass, id: nat, r: Report)
    requires r.state == Some("ERROR")
    ensures Step(ctx, p, id, r) == Ran(p.(reports := ReportTable(p.reports.rows[id := r.(isParsed := true, updatedAt := ctx.now)], p.reports.nextId)), None)
  {
  }

  /** A ready report whose payload is stored is marked parsed and saved as it was read. */
  lemma StepDownloads(ctx: Ctx, p: Pass, id: nat, r: Report)
    requires r.uuid.Some? && r.state == Some("OK")
    requires ctx.download(r.uuid.value).Ok?
    requires Payload(ctx, p.stats, ctx.download(r.uuid.value).value).1.None?
    ensures var ran := Step(ctx, p, id, r);
      && ran.error.None?
      && ran.pass.stats == Payload(ctx, p.stats, ctx.download(r.uuid.value).value).0
      && ran.pass.reports.rows == p.reports.rows[id := r.(isParsed := true, updatedAt := ctx.now)]
      && ran.pass.sent == p.sent && ran.pass.requested == p.requested && ran.pass.accepted == p.accepted
  {
  }

  /** A ready report the API no longer has is closed as FAIL and nothing is stored. */
  lemma StepDownloadMissing(ctx: Ctx, p: Pass, id: nat, r: Report)
    requires r.uuid.Some? && r.state == Some("OK")
    requires ctx.download(r.uuid.value) == Err(NotFound)
    ensures Step(ctx, p, id, r) ==
      Ran(p.(reports := ReportTable(p.reports.rows[id := r.(state := Some("FAIL"), isParsed := true, updatedAt := ctx.now)], p.reports.nextId)), None)
  {
  }

  /** A report in progress gets the status response and state; any state but OK blocks new
      requests. */
  lemma StepChecks(ctx: Ctx, p: Pass, id: nat, r: Report, res: Record)
    requires r.uuid.Some? && r.state != Some("OK") && r.state != Some("ERROR")
    requires ctx.check(r.uuid.value) == Ok(res)
    ensures var ran := Step(ctx, p, id, r);
      && ran.error.None? && ran.pass.stats == p.stats
      && id in ran.pass.reports.rows
      && ran.pass.reports.rows[id].response == Some(ctx.dumps(VObj(res)))
      && ran.pass.reports.rows[id].state == (if "state" !in res || res["state"].VNone? then None
                                             else if res["state"].VStr? then Some(res["state"].s)
                                             else Some(ctx.env.show(res["state"])))
      && ran.pass.reports.rows[id].uuid == r.uuid && ran.pass.reports.rows[id].isParsed == r.isParsed
      && (ran.pass.sent <==> p.sent || "state" !in res || res["state"] != VStr("OK"))
      && ran.pass.requested == p.requested && ran.pass.accepted == p.accepted
  {
  }

  /** A report with incorrect conditions is deleted when no request is blocked. */
  lemma StepDeletes(ctx: Ctx, p: Pass, id: nat, r: Report, cond: Value)
    requires r.uuid.None? && r.state != Some("ERROR") && !p.sent
    requires ctx.loads(r.conditions) == Ok(cond)
    requires IsCorrectReport(ctx.parseDay, ctx.limitDays, ctx.limitCampaigns, cond) == Ok(false)
    ensures var ran := Step(ctx, p, id, r);
      && ran.error.None?
      && ran.pass == p.(reports := ReportTable(p.reports.rows - {id}, p.reports.nextId))
  {
  }

  /** A correct report is requested when no request is blocked; a returned UUID is stored,
      the request counts as accepted, and no further request is sent in the pass. */
  lemma StepRequests(ctx: Ctx, p: Pass, id: nat, r: Report, cond: Value, res: Record)
    requires r.uuid.None? && r.state != Some("ERROR") && !p.sent
    requires ctx.loads(r.conditions) == Ok(cond)
    requires IsCorrectReport(ctx.parseDay, ctx.limitDays, ctx.limitCampaigns, cond) == Ok(true)
    ensures cond.VObj?
    ensures ctx.request(cond.fields) == Ok(res) ==>
      var ran := Step(ctx, p, id, r);
      && ran.error.None?
      && ran.pass.requested == p.requested + [id]
      && ("error" !in res && "UUID" in res ==>
            && ran.pass.sent && ran.pass.accepted == p.accepted + [id]
            && id in ran.pass.reports.rows && ran.pass.reports.rows[id].uuid == Text(ctx.env, res["UUID"]))
      && ("error" in res || "UUID" !in res ==>
            !ran.pass.sent && ran.pass.accepted == p.accepted && ran.pass.reports == p.reports)
  {
    IsCorrectReportMeaning(ctx.parseDay, ctx.limitDays, ctx.limitCampaigns, cond);
  }

  /** Once a request is blocked, a report without a UUID is left as it is. */
  lemma StepBlocked(ctx: Ctx, p: Pass, id: nat, r: Report)
    requires r.uuid.None? && r.state != Some("ERROR") && p.sent
    ensures Step(ctx, p, id, r) == Ran(p, None)
  {
  }

  /** One iteration writes or deletes only its own report and never turns a blocked pass
      back; a request that is accepted is the first of the pass and blocks the rest. */
  lemma StepFrame(ctx: Ctx, p: Pass, id: nat, r: Report)
    ensures var q := Step(ctx, p, id, r).pass;
      && q.reports.nextId == p.reports.nextId
      && q.reports.rows.Keys <= p.reports.rows.Keys + {id}
      && (forall k :: k in p.reports.rows && k != id ==> k in q.reports.rows && q.reports.rows[k] == p.reports.rows[k])
      && (p.sent ==> q.sent && q.requested == p.requested && q.accepted == p.accepted)
      && (q.accepted == p.accepted || (!p.sent && q.sent && q.accepted == p.accepted + [id]))
  {
    if r.uuid.Some? && r.state == Some("OK") {
      DownloadedKeeps(ctx, p, id, r);
    } else if r.state == Some("ERROR") {
    } else if r.uuid.Some? {
      CheckedKeeps(ctx, p, id, r);
    } else if !p.sent {
      RequestedKeeps(ctx, p, id, r);
    }
  }

  /** What StepFrame states of one iteration, as a relation between the passes before and after. */
  ghost predicate StepKeeps(p: Pass, q: Pass, id: nat)
  {
    && q.reports.nextId == p.reports.nextId
    && q.reports.rows.Keys <= p.reports.rows.Keys + {id}
    && (forall k :: k in p.reports.rows && k != id ==> k in q.reports.rows && q.reports.rows[k] == p.reports.rows[k])
    && (p.sent ==> q.sent && q.requested == p.requested && q.accepted == p.accepted)
    && (q.accepted == p.accepted || (!p.sent && q.sent && q.accepted == p.accepted + [id]))
  }

  lemma DownloadedKeeps(ctx: Ctx, p: Pass, id: nat, r: Report)
    requires r.uuid.Some?
    ensures StepKeeps(p, Downloaded(ctx, p, id, r).pass, id)
  {
  }

  lemma CheckedKeeps(ctx: Ctx, p: Pass, id: nat, r: Report)
    requires r.uuid.Some?
    ensures StepKeeps(p, Checked(ctx, p, id, r).pass, id)
  {
  }

  lemma RequestedKeeps(ctx: Ctx, p: Pass, id: nat, r: Report)
    requires !p.sent
    ensures StepKeeps(p, Requested(ctx, p, id, r).pass, id)
  {
    var q := Requested(ctx, p, id, r).pass;
    if q.accepted != p.accepted {
      assert q.sent && q.accepted == p.accepted + [id];
    }
    if q.reports != p.reports {
      assert q.reports.rows.Keys <= p.reports.rows.Keys + {id};
    }
  }

  // ---------------------------------------------------------------- one pass

  /** The ids of a batch. */
  ghost function BatchIds(batch: seq<(nat, Report)>): set<nat>
  {
    set i | 0 <= i < |batch| :: batch[i].0
  }

  /** At most one request of the pass has been accepted, and only one that blocks the rest. */
  ghost predicate AtMostOneAccepted(p: Pass)
  {
    |p.accepted| <= 1 && (p.accepted != [] ==> p.sent)
  }

  lemma {:induction false} StepsFrame(ctx: Ctx, p: Pass, batch: seq<(nat, Report)>)
    ensures var q := Steps(ctx, p, batch).pass;
      && q.reports.nextId == p.reports.nextId
      && q.reports.rows.Keys <= p.reports.rows.Keys + BatchIds(batch)
      && (forall k :: k in p.reports.rows && k !in BatchIds(batch) ==> k in q.reports.rows && q.reports.rows[k] == p.reports.rows[k])
    decreases |batch|
  {
    if |batch| > 0 {
      var ran := Step(ctx, p, batch[0].0, batch[0].1);
      StepFrame(ctx, p, batch[0].0, batch[0].1);
      if ran.error.None? {
        StepsFrame(ctx, ran.pass, batch[1..]);
        assert BatchIds(batch) == {batch[0].0} + BatchIds(batch[1..]) by {
          forall k | k in BatchIds(batch) ensures k in {batch[0].0} + BatchIds(batch[1..]) {
            var i :| 0 <= i < |batch| && batch[i].0 == k;
            if i > 0 { assert batch[1..][i - 1].0 == k; }
          }
          forall k | k in BatchIds(batch[1..]) ensures k in BatchIds(batch) {
            var i :| 0 <= i < |batch[1..]| && batch[1..][i].0 == k;
            assert batch[i + 1].0 == k;
          }
          assert batch[0].0 in BatchIds(batch);
        }
      }
    }
  }

  /** A pass keeps at most one accepted request, and once blocked it sends nothing more. */
  lemma {:induction false} StepsAtMostOne(ctx: Ctx, p: Pass, batch: seq<(nat, Report)>)
    requires AtMostOneAccepted(p)
    ensures AtMostOneAccepted(Steps(ctx, p, batch).pass)
    ensures p.sent ==> Steps(ctx, p, batch).pass.sent
    ensures p.sent ==> Steps(ctx, p, batch).pass.requested == p.requested && Steps(ctx, p, batch).pass.accepted == p.accepted
    decreases |batch|
  {
    if |batch| > 0 {
      var ran := Step(ctx, p, batch[0].0, batch[0].1);
      StepFrame(ctx, p, batch[0].0, batch[0].1);
      if ran.error.None? {
        StepsAtMostOne(ctx, ran.pass, batch[1..]);
      }
    }
  }

  lemma BatchIdsQueue(t: ReportTable, shop: nat)
    ensures forall k :: k in BatchIds(Batch(t, shop)) ==> k in t.rows && Unparsed(t.rows[k], shop)
  {
    QueueUnparsed(t, shop);
    var b := Batch(t, shop);
    forall k | k in BatchIds(b) ensures k in t.rows && Unparsed(t.rows[k], shop) {
      var i :| 0 <= i < |b| && b[i].0 == k;
      assert k == Queue(t, shop)[i];
    }
  }

  /** check_queue: a report of another shop, or one already parsed, is left as it is; no row
      is added; and at most one request is accepted. */
  lemma CheckQueueFacts(ctx: Ctx, t: ReportTable, stats: StatDb, shop: nat)
    ensures var q := CheckQueue(ctx, t, stats, shop).pass;
      && q.reports.nextId == t.nextId
      && q.reports.rows.Keys <= t.rows.Keys
      && (forall k :: k in t.rows && !Unparsed(t.rows[k], shop) ==> k in q.reports.rows && q.reports.rows[k] == t.rows[k])
      && |q.accepted| <= 1
      && (q.accepted != [] ==> q.sent)
  {
    BatchIdsQueue(t, shop);
    StepsFrame(ctx, Pass(t, stats, false, [], []), Batch(t, shop));
    StepsAtMostOne(ctx, Pass(t, stats, false, [], []), Batch(t, shop));
  }

  // ---------------------------------------------------------------- statistics_order

  /** The campaign ids of lines that all name one. */
  ghost function CampaignIds(lines: seq<Record>): set<Value>
    requires forall i :: 0 <= i < |lines| ==> "campaign_id" in lines[i]
  {
    set i | 0 <= i < |lines| :: lines[i]["campaign_id"]
  }

  lemma CampaignIdsCons(lines: seq<Record>)
    requires |lines| > 0 && forall i :: 0 <= i < |lines| ==> "campaign_id" in lines[i]
    ensures CampaignIds(lines) == {lines[0]["campaign_id"]} + CampaignIds(lines[1..])
  {
    forall v | v in CampaignIds(lines) ensures v in {lines[0]["campaign_id"]} + CampaignIds(lines[1..]) {
      var i :| 0 <= i < |lines| && lines[i]["campaign_id"] == v;
      if i > 0 { assert lines[1..][i - 1]["campaign_id"] == v; }
    }
    forall v | v in CampaignIds(lines[1..]) ensures v in CampaignIds(lines) {
      var i :| 0 <= i < |lines[1..]| && lines[1..][i]["campaign_id"] == v;
      assert lines[i + 1]["campaign_id"] == v;
    }
    assert lines[0]["campaign_id"] in CampaignIds(lines);
  }

  /** A clean loop has noted the campaign of every line, skipped or not. */
  lemma {:induction false} OrderLinesNotes(ctx: Ctx, t: Table, ids: set<Value>, lines: seq<Record>)
    ensures var (_, ids', err) := OrderLines(ctx, t, ids, lines);
      && ids <= ids'
      && (err.None? ==> (forall i :: 0 <= i < |lines| ==> "campaign_id" in lines[i]) && ids' == ids + CampaignIds(lines))
    decreases |lines|
  {
    if |lines| > 0 && "campaign_id" in lines[0] {
      var ids' := ids + {lines[0]["campaign_id"]};
      var r := OrderLine(ctx, t, lines[0]);
      if r.Ok? {
        OrderLinesStep(ctx, t, ids, lines);
        OrderLinesNotes(ctx, r.value, ids', lines[1..]);
        var (_, ids'', err) := OrderLines(ctx, r.value, ids', lines[1..]);
        if err.None? {
          EveryLineNamed(lines);
          CampaignIdsCons(lines);
        }
      }
    }
  }

  lemma OrderLinesStep(ctx: Ctx, t: Table, ids: set<Value>, lines: seq<Record>)
    requires |lines| > 0 && "campaign_id" in lines[0] && OrderLine(ctx, t, lines[0]).Ok?
    ensures OrderLines(ctx, t, ids, lines)
      == OrderLines(ctx, OrderLine(ctx, t, lines[0]).value, ids + {lines[0]["campaign_id"]}, lines[1..])
  {
  }

  lemma EveryLineNamed(lines: seq<Record>)
    requires |lines| > 0 && "campaign_id" in lines[0]
    requires forall i :: 0 <= i < |lines[1..]| ==> "campaign_id" in lines[1..][i]
    ensures forall i :: 0 <= i < |lines| ==> "campaign_id" in lines[i]
  {
    assert forall i :: 1 <= i < |lines| ==> lines[i] == lines[1..][i - 1];
  }

  /** statistics_order: when no line raises, the product statistics are rebuilt for exactly
      the campaigns its lines name, and left alone when there are no lines. */
  lemma StatisticsOrderRefresh(ctx: Ctx, db: StatDb, lines: seq<Record>)
    ensures var (db', err) := StatisticsOrder(ctx, db, lines);
      err.None? ==>
        && (forall i :: 0 <= i < |lines| ==> "campaign_id" in lines[i])
        && db'.orders == OrderLines(ctx, db.orders, {}, lines).0
        && db'.products == (if |lines| == 0 then db.products else ctx.refresh(db'.orders, db.products, CampaignIds(lines)))
  {
    var loop := OrderLines(ctx, db.orders, {}, lines);
    OrderLinesNotes(ctx, db.orders, {}, lines);
    if loop.2.None? {
      assert loop.1 == CampaignIds(lines);
      if |lines| > 0 {
        assert lines[0]["campaign_id"] in loop.1;
      } else {
        assert loop.1 == {};
      }
    }
  }

  /** A line whose order matches several stored rows is skipped. */
  lemma OrderLineSkipsDuplicates(ctx: Ctx, t: Table, l: Record)
    requires OrderKey(l).Ok?
    requires |Stocks.MatchIds(t.rows, t.nextId, OrderKey(l).value)| > 1
    ensures OrderLine(ctx, t, l) == Ok(t)
  {
  }

  /** A product line without page or condition is filed under the default page. */
  lemma ProductKeyDefaults(l: Record)
    ensures ProductKey(l).Ok? <==> "campaign_id" in l && "dt" in l && "sku" in l
    ensures ProductKey(l).Err? ==> ProductKey(l).error == KeyError
    ensures ProductKey(l).Ok? && "page" !in l ==> ProductKey(l).value["page"] == VStr("Трафареты")
    ensures ProductKey(l).Ok? && "condition" !in l ==> ProductKey(l).value["condition"] == VStr("Трафареты")
  {
  }

  /** The stored rows of a product line: its row is found or created, and no other row is
      changed or lost. */
  lemma ProductLineFrame(ctx: Ctx, t: Table, l: Record)
    requires ValidTable(t)
    ensures var r := ProductLine(ctx, t, l);
      r.Ok? ==> && ValidTable(r.value) && t.rows.Keys <= r.value.rows.Keys && t.nextId <= r.value.nextId
  {
  }

  /** statistics_product keeps every row it found, finished or not. */
  lemma {:induction false} StatisticsProductGrows(ctx: Ctx, t: Table, lines: seq<Record>)
    requires ValidTable(t)
    ensures var (t', _) := StatisticsProduct(ctx, t, lines);
      ValidTable(t') && t.rows.Keys <= t'.rows.Keys && t.nextId <= t'.nextId
    decreases |lines|
  {
    if |lines| > 0 {
      ProductLineFrame(ctx, t, lines[0]);
      if ProductLine(ctx, t, lines[0]).Ok? {
        StatisticsProductGrows(ctx, ProductLine(ctx, t, lines[0]).value, lines[1..]);
      }
    }
  }

  // ---------------------------------------------------------------- the sync task

  /** check_campaign_report: an empty key fails at once; a missing key raises; a lock or a rate
      limit switches the key off for fifteen minutes; any other exception fails; and what the
      pass saved is kept in every case. */
  lemma CheckCampaignReportFacts(keyId: Option<nat>, keys: seq<ApiKey>, shops: map<nat, Shop>, ctx: Ctx,
                                 t: ReportTable, stats: StatDb)
    ensures var r := CheckCampaignReport(keyId, keys, shops, ctx, t, stats);
      && (keyId.None? ==> r == Ok(QueueTask(None, t, stats, Failure(EmptyKey))))
      && (r.Err? <==> keyId.Some? && GetKey(keys, shops, keyId, ctx.now).Err?)
      && (r.Err? ==> r.error == DoesNotExist)
      && (r.Ok? && keyId.Some? ==>
            var key := GetKey(keys, shops, keyId, ctx.now).value;
            var ran := CheckQueue(ctx, t, stats, key.shop.value);
            && r.value.reports == ran.pass.reports && r.value.stats == ran.pass.stats
            && (r.value.result == Success <==> ran.error.None?)
            && (ran.error == Some(Locked) || ran.error == Some(RateLimit) <==>
                  r.value.key == Some(key.(disabledTill := ctx.now + 900)) && r.value.result.Failure? && r.value.result.reason.Raised?)
            && (ran.error.Some? && ran.error != Some(Locked) && ran.error != Some(RateLimit) ==>
                  r.value == QueueTask(Some(key), ran.pass.reports, ran.pass.stats, Failure(OtherFailure))))
  {
    if keyId.Some? && GetKey(keys, shops, keyId, ctx.now).Ok? {
      var key := GetKey(keys, shops, keyId, ctx.now).value;
      CheckCampaignReportRuns(keyId, keys, shops, ctx, t, stats);
      AfterPassFacts(key, CheckQueue(ctx, t, stats, key.shop.value), ctx.now);
    }
  }

  /** With a usable key the report pass runs for the key's shop. */
  lemma CheckCampaignReportRuns(keyId: Option<nat>, keys: seq<ApiKey>, shops: map<nat, Shop>, ctx: Ctx,
                                t: ReportTable, stats: StatDb)
    requires keyId.Some? && GetKey(keys, shops, keyId, ctx.now).Ok?
    ensures var key := GetKey(keys, shops, keyId, ctx.now).value;
      CheckCampaignReport(keyId, keys, shops, ctx, t, stats) == Ok(AfterPass(key, CheckQueue(ctx, t, stats, key.shop.value), ctx.now))
  {
  }

  /** The except clauses: what the pass saved is kept, and only a lock or a rate limit
      switches the key off. */
  lemma AfterPassFacts(key: ApiKey, ran: Ran, now: int)
    ensures var o := AfterPass(key, ran, now);
      && o.reports == ran.pass.reports && o.stats == ran.pass.stats
      && (o.result == Success <==> ran.error.None?)
      && (ran.error == Some(Locked) || ran.error == Some(RateLimit) <==>
            o.key == Some(key.(disabledTill := now + 900)) && o.result.Failure? && o.result.reason.Raised?)
      && (ran.error.Some? && ran.error != Some(Locked) && ran.error != Some(RateLimit) ==>
            o == QueueTask(Some(key), ran.pass.reports, ran.pass.stats, Failure(OtherFailure)))
  {
  }
}
