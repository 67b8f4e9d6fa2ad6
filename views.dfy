/** The portal's store and the three views of backend/portal_app/views.py
    that read or change it as one sequential step each: the gateway
    heartbeat (`MetricsIngestionView.post`), the operator's action creation
    (`CreateActionView.post`) and the dashboard summary
    (`DashboardStatsView.get`). */
module Views {
  import opened Seqs
  import opened Models
  import opened Serializers
  import opened Queries
  import opened Ingestion

  datatype IngestResponse =
    | Created(mirthRecords: nat, checkRecords: nat, pendingActions: seq<ActionView>)
    | BadRequest(error: string)
    | NotFound(error: string)
  {
    function HttpStatus(): int
    {
      match this
      case Created(_, _, _) => 201
      case BadRequest(_) => 400
      case NotFound(_) => 404
    }
  }

  datatype CreateActionResponse =
    | ActionCreated
    | ActionInvalid(errors: seq<FieldError>)
    | GatewayNotFound(error: string)
  {
    function HttpStatus(): int
    {
      match this
      case ActionCreated => 201
      case ActionInvalid(_) => 400
      case GatewayNotFound(_) => 404
    }
  }

  const GATEWAY_NOT_FOUND: string := "Gateway non trovato"

  datatype DashboardReport = DashboardReport(kpi: Kpi, topBatchErrors: seq<BatchCount>)

  /** The heartbeat reaches the row building: both keys are present and the
      gateway exists. */
  predicate Resolves(gs: seq<Gateway>, hb: Heartbeat)
  {
    hb.gtwUid.Some? && hb.timestamp.Some? && FindGateway(gs, hb.gtwUid.value).Some?
  }

  /** The `MirthMetrics` rows get written: the heartbeat resolves and its
      `mirth` object is well formed. */
  predicate MirthWritten(gs: seq<Gateway>, hb: Heartbeat)
  {
    Resolves(gs, hb) && BuildRows(hb.mirth, MirthBuilder(hb.gtwUid.value, hb.timestamp.value)).Ok?
  }

  /** The ids of a list of serialized actions. */
  function HandedOut(vs: seq<ActionView>): (ids: set<nat>)
    ensures forall k :: 0 <= k < |vs| ==> vs[k].id in ids
    ensures forall id :: id in ids ==> exists k :: 0 <= k < |vs| && vs[k].id == id
  {
    set k | 0 <= k < |vs| :: vs[k].id
  }

  /** Every id handed to a gateway was allocated, and its row is no longer
      pending, so it cannot be drained again. */
  ghost predicate DeliveredOnce(as_: seq<PendingAction>, nextId: nat, delivered: set<nat>)
  {
    (forall id :: id in delivered ==> id < nextId) &&
    (forall k :: 0 <= k < |as_| && as_[k].id in delivered ==> as_[k].status != Pending)
  }

  /** A drain changes no gateway and no id, so the foreign and primary keys
      still hold. */
  lemma DrainKeepsKeys(gs: seq<Gateway>, ms: seq<MirthMetric>, cs: seq<CheckStatusMetric>,
                       as_: seq<PendingAction>, nextId: nat, uid: string)
    requires ForeignKeys(gs, ms, cs, as_) && ActionIds(as_, nextId)
    ensures ForeignKeys(gs, ms, cs, MarkDelivered(as_, uid))
    ensures ActionIds(MarkDelivered(as_, uid), nextId)
  {
    var after := MarkDelivered(as_, uid);
    forall k | 0 <= k < |after| ensures after[k].gateway == as_[k].gateway && after[k].id == as_[k].id {
    }
  }

  /** The ids handed out by a drain are those of this gateway's pending rows. */
  lemma DrainedIdsArePending(as_: seq<PendingAction>, uid: string)
    requires UniqueIds(as_)
    ensures forall k :: 0 <= k < |as_| && as_[k].id in HandedOut(SerializeActions(DrainOrder(as_, uid))) ==>
      IsPendingFor(as_[k], uid)
  {
    var drained := DrainOrder(as_, uid);
    var views := SerializeActions(drained);
    DrainMembers(as_, uid);
    forall k | 0 <= k < |as_| && as_[k].id in HandedOut(views) ensures IsPendingFor(as_[k], uid) {
      var j :| 0 <= j < |views| && views[j].id == as_[k].id;
      var m :| 0 <= m < |as_| && as_[m] == drained[j];
      assert as_[m].id == as_[k].id;
    }
  }

  /** A drain hands out only allocated ids that were never handed out. */
  lemma DrainHandsOutFresh(as_: seq<PendingAction>, nextId: nat, delivered: set<nat>, uid: string)
    requires ActionIds(as_, nextId) && DeliveredOnce(as_, nextId, delivered)
    ensures forall k :: 0 <= k < |DrainOrder(as_, uid)| ==>
      SerializeActions(DrainOrder(as_, uid))[k].id !in delivered && SerializeActions(DrainOrder(as_, uid))[k].id < nextId
  {
    var drained := DrainOrder(as_, uid);
    DrainMembers(as_, uid);
    forall k | 0 <= k < |drained| ensures drained[k].id !in delivered && drained[k].id < nextId {
      assert drained[k] in as_;
    }
  }

  /** A drain keeps the delivery invariant and hands out no id that was
      handed out before. */
  lemma DrainKeepsInvariants(as_: seq<PendingAction>, nextId: nat, delivered: set<nat>, uid: string)
    requires ActionIds(as_, nextId) && DeliveredOnce(as_, nextId, delivered)
    ensures DeliveredOnce(MarkDelivered(as_, uid), nextId, delivered + HandedOut(SerializeActions(DrainOrder(as_, uid))))
    ensures forall k :: 0 <= k < |DrainOrder(as_, uid)| ==> SerializeActions(DrainOrder(as_, uid))[k].id !in delivered
  {
    var views := SerializeActions(DrainOrder(as_, uid));
    var after := MarkDelivered(as_, uid);
    DrainHandsOutFresh(as_, nextId, delivered, uid);
    DrainedIdsArePending(as_, uid);
    DrainFacts(as_, uid);
    forall id | id in delivered + HandedOut(views) ensures id < nextId {
      if id in HandedOut(views) {
        var j :| 0 <= j < |views| && views[j].id == id;
      }
    }
    forall k | 0 <= k < |after| && after[k].id in delivered + HandedOut(views) ensures after[k].status != Pending {
      assert after[k].id == as_[k].id;
    }
  }

  /** New metric rows stamped with a known gateway keep the foreign keys. */
  lemma AppendRowsKeepsKeys(gs: seq<Gateway>, ms: seq<MirthMetric>, cs: seq<CheckStatusMetric>, as_: seq<PendingAction>,
                            newMs: seq<MirthMetric>, newCs: seq<CheckStatusMetric>, uid: string)
    requires ForeignKeys(gs, ms, cs, as_) && KnownGateway(gs, uid)
    requires forall k :: 0 <= k < |newMs| ==> newMs[k].gateway == uid
    requires forall k :: 0 <= k < |newCs| ==> newCs[k].gateway == uid
    ensures ForeignKeys(gs, ms + newMs, cs + newCs, as_)
  {
    forall k | 0 <= k < |ms + newMs| ensures KnownGateway(gs, (ms + newMs)[k].gateway) {
      if k >= |ms| {
        assert (ms + newMs)[k] == newMs[k - |ms|];
      }
    }
    forall k | 0 <= k < |cs + newCs| ensures KnownGateway(gs, (cs + newCs)[k].gateway) {
      if k >= |cs| {
        assert (cs + newCs)[k] == newCs[k - |cs|];
      }
    }
  }

  /** Refreshing `last_date_call` changes no uid. */
  lemma RefreshKeepsUids(gs: seq<Gateway>, gi: nat, now: Time)
    requires gi < |gs|
    ensures UidsOf(gs[gi := gs[gi].(lastDateCall := Some(now))]) == UidsOf(gs)
  {
  }

  /** A new action with the next id, for a known gateway, keeps the keys and
      the delivery invariant. */
  lemma AppendActionKeepsInvariants(gs: seq<Gateway>, ms: seq<MirthMetric>, cs: seq<CheckStatusMetric>,
                                    as_: seq<PendingAction>, nextId: nat, delivered: set<nat>, a: PendingAction)
    requires ForeignKeys(gs, ms, cs, as_) && ActionIds(as_, nextId) && DeliveredOnce(as_, nextId, delivered)
    requires a.id == nextId && KnownGateway(gs, a.gateway)
    ensures ForeignKeys(gs, ms, cs, as_ + [a])
    ensures ActionIds(as_ + [a], nextId + 1)
    ensures DeliveredOnce(as_ + [a], nextId + 1, delivered)
  {
    var t := as_ + [a];
    assert t[|as_|] == a;
    assert forall k :: 0 <= k < |as_| ==> t[k] == as_[k];
  }

  /** The database tables. Gateways, channels and log events are written by
      other systems; the core writes the three managed tables and the
      gateways' `last_date_call`. */
  class Store {
    var gateways: seq<Gateway>
    var mirthMetrics: seq<MirthMetric>
    var checkMetrics: seq<CheckStatusMetric>
    var actions: seq<PendingAction>
    var nextActionId: nat
    var channels: seq<Channel>
    var logEvents: seq<LogEvent>
    /** Ids of every action ever handed to a gateway. */
    ghost var deliveredIds: set<nat>

    ghost predicate Valid()
      reads this
    {
      UniqueUids(gateways) &&
      ForeignKeys(gateways, mirthMetrics, checkMetrics, actions) &&
      ActionIds(actions, nextActionId) &&
      DeliveredOnce(actions, nextActionId, deliveredIds)
    }

    /** A database with the externally managed tables filled in and the
        managed ones empty. */
    constructor (gateways: seq<Gateway>, channels: seq<Channel>, logEvents: seq<LogEvent>)
      requires UniqueUids(gateways)
      ensures Valid()
      ensures this.gateways == gateways && this.channels == channels && this.logEvents == logEvents
      ensures mirthMetrics == [] && checkMetrics == [] && actions == [] && deliveredIds == {}
    {
      this.gateways := gateways;
      this.channels := channels;
      this.logEvents := logEvents;
      mirthMetrics, checkMetrics, actions, nextActionId := [], [], [], 0;
      deliveredIds := {};
    }

    /** One gateway heartbeat. Missing `gtw_uid` or `timestamp` and an unknown
        gateway write nothing. Otherwise the `mirth` rows are built; a
        missing key there writes nothing, but once they are written a missing
        key in a `CheckStatus` entry answers 400 and leaves them in place (the
        `KeyError` is caught inside the atomic block, which then commits). On
        success the check rows follow, `last_date_call` becomes `now`, and the
        gateway's pending actions are returned (as serialized before the
        update, so still PENDING) and marked DELIVERED. */
    method Ingest(hb: Heartbeat, now: Time) returns (resp: IngestResponse)
      requires Valid()
      modifies this
      ensures Valid()
      ensures channels == old(channels) && logEvents == old(logEvents) && nextActionId == old(nextActionId)
      ensures hb.gtwUid.None? ==> resp == BadRequest(MissingKey("gtw_uid"))
      ensures hb.gtwUid.Some? && hb.timestamp.None? ==> resp == BadRequest(MissingKey("timestamp"))
      ensures hb.gtwUid.Some? && hb.timestamp.Some? && !Resolves(old(gateways), hb) ==> resp == NotFound(UNKNOWN_GATEWAY)
      ensures Resolves(old(gateways), hb) && !MirthWritten(old(gateways), hb) ==>
        resp == BadRequest(MissingKey(BuildRows(hb.mirth, MirthBuilder(hb.gtwUid.value, hb.timestamp.value)).error))
      // Nothing is written unless the mirth rows are.
      ensures !MirthWritten(old(gateways), hb) ==>
        mirthMetrics == old(mirthMetrics) && checkMetrics == old(checkMetrics) &&
        gateways == old(gateways) && actions == old(actions) && deliveredIds == old(deliveredIds)
      ensures MirthWritten(old(gateways), hb) ==>
        var uid, ts := hb.gtwUid.value, hb.timestamp.value;
        var gi := FindGateway(old(gateways), uid).value;
        var checkRows := BuildRows(hb.checkStatus, CheckBuilder(uid, ts));
        mirthMetrics == old(mirthMetrics) + BuildRows(hb.mirth, MirthBuilder(uid, ts)).value &&
        (checkRows.Err? ==>
          resp == BadRequest(MissingKey(checkRows.error)) &&
          checkMetrics == old(checkMetrics) && gateways == old(gateways) &&
          actions == old(actions) && deliveredIds == old(deliveredIds)) &&
        (checkRows.Ok? ==>
          resp == Created(|hb.mirth|, |hb.checkStatus|, SerializeActions(DrainOrder(old(actions), uid))) &&
          checkMetrics == old(checkMetrics) + checkRows.value &&
          gateways == old(gateways)[gi := old(gateways)[gi].(lastDateCall := Some(now))] &&
          actions == MarkDelivered(old(actions), uid) &&
          deliveredIds == old(deliveredIds) + HandedOut(resp.pendingActions))
      // At-most-once delivery: nothing handed out before is handed out again.
      ensures resp.Created? ==> forall k :: 0 <= k < |resp.pendingActions| ==> resp.pendingActions[k].id !in old(deliveredIds)
    {
      if hb.gtwUid.None? {
        return BadRequest(MissingKey("gtw_uid"));
      }
      var uid := hb.gtwUid.value;
      if hb.timestamp.None? {
        return BadRequest(MissingKey("timestamp"));
      }
      var ts := hb.timestamp.value;

      var found := FindGateway(gateways, uid);
      if found.None? {
        return NotFound(UNKNOWN_GATEWAY);
      }
      var gi := found.value;

      var mirthRows := BuildRows(hb.mirth, MirthBuilder(uid, ts));
      if mirthRows.Err? {
        return BadRequest(MissingKey(mirthRows.error));
      }
      MirthRowsStamped(uid, ts, hb.mirth);
      assert KnownGateway(gateways, uid) by { assert UidsOf(gateways)[gi] == uid; }
      AppendMirth(mirthRows.value, uid);

      var checkRows := BuildRows(hb.checkStatus, CheckBuilder(uid, ts));
      if checkRows.Err? {
        return BadRequest(MissingKey(checkRows.error));
      }
      CheckRowsStamped(uid, ts, hb.checkStatus);
      AppendChecks(checkRows.value, uid);

      var views := Deliver(gi, now);
      resp := Created(|mirthRows.value|, |checkRows.value|, views);
    }

    /** Writes a heartbeat's `MirthMetrics` rows, all for gateway `uid`. */
    method AppendMirth(rows: seq<MirthMetric>, uid: string)
      requires Valid() && KnownGateway(gateways, uid)
      requires forall k :: 0 <= k < |rows| ==> rows[k].gateway == uid
      modifies this
      ensures Valid()
      ensures mirthMetrics == old(mirthMetrics) + rows
      ensures gateways == old(gateways) && checkMetrics == old(checkMetrics) && actions == old(actions)
      ensures channels == old(channels) && logEvents == old(logEvents)
      ensures nextActionId == old(nextActionId) && deliveredIds == old(deliveredIds)
    {
      AppendRowsKeepsKeys(gateways, mirthMetrics, checkMetrics, actions, rows, [], uid);
      assert checkMetrics + [] == checkMetrics;
      mirthMetrics := mirthMetrics + rows;
    }

    /** Writes a heartbeat's `CheckStatusMetrics` rows, all for gateway `uid`. */
    method AppendChecks(rows: seq<CheckStatusMetric>, uid: string)
      requires Valid() && KnownGateway(gateways, uid)
      requires forall k :: 0 <= k < |rows| ==> rows[k].gateway == uid
      modifies this
      ensures Valid()
      ensures checkMetrics == old(checkMetrics) + rows
      ensures gateways == old(gateways) && mirthMetrics == old(mirthMetrics) && actions == old(actions)
      ensures channels == old(channels) && logEvents == old(logEvents)
      ensures nextActionId == old(nextActionId) && deliveredIds == old(deliveredIds)
    {
      AppendRowsKeepsKeys(gateways, mirthMetrics, checkMetrics, actions, [], rows, uid);
      assert mirthMetrics + [] == mirthMetrics;
      checkMetrics := checkMetrics + rows;
    }

    /** The success tail of a heartbeat: `last_date_call` of gateway `gi`
        becomes `now`, and that gateway's pending actions are serialized
        (still PENDING) and then marked DELIVERED by id. */
    method Deliver(gi: nat, now: Time) returns (views: seq<ActionView>)
      requires Valid() && gi < |gateways|
      modifies this
      ensures Valid()
      ensures mirthMetrics == old(mirthMetrics) && checkMetrics == old(checkMetrics)
      ensures channels == old(channels) && logEvents == old(logEvents) && nextActionId == old(nextActionId)
      ensures gateways == old(gateways)[gi := old(gateways)[gi].(lastDateCall := Some(now))]
      ensures views == SerializeActions(DrainOrder(old(actions), old(gateways)[gi].uid))
      ensures actions == MarkDelivered(old(actions), old(gateways)[gi].uid)
      ensures deliveredIds == old(deliveredIds) + HandedOut(views)
      ensures forall k :: 0 <= k < |views| ==> views[k].id !in old(deliveredIds)
    {
      var uid := gateways[gi].uid;
      RefreshKeepsUids(gateways, gi, now);
      gateways := gateways[gi := gateways[gi].(lastDateCall := Some(now))];
      views := SerializeActions(DrainOrder(actions, uid));
      DeliverByIds(actions, uid);
      DrainKeepsKeys(gateways, mirthMetrics, checkMetrics, actions, nextActionId, uid);
      DrainKeepsInvariants(actions, nextActionId, deliveredIds, uid);
      actions := SetDeliveredWhereIdIn(actions, IdsOf(views));
      deliveredIds := deliveredIds + HandedOut(views);
    }

    /** An operator queues a command. Invalid input answers 400 and an
        unknown gateway 404, both writing nothing; otherwise exactly one new
        action is appended: PENDING, for that gateway, attributed to the
        calling user, with both timestamps set to `now`. */
    method CreateAction(input: CreateActionInput, user: User, now: Time) returns (resp: CreateActionResponse)
      requires Valid()
      modifies this
      ensures Valid()
      ensures gateways == old(gateways) && mirthMetrics == old(mirthMetrics) && checkMetrics == old(checkMetrics)
      ensures channels == old(channels) && logEvents == old(logEvents) && deliveredIds == old(deliveredIds)
      ensures ValidateCreateAction(input).Err? ==>
        resp == ActionInvalid(ValidateCreateAction(input).error) && actions == old(actions) && nextActionId == old(nextActionId)
      ensures ValidateCreateAction(input).Ok? && FindGateway(gateways, ValidateCreateAction(input).value.gtwUid).None? ==>
        resp == GatewayNotFound(GATEWAY_NOT_FOUND) && actions == old(actions) && nextActionId == old(nextActionId)
      ensures ValidateCreateAction(input).Ok? && FindGateway(gateways, ValidateCreateAction(input).value.gtwUid).Some? ==>
        var v := ValidateCreateAction(input).value;
        resp == ActionCreated &&
        actions == old(actions) + [PendingAction(old(nextActionId), v.gtwUid, v.actionCommand, v.payload,
                                                 DEFAULT_STATUS, now, Some(user), now)] &&
        nextActionId == old(nextActionId) + 1
    {
      var validated := ValidateCreateAction(input);
      if validated.Err? {
        return ActionInvalid(validated.error);
      }
      var v := validated.value;
      var found := FindGateway(gateways, v.gtwUid);
      if found.None? {
        return GatewayNotFound(GATEWAY_NOT_FOUND);
      }
      assert UidsOf(gateways)[found.value] == v.gtwUid;
      var action := PendingAction(nextActionId, gateways[found.value].uid, v.actionCommand, v.payload,
                                  DEFAULT_STATUS, now, Some(user), now);
      AppendActionKeepsInvariants(gateways, mirthMetrics, checkMetrics, actions, nextActionId, deliveredIds, action);
      actions := actions + [action];
      nextActionId := nextActionId + 1;
      resp := ActionCreated;
    }

    /** `DashboardStatsView.get`: the KPI counts and the five batches with
        the most ERROR events in the last 24 hours, counted by a loop over
        the events newest first. */
    method Dashboard(now: Time) returns (report: DashboardReport)
      ensures report.kpi == Kpis(gateways, channels, logEvents, now)
      ensures report.topBatchErrors == TopBatchErrors(logEvents, now)
    {
      var kpi := Kpis(gateways, channels, logEvents, now);
      var events := RecentErrors(logEvents, now);
      var batchCounts: seq<BatchCount> := [];
      var i := 0;
      while i < |events|
        invariant 0 <= i <= |events|
        invariant batchCounts == BatchCounts(Descriptions(events)[..i])
      {
        var desc := events[i].description;
        if desc.Some? && desc.value != "" {
          batchCounts := Bump(batchCounts, BatchKey(desc.value));
        }
        assert Descriptions(events)[..i + 1][..i] == Descriptions(events)[..i];
        i := i + 1;
      }
      assert Descriptions(events)[..i] == Descriptions(events);
      report := DashboardReport(kpi, TopBatches(batchCounts));
    }
  }
}
