/** The pure pieces of the gateway heartbeat in backend/portal_app/views.py
    (`MetricsIngestionView.post`): the payload shape, the construction of the
    metric rows from it (where a missing key raises `KeyError`), and the
    selection and delivery of a gateway's pending actions. */
module Ingestion {
  import opened Seqs
  import opened Models
  import opened Serializers

  // ---- Payload ----

  /** `details['metrics']`; each counter key may be missing. */
  datatype MetricsIn = MetricsIn(received: Option<int>, sent: Option<int>, error: Option<int>, filtered: Option<int>, queued: Option<int>)

  /** One value of the `mirth` object. */
  datatype MirthIn = MirthIn(channelId: Option<string>, metrics: Option<MetricsIn>)

  /** One value of the `CheckStatus` object; `description` and
      `query_time_sec` are read with `.get`. */
  datatype CheckIn = CheckIn(
    level: Option<string>,
    description: Option<string>,
    act: Option<int>,
    limit: Option<int>,
    operator: Option<string>,
    queryTimeSec: Option<real>)

  /** The request body. `mirth` and `CheckStatus` are objects iterated in
      insertion order; a missing one reads as `{}`, that is, as no entries. */
  datatype Heartbeat = Heartbeat(
    gtwUid: Option<string>,
    timestamp: Option<Time>,
    mirth: seq<(string, MirthIn)>,
    checkStatus: seq<(string, CheckIn)>)

  /** The 400 message: `f"Campo JSON mancante: {e}"` for a `KeyError`. */
  function MissingKey(key: string): string
  {
    "Campo JSON mancante: '" + key + "'"
  }

  const UNKNOWN_GATEWAY: string := "Gateway non valido"

  // ---- Gateway lookup ----

  /** `Gateways.objects.get(gtw_uid=uid)`: the index of the gateway, or none. */
  function FindGateway(gs: seq<Gateway>, uid: string): (r: Option<nat>)
    ensures r.Some? ==> r.value < |gs| && gs[r.value].uid == uid
    ensures r.None? <==> uid !in UidsOf(gs)
  {
    if gs == [] then None
    else if gs[0].uid == uid then Some(0)
    else match FindGateway(gs[1..], uid)
      case None => None
      case Some(i) => Some(i + 1)
  }

  /** With unique uids the lookup finds the only gateway carrying the uid. */
  lemma FindGatewayUnique(gs: seq<Gateway>, uid: string, j: nat)
    requires UniqueUids(gs)
    requires j < |gs| && gs[j].uid == uid
    ensures FindGateway(gs, uid) == Some(j)
  {
    assert UidsOf(gs)[j] == uid;
  }

  // ---- Rows from the payload ----

  /** One `MirthMetrics(...)` of the list comprehension. Keys are read in the
      order the comprehension evaluates them: `metrics` first, then
      `channelId`, then the five counters. */
  function MirthRow(gw: string, ts: Time, name: string, d: MirthIn): (r: Result<MirthMetric, string>)
    ensures r.Ok? <==> (d.metrics.Some? && d.channelId.Some? && d.metrics.value.received.Some? &&
                        d.metrics.value.sent.Some? && d.metrics.value.error.Some? &&
                        d.metrics.value.filtered.Some? && d.metrics.value.queued.Some?)
    ensures r.Ok? ==> r.value.gateway == gw && r.value.gatewayTimestamp == ts && r.value.channelName == name
    ensures r.Err? ==> r.error in ["metrics", "channelId", "received", "sent", "error", "filtered", "queued"]
    // The `KeyError` names the first key that is missing, in evaluation order.
    ensures r == Err("metrics") <==> d.metrics.None?
    ensures r == Err("channelId") <==> d.metrics.Some? && d.channelId.None?
    ensures r == Err("received") <==> d.metrics.Some? && d.channelId.Some? && d.metrics.value.received.None?
    ensures r == Err("sent") <==> d.metrics.Some? && d.channelId.Some? && d.metrics.value.received.Some? &&
                                  d.metrics.value.sent.None?
    ensures r == Err("error") <==> d.metrics.Some? && d.channelId.Some? && d.metrics.value.received.Some? &&
                                   d.metrics.value.sent.Some? && d.metrics.value.error.None?
    ensures r == Err("filtered") <==> d.metrics.Some? && d.channelId.Some? && d.metrics.value.received.Some? &&
                                      d.metrics.value.sent.Some? && d.metrics.value.error.Some? &&
                                      d.metrics.value.filtered.None?
    ensures r == Err("queued") <==> d.metrics.Some? && d.channelId.Some? && d.metrics.value.received.Some? &&
                                    d.metrics.value.sent.Some? && d.metrics.value.error.Some? &&
                                    d.metrics.value.filtered.Some? && d.metrics.value.queued.None?
  {
    if d.metrics.None? then Err("metrics")
    else if d.channelId.None? then Err("channelId")
    else
      var m := d.metrics.value;
      if m.received.None? then Err("received")
      else if m.sent.None? then Err("sent")
      else if m.error.None? then Err("error")
      else if m.filtered.None? then Err("filtered")
      else if m.queued.None? then Err("queued")
      else Ok(MirthMetric(gw, ts, name, d.channelId.value, m.received.value, m.sent.value,
                          m.error.value, m.filtered.value, m.queued.value))
  }

  /** One `CheckStatusMetrics(...)`: `level`, `act`, `limit` and `operator`
      are required; a missing description is stored as the empty string. */
  function CheckRow(gw: string, ts: Time, name: string, d: CheckIn): (r: Result<CheckStatusMetric, string>)
    ensures r.Ok? <==> d.level.Some? && d.act.Some? && d.limit.Some? && d.operator.Some?
    ensures r.Ok? ==> r.value.gateway == gw && r.value.gatewayTimestamp == ts && r.value.checkName == name
    ensures r.Ok? ==> r.value.description == Some(if d.description.Some? then d.description.value else "")
    ensures r.Err? ==> r.error in ["level", "act", "limit", "operator"]
    // The `KeyError` names the first key that is missing, in evaluation order.
    ensures r == Err("level") <==> d.level.None?
    ensures r == Err("act") <==> d.level.Some? && d.act.None?
    ensures r == Err("limit") <==> d.level.Some? && d.act.Some? && d.limit.None?
    ensures r == Err("operator") <==> d.level.Some? && d.act.Some? && d.limit.Some? && d.operator.None?
  {
    if d.level.None? then Err("level")
    else if d.act.None? then Err("act")
    else if d.limit.None? then Err("limit")
    else if d.operator.None? then Err("operator")
    else Ok(CheckStatusMetric(gw, ts, name, d.level.value,
                              Some(if d.description.Some? then d.description.value else ""),
                              d.act.value, d.limit.value, d.operator.value, d.queryTimeSec))
  }

  function MirthBuilder(gw: string, ts: Time): ((string, MirthIn)) -> Result<MirthMetric, string>
  {
    (e: (string, MirthIn)) => MirthRow(gw, ts, e.0, e.1)
  }

  function CheckBuilder(gw: string, ts: Time): ((string, CheckIn)) -> Result<CheckStatusMetric, string>
  {
    (e: (string, CheckIn)) => CheckRow(gw, ts, e.0, e.1)
  }

  /** A list comprehension over the entries: all rows, or the first
      `KeyError`. */
  function BuildRows<E, R>(entries: seq<E>, build: E -> Result<R, string>): (r: Result<seq<R>, string>)
    ensures r.Ok? <==> forall k :: 0 <= k < |entries| ==> build(entries[k]).Ok?
    ensures r.Ok? ==> |r.value| == |entries| && forall k :: 0 <= k < |entries| ==> build(entries[k]) == Ok(r.value[k])
    ensures r.Err? ==> exists k :: (0 <= k < |entries| && build(entries[k]) == Err(r.error) &&
                                    forall j :: 0 <= j < k ==> build(entries[j]).Ok?)
  {
    if entries == [] then Ok([])
    else match build(entries[0])
      case Err(key) => Err(key)
      case Ok(row) =>
        match BuildRows(entries[1..], build)
        case Err(key) =>
          var k :| 0 <= k < |entries[1..]| && build(entries[1..][k]) == Err(key) &&
            forall j :: 0 <= j < k ==> build(entries[1..][j]).Ok?;
          assert build(entries[k + 1]) == Err(key);
          Err(key)
        case Ok(rows) => Ok([row] + rows)
  }

  /** A well-formed `mirth` object gives one row per entry, stamped with the
      payload's timestamp and the gateway, named after the entry's key. */
  lemma MirthRowsStamped(gw: string, ts: Time, entries: seq<(string, MirthIn)>)
    requires BuildRows(entries, MirthBuilder(gw, ts)).Ok?
    ensures var rows := BuildRows(entries, MirthBuilder(gw, ts)).value;
      |rows| == |entries| &&
      forall k :: 0 <= k < |rows| ==> rows[k].gateway == gw && rows[k].gatewayTimestamp == ts && rows[k].channelName == entries[k].0
  {
    var rows := BuildRows(entries, MirthBuilder(gw, ts)).value;
    forall k | 0 <= k < |rows| ensures rows[k].gateway == gw && rows[k].gatewayTimestamp == ts && rows[k].channelName == entries[k].0 {
      assert MirthBuilder(gw, ts)(entries[k]) == Ok(rows[k]);
    }
  }

  lemma CheckRowsStamped(gw: string, ts: Time, entries: seq<(string, CheckIn)>)
    requires BuildRows(entries, CheckBuilder(gw, ts)).Ok?
    ensures var rows := BuildRows(entries, CheckBuilder(gw, ts)).value;
      |rows| == |entries| &&
      forall k :: 0 <= k < |rows| ==> rows[k].gateway == gw && rows[k].gatewayTimestamp == ts && rows[k].checkName == entries[k].0
  {
    var rows := BuildRows(entries, CheckBuilder(gw, ts)).value;
    forall k | 0 <= k < |rows| ensures rows[k].gateway == gw && rows[k].gatewayTimestamp == ts && rows[k].checkName == entries[k].0 {
      assert CheckBuilder(gw, ts)(entries[k]) == Ok(rows[k]);
    }
  }

  // ---- Pending actions ----

  /** `filter(gateway=gateway, status='PENDING')` */
  predicate IsPendingFor(a: PendingAction, uid: string)
  {
    a.gateway == uid && a.status == Pending
  }

  function PendingFor(uid: string): PendingAction -> bool
  {
    a => IsPendingFor(a, uid)
  }

  /** The actions handed to the gateway, in the model's default order. */
  function DrainOrder(as_: seq<PendingAction>, uid: string): seq<PendingAction>
  {
    ActionsNewestFirst(Filter(as_, PendingFor(uid)))
  }

  /** `action_ids = [a['id'] for a in actions_data]` */
  function IdsOf(vs: seq<ActionView>): (ids: seq<nat>)
    ensures |ids| == |vs|
    ensures forall k :: 0 <= k < |vs| ==> ids[k] == vs[k].id
  {
    seq(|vs|, k requires 0 <= k < |vs| => vs[k].id)
  }

  /** `filter(id__in=ids).update(status='DELIVERED')`: a bulk update, so
      `updated_at` is not touched. */
  function SetDeliveredWhereIdIn(as_: seq<PendingAction>, ids: seq<nat>): (r: seq<PendingAction>)
    ensures |r| == |as_|
    ensures forall k :: 0 <= k < |as_| ==> r[k] == if as_[k].id in ids then as_[k].(status := Delivered) else as_[k]
  {
    seq(|as_|, k requires 0 <= k < |as_| => if as_[k].id in ids then as_[k].(status := Delivered) else as_[k])
  }

  /** Reference definition of the drain's effect: the gateway's pending
      actions become delivered, nothing else changes. */
  function MarkDelivered(as_: seq<PendingAction>, uid: string): (r: seq<PendingAction>)
    ensures |r| == |as_|
  {
    seq(|as_|, k requires 0 <= k < |as_| => if IsPendingFor(as_[k], uid) then as_[k].(status := Delivered) else as_[k])
  }

  /** The drain returns exactly the gateway's pending actions: a permutation
      of the filter. */
  lemma DrainMembers(as_: seq<PendingAction>, uid: string)
    ensures multiset(DrainOrder(as_, uid)) == multiset(Filter(as_, PendingFor(uid)))
    ensures forall k :: 0 <= k < |as_| && IsPendingFor(as_[k], uid) ==> as_[k] in DrainOrder(as_, uid)
    ensures forall k :: 0 <= k < |DrainOrder(as_, uid)| ==>
      DrainOrder(as_, uid)[k] in as_ && IsPendingFor(DrainOrder(as_, uid)[k], uid)
  {
    var f := Filter(as_, PendingFor(uid));
    var d := DrainOrder(as_, uid);
    SortDescFacts(f, CreatedAtKey);
    forall k | 0 <= k < |as_| && IsPendingFor(as_[k], uid) ensures as_[k] in d {
      assert PendingFor(uid)(as_[k]);
      assert as_[k] in multiset(f);
    }
    forall k | 0 <= k < |d| ensures d[k] in as_ && IsPendingFor(d[k], uid) {
      assert d[k] in multiset(f);
      assert PendingFor(uid)(d[k]);
    }
  }

  /** The drain (whose rows `DrainMembers` gives) is newest first; each row
      still shows status PENDING, as it was serialized before the update. */
  lemma DrainSelection(as_: seq<PendingAction>, uid: string)
    ensures forall i, j :: 0 <= i < j < |DrainOrder(as_, uid)| ==>
      DrainOrder(as_, uid)[i].createdAt >= DrainOrder(as_, uid)[j].createdAt
    ensures forall k :: 0 <= k < |DrainOrder(as_, uid)| ==>
      SerializeActions(DrainOrder(as_, uid))[k].status == "PENDING" &&
      SerializeActions(DrainOrder(as_, uid))[k].gateway == uid
  {
    var d := DrainOrder(as_, uid);
    DrainMembers(as_, uid);
    SortDescFacts(Filter(as_, PendingFor(uid)), CreatedAtKey);
    forall i, j | 0 <= i < j < |d| ensures d[i].createdAt >= d[j].createdAt {
      assert CreatedAtKey(d[i]) >= CreatedAtKey(d[j]);
    }
  }

  /** With distinct primary keys, updating by the drained ids is exactly the
      reference drain: the ids select precisely this gateway's pending rows. */
  lemma DeliverByIds(as_: seq<PendingAction>, uid: string)
    requires UniqueIds(as_)
    ensures SetDeliveredWhereIdIn(as_, IdsOf(SerializeActions(DrainOrder(as_, uid)))) == MarkDelivered(as_, uid)
  {
    var d := DrainOrder(as_, uid);
    var ids := IdsOf(SerializeActions(d));
    DrainMembers(as_, uid);
    forall k | 0 <= k < |as_| ensures as_[k].id in ids <==> IsPendingFor(as_[k], uid) {
      if IsPendingFor(as_[k], uid) {
        var j :| 0 <= j < |d| && d[j] == as_[k];
        assert ids[j] == as_[k].id;
      }
      if as_[k].id in ids {
        var j :| 0 <= j < |ids| && ids[j] == as_[k].id;
        var m :| 0 <= m < |as_| && as_[m] == d[j];
        assert as_[m].id == as_[k].id;
      }
    }
  }

  /** After a drain the gateway has nothing pending, so a second heartbeat
      with no new action gets an empty list (at-most-once delivery). Rows of
      other gateways and rows not pending are untouched; only the status of
      the drained rows changes, their timestamps stay. */
  lemma DrainFacts(as_: seq<PendingAction>, uid: string)
    ensures DrainOrder(MarkDelivered(as_, uid), uid) == []
    ensures forall k :: 0 <= k < |as_| && !IsPendingFor(as_[k], uid) ==> MarkDelivered(as_, uid)[k] == as_[k]
    ensures forall k :: 0 <= k < |as_| && IsPendingFor(as_[k], uid) ==>
      MarkDelivered(as_, uid)[k].status == Delivered && MarkDelivered(as_, uid)[k] == as_[k].(status := Delivered)
    ensures forall k :: 0 <= k < |as_| ==>
      MarkDelivered(as_, uid)[k].id == as_[k].id &&
      MarkDelivered(as_, uid)[k].createdAt == as_[k].createdAt &&
      MarkDelivered(as_, uid)[k].updatedAt == as_[k].updatedAt
  {
    var f := Filter(MarkDelivered(as_, uid), PendingFor(uid));
    assert forall k :: 0 <= k < |f| ==> IsPendingFor(f[k], uid);
  }
}
