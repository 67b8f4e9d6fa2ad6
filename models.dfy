/** Record shapes of the portal's tables (backend/portal_app/models.py), with
    the integrity constraints the database enforces and the default
    orderings that the queries rely on. Only the columns the modelled
    operations read or write are kept. */
module Models {
  import opened Seqs

  datatype Option<T> = None | Some(value: T)
  datatype Result<T, E> = Ok(value: T) | Err(error: E)

  /** A point in time, in milliseconds since the epoch. */
  type Time = int

  const MINUTE: Time := 60_000
  const HOUR: Time := 60 * MINUTE
  const DAY: Time := 24 * HOUR

  /** A JSON document that the core stores and passes on without looking
      inside (an action's `payload`). */
  datatype Json = Json(text: string)

  /** `Gateways`: `gtw_uid` is unique; `last_date_call` is nullable. */
  datatype Gateway = Gateway(pk: int, name: Option<string>, uid: string, lastDateCall: Option<Time>)

  /** `MirthMetrics`: one throughput sample of one channel. The five counters
      are plain integers: no sign constraint is declared. */
  datatype MirthMetric = MirthMetric(
    gateway: string,
    gatewayTimestamp: Time,
    channelName: string,
    channelId: string,
    received: int,
    sent: int,
    error: int,
    filtered: int,
    queued: int)

  /** `CheckStatusMetrics`: one health-check result. `query_time_sec` is a
      float carried through unchanged. */
  datatype CheckStatusMetric = CheckStatusMetric(
    gateway: string,
    gatewayTimestamp: Time,
    checkName: string,
    level: string,
    description: Option<string>,
    actualValue: int,
    limitValue: int,
    operator: string,
    queryTimeSec: Option<real>)

  /** The four `STATUS_CHOICES` of a pending action. */
  datatype ActionStatus = Pending | Delivered | Completed | Failed

  /** The status a new action gets when none is given. */
  const DEFAULT_STATUS: ActionStatus := Pending

  /** The value stored in the `status` column. */
  function StatusCode(s: ActionStatus): string
  {
    match s
    case Pending => "PENDING"
    case Delivered => "DELIVERED"
    case Completed => "COMPLETED"
    case Failed => "FAILED"
  }

  /** Reads a `status` column value back; anything outside the choices is
      rejected. */
  function ParseStatus(code: string): (r: Option<ActionStatus>)
    ensures r.Some? ==> StatusCode(r.value) == code
  {
    if code == "PENDING" then Some(Pending)
    else if code == "DELIVERED" then Some(Delivered)
    else if code == "COMPLETED" then Some(Completed)
    else if code == "FAILED" then Some(Failed)
    else None
  }

  /** Every status is stored as one of the four choice codes, and reads back
      as itself. */
  lemma StatusCodeRoundTrip(s: ActionStatus)
    ensures StatusCode(s) in ["PENDING", "DELIVERED", "COMPLETED", "FAILED"]
    ensures ParseStatus(StatusCode(s)) == Some(s)
  {
  }

  /** A Django user, as the nested user serializer shows it. */
  datatype User = User(id: int, username: string, firstName: string, lastName: string, email: string)

  /** `GatewayPendingActions`: an operator command queued for one gateway.
      `created_by` is nullable (SET_NULL on user deletion). */
  datatype PendingAction = PendingAction(
    id: nat,
    gateway: string,
    actionCommand: string,
    payload: Option<Json>,
    status: ActionStatus,
    createdAt: Time,
    createdBy: Option<User>,
    updatedAt: Time)

  /** `KfeLogEvent`: an externally written log row; every column is nullable. */
  datatype LogEvent = LogEvent(id: int, description: Option<string>, level: Option<string>, datetime: Option<Time>)

  /** `Channels`, reduced to its two maintenance flags. */
  datatype Channel = Channel(pk: int, toUpdate: int, toDelete: Option<int>)

  // ---- Integrity constraints ----

  /** `gtw_uid` is declared unique. */
  ghost predicate UniqueUids(gs: seq<Gateway>)
  {
    forall i, j :: 0 <= i < |gs| && 0 <= j < |gs| && gs[i].uid == gs[j].uid ==> i == j
  }

  function UidsOf(gs: seq<Gateway>): (us: seq<string>)
    ensures |us| == |gs|
    ensures forall k :: 0 <= k < |gs| ==> us[k] == gs[k].uid
  {
    seq(|gs|, k requires 0 <= k < |gs| => gs[k].uid)
  }

  ghost predicate KnownGateway(gs: seq<Gateway>, uid: string)
  {
    uid in UidsOf(gs)
  }

  /** Foreign keys to `Gateways.gtw_uid` from the three managed tables. */
  ghost predicate ForeignKeys(gs: seq<Gateway>, ms: seq<MirthMetric>, cs: seq<CheckStatusMetric>, as_: seq<PendingAction>)
  {
    (forall k :: 0 <= k < |ms| ==> KnownGateway(gs, ms[k].gateway)) &&
    (forall k :: 0 <= k < |cs| ==> KnownGateway(gs, cs[k].gateway)) &&
    (forall k :: 0 <= k < |as_| ==> KnownGateway(gs, as_[k].gateway))
  }

  /** Primary keys are distinct. */
  ghost predicate UniqueIds(as_: seq<PendingAction>)
  {
    forall i, j :: 0 <= i < |as_| && 0 <= j < |as_| && as_[i].id == as_[j].id ==> i == j
  }

  /** Auto-increment primary keys: distinct and below the next one handed out. */
  ghost predicate ActionIds(as_: seq<PendingAction>, nextId: nat)
  {
    UniqueIds(as_) && forall k :: 0 <= k < |as_| ==> as_[k].id < nextId
  }

  // ---- Default orderings (Meta.ordering) ----

  function CreatedAtKey(a: PendingAction): int { a.createdAt }

  /** Log rows order by `datetime`; rows without one never reach a modelled
      ordering (every query filters them out first), so their key is 0. */
  function LogTimeKey(e: LogEvent): int
  {
    match e.datetime
    case Some(t) => t
    case None => 0
  }

  /** `ordering = ['-created_at']`: newest action first. */
  function ActionsNewestFirst(as_: seq<PendingAction>): (r: seq<PendingAction>)
  {
    SortDesc(as_, CreatedAtKey)
  }

  /** `ordering = ['-datetime']`: newest log event first. */
  function LogsNewestFirst(es: seq<LogEvent>): (r: seq<LogEvent>)
  {
    SortDesc(es, LogTimeKey)
  }

  /** `-created_at` gives a permutation of the actions, newest first. */
  lemma ActionsOrdering(as_: seq<PendingAction>)
    ensures multiset(ActionsNewestFirst(as_)) == multiset(as_)
    ensures forall i, j :: 0 <= i < j < |ActionsNewestFirst(as_)| ==>
      ActionsNewestFirst(as_)[i].createdAt >= ActionsNewestFirst(as_)[j].createdAt
  {
    SortDescFacts(as_, CreatedAtKey);
  }

  /** `-datetime` gives a permutation of the log events, newest first. */
  lemma LogsOrdering(es: seq<LogEvent>)
    ensures multiset(LogsNewestFirst(es)) == multiset(es)
    ensures forall i, j :: 0 <= i < j < |LogsNewestFirst(es)| ==>
      LogTimeKey(LogsNewestFirst(es)[i]) >= LogTimeKey(LogsNewestFirst(es)[j])
  {
    SortDescFacts(es, LogTimeKey);
  }
}
