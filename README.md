# Gateway portal core, modelled in Dafny

This project models the core of the kripton-service gateway portal. Remote gateways send heartbeats. The portal keeps a table of operator commands waiting for each gateway. Operators read a dashboard and per-channel metric histories. The model covers:

- **Heartbeat ingestion** (`MetricsIngestionView.post`): key checks, gateway lookup, writing `MirthMetrics` and `CheckStatusMetrics` rows, refreshing `last_date_call`, and the at-most-once drain of pending actions.
- **Action creation** (`CreateActionView.post`): DRF validation of the request, then a new PENDING action with the creator recorded.
- **The dashboard** (`DashboardStatsView.get`): the KPI counts, and the per-batch grouping of recent ERROR log events with its top five.
- **The metrics history** (`MirthMetricsHistoryView.get`).
- The serializers these views depend on: `get_batch_name`, the pending-action output shape, and `CreateActionSerializer`.
- The gateways page's status chip (`getStatusChip`).

Modules:

- `Seqs` (`seqs.dfy`): filtering, and a stable descending insertion sort. The sort stands for the database's `ORDER BY` and for Python's `sorted`.
- `Models` (`models.dfy`): record shapes, the status enum with its default, the integrity constraints (unique `gtw_uid`, foreign keys, primary keys) and the default orderings.
- `Serializers` (`serializers.dfy`): Python's `str.strip`, the batch-name rule, the action view, and the `CharField`/`JSONField` validation.
- `Queries` (`queries.dfy`): the dashboard and history reads, as functions of the tables and `now`.
- `Ingestion` (`ingestion.dfy`): the heartbeat payload, row building with its `KeyError` order, and the drain.
- `Views` (`views.dfy`): class `Store`, whose fields are the tables. Its methods `Ingest`, `CreateAction` and `Dashboard` are the three views that run as a sequence of steps. `Valid()` holds the integrity constraints plus the delivery invariant, and every method preserves it.
- `GatewaysPage` (`gateways_page.dfy`): the status chip, and its agreement with the active-gateway KPI.

Modelling choices:

- Time is an integer number of milliseconds since the epoch.
- The clock (`timezone.now()`, `new Date()`) is a parameter `now`.
- The request user is a parameter of `CreateAction`.

## Model

| member | source | states |
|---|---|---|
| Models.ParseStatus | backend/portal_app/models.py:60-66 | A stored status code reads back only as the choice it encodes; anything outside the four choices is rejected |
| Models.StatusCodeRoundTrip | backend/portal_app/models.py:60-66 | Every status is stored as one of PENDING, DELIVERED, COMPLETED, FAILED and reads back as itself |
| Models.ActionsOrdering | backend/portal_app/models.py:76 | The `-created_at` ordering yields a permutation of the actions, sorted newest first |
| Models.LogsOrdering | backend/portal_app/models.py:148 | The `-datetime` ordering yields a permutation of the log events, sorted newest first |
| Seqs.Filter | backend/portal_app/views.py:85-88 | A queryset filter keeps exactly the rows that satisfy the predicate, and no row more often than the table holds it |
| Seqs.FilterCountSnoc | backend/portal_app/views.py:120-133 | `.count()` of a filter grows by one exactly when an added row matches |
| Seqs.SortDescFacts | backend/portal_app/views.py:157 | The sort returns a permutation of its input, ordered by non-increasing key |
| Seqs.SortDescStable | backend/portal_app/views.py:157 | The sort is stable: rows with equal keys keep their relative order, like Python's `sorted` |
| Serializers.Strip | backend/portal_app/serializers.py:43 | `str.strip()`: the result has no whitespace at either end, and is empty exactly when the input is all whitespace; `StripTrims` states that it is the input with only its end whitespace removed |
| Serializers.StripTrims | backend/portal_app/serializers.py:43 | `str.strip()` removes nothing but the whitespace at the two ends: the result is the slice of the input after its leading whitespace, and only whitespace follows it |
| Serializers.FindSeparator | backend/portal_app/serializers.py:43 | Finds the leftmost `" - "` at or after a position, or reports that there is none |
| Serializers.BatchKey | backend/portal_app/views.py:153 | `desc.split(' - ', 1)[0].strip()`; specified by `BatchNameBeforeFirstSeparator`, `BatchNameWithoutSeparator` and `BatchNameHasNoSeparator` |
| Serializers.BatchName | backend/portal_app/serializers.py:35-46 | `get_batch_name`; specified by `BatchNameOfNothing`, `BatchNameBeforeFirstSeparator` and `BatchNameWithoutSeparator` |
| Serializers.BatchNameOfNothing | backend/portal_app/serializers.py:40-46 | A null or empty description has no batch name |
| Serializers.BatchNameBeforeFirstSeparator | backend/portal_app/serializers.py:43 | With a separator, the batch name is the trimmed text before its first occurrence |
| Serializers.BatchNameWithoutSeparator | backend/portal_app/serializers.py:43 | Without a separator, the batch name is the whole description trimmed; it is not rejected |
| Serializers.BatchNameExample | backend/portal_app/serializers.py:38 | The docstring's example: "xds_cron - " followed by any text, such as "((93vl)) Errore...", gives "xds_cron" |
| Serializers.BatchKeyOfWordThenText | backend/portal_app/serializers.py:43 | A space-free word followed by `" - "` and any text has that word as its batch key |
| Serializers.BatchKeyOfWord | backend/portal_app/serializers.py:43 | A space-free description without a separator is its own batch key |
| Serializers.BatchNameHasNoSeparator | backend/portal_app/serializers.py:43 | A batch name never contains `" - "` |
| Serializers.SerializeAction | backend/portal_app/serializers.py:81-91 | An action's view carries the action's id, gateway, command, payload, creator and both timestamps unchanged, and its status as the stored code, which parses back to the action's status |
| Serializers.SerializeActions | backend/portal_app/serializers.py:81-91 | `many=True`: one view per action in query order; each view carries its action's id, status, gateway, command, payload, creator and timestamps |
| Serializers.CharField | backend/portal_app/serializers.py:95-96 | `CharField(max_length)` accepts exactly a given, non-null value whose trimmed form is non-blank, within the limit and free of NUL; on success it yields the trimmed value; a rejection always carries at least one error code |
| Serializers.OptionalJsonField | backend/portal_app/serializers.py:97 | `JSONField(required=False)` accepts a missing payload as none and a given one unchanged, and rejects null |
| Serializers.ValidateCreateAction | backend/portal_app/serializers.py:94-97 | `is_valid()` holds exactly when all three fields are valid; `validated_data` is then the trimmed uid and command (non-empty, within 64 and 100 characters) and the payload as given, or none when it is missing; errors are non-empty and name only the declared fields |
| Serializers.ErrorsReported | backend/portal_app/serializers.py:94-97 | The errors of the three fields, in declaration order, report each failing field with its own codes and no field that passed |
| Serializers.ValidateCreateActionErrors | backend/portal_app/serializers.py:94-97 | `serializer.errors`: `gtw_uid`, `action_command` and `payload` are each reported, with that field's own codes, exactly when that field fails |
| Ingestion.FindGateway | backend/portal_app/views.py:40-43 | `Gateways.objects.get(gtw_uid=...)` finds a gateway with that uid, or reports DoesNotExist exactly when there is none |
| Ingestion.FindGatewayUnique | backend/portal_app/views.py:41 | Since `gtw_uid` is unique, the lookup finds the one gateway that has the uid |
| Ingestion.MissingKey | backend/portal_app/views.py:102-103 | The 400 message for a `KeyError`, quoting the key as `str(KeyError)` does; `Views.Store.Ingest` states which key it names in each case |
| Ingestion.MirthRow | backend/portal_app/views.py:47-59 | A mirth entry becomes a row exactly when `metrics`, `channelId` and the five counters are present; the row is stamped with the gateway, the timestamp and the channel name; a failure names exactly the first missing key in the order `metrics`, `channelId`, `received`, `sent`, `error`, `filtered`, `queued` |
| Ingestion.CheckRow | backend/portal_app/views.py:64-77 | A CheckStatus entry becomes a row exactly when `level`, `act`, `limit` and `operator` are present; a missing description is stored as ""; a failure names exactly the first missing key in the order `level`, `act`, `limit`, `operator` |
| Ingestion.BuildRows | backend/portal_app/views.py:47-59 | A list comprehension either builds one row per entry, in order, or stops at the first entry that raises `KeyError` and names its key |
| Ingestion.MirthRowsStamped | backend/portal_app/views.py:47-59 | Every built mirth row belongs to the heartbeat's gateway and timestamp and keeps its channel name |
| Ingestion.CheckRowsStamped | backend/portal_app/views.py:64-77 | Every built check row belongs to the heartbeat's gateway and timestamp and keeps its check name |
| Ingestion.DrainOrder | backend/portal_app/views.py:85-89 | The queryset of pending actions in its default order; specified by `DrainMembers` and `DrainSelection` |
| Ingestion.IdsOf | backend/portal_app/views.py:92 | `[a['id'] for a in actions_data]`: one id per view, in order |
| Ingestion.SetDeliveredWhereIdIn | backend/portal_app/views.py:93 | The bulk `update(status='DELIVERED')` changes only the status of the rows whose id is listed; `updated_at` is not bumped |
| Ingestion.DrainMembers | backend/portal_app/views.py:85-88 | The drain's rows are a permutation of this gateway's PENDING actions |
| Ingestion.DrainSelection | backend/portal_app/views.py:85-89 | The drain (whose rows `DrainMembers` gives) is ordered newest first; each row is serialized before the update, so it still shows PENDING, for this gateway |
| Ingestion.DeliverByIds | backend/portal_app/views.py:92-93 | With distinct primary keys, updating by the drained ids marks exactly this gateway's pending actions as delivered |
| Ingestion.DrainFacts | backend/portal_app/views.py:85-93 | After a drain, a second drain with no new action returns nothing; other rows are untouched; drained rows change only their status |
| Views.HandedOut | backend/portal_app/views.py:92 | The set of ids handed out is exactly the ids of the returned views |
| Views.DrainKeepsKeys | backend/portal_app/views.py:93 | Marking actions delivered keeps every foreign key and the primary-key invariant |
| Views.DrainedIdsArePending | backend/portal_app/views.py:85-92 | Every action whose id is handed out is a PENDING action of the heartbeat's gateway |
| Views.DrainHandsOutFresh | backend/portal_app/views.py:85-92 | Under the delivery invariant, a drained id was never handed out before and is below the next id |
| Views.DrainKeepsInvariants | backend/portal_app/views.py:85-93 | A drain keeps the foreign keys, the primary keys and the delivery invariant; it never hands out an id that was handed out before |
| Views.AppendRowsKeepsKeys | backend/portal_app/views.py:47-78 | Appending rows stamped with a known gateway keeps the foreign keys |
| Views.RefreshKeepsUids | backend/portal_app/views.py:81-82 | Refreshing `last_date_call` keeps every uid, so uid uniqueness and key resolution are unchanged |
| Views.AppendActionKeepsInvariants | backend/portal_app/views.py:185-190 | Appending an action for a known gateway with the next id keeps foreign keys, primary keys and the delivery invariant |
| Views.Store.constructor | backend/portal_app/models.py:7-76 | A database starts with the managed tables empty and satisfies its integrity constraints |
| Views.Store.Ingest | backend/portal_app/views.py:29-105 | The responses in order: 400 for missing `gtw_uid`, 400 for missing `timestamp`, 404 for an unknown gateway, 400 naming the first missing mirth key (nothing written), 400 naming the first missing check key (mirth rows kept). On 201: the rows are appended, `last_date_call` becomes `now`, the pending actions are returned and marked delivered, and no delivered id is ever returned again |
| Views.Store.AppendMirth | backend/portal_app/views.py:60 | `bulk_create` of the mirth rows appends them and nothing else, keeping the invariants |
| Views.Store.AppendChecks | backend/portal_app/views.py:78 | `bulk_create` of the check rows appends them and nothing else, keeping the invariants |
| Views.Store.Deliver | backend/portal_app/views.py:80-93 | The success tail of a heartbeat: refreshes `last_date_call`, returns the serialized pending actions, marks them delivered, and keeps the store's invariants |
| Views.Store.CreateAction | backend/portal_app/views.py:172-195 | Responses: 400 with the serializer errors, 404 "Gateway non trovato", or 201 after appending exactly one action. That action is PENDING, for the validated gateway, by the calling user, with both timestamps `now` and a fresh id. Nothing else changes |
| Views.Store.Dashboard | backend/portal_app/views.py:109-170 | The loop over recent ERROR events builds the same dict as `Queries.BatchCounts`; the KPIs equal `Queries.Kpis` and the top five equal `Queries.TopBatchErrors` |
| Queries.ActiveGateways | backend/portal_app/views.py:120-122 | The active-gateway KPI; specified by `ActiveGatewaysCounts` and `ActiveBoundary` |
| Queries.ActiveGatewaysCounts | backend/portal_app/views.py:120-122 | The active-gateway count counts exactly the gateways active at `now` and never exceeds the total |
| Queries.ActiveBoundary | backend/portal_app/views.py:121 | A gateway seen exactly 15 minutes ago is active, one seen a millisecond earlier is not, and one never seen is not |
| Queries.ErrorsLast24h | backend/portal_app/views.py:130-133 | The `errors_last_24h` KPI; specified by `ErrorsLast24hCounts` |
| Queries.ErrorsLast24hCounts | backend/portal_app/views.py:130-133 | `errors_last_24h` counts exactly the ERROR and WARNING events of the last 24 hours |
| Queries.ChannelFlagCounts | backend/portal_app/views.py:126-127 | The channel KPIs count exactly the channels with `to_update = 1` and with `to_delete = 1` |
| Queries.Kpis | backend/portal_app/views.py:119-133 | Every KPI is bounded by its table's size; active gateways are at most the total |
| Queries.RecentErrors | backend/portal_app/views.py:143-146 | The scanned queryset of ERROR events; specified by `RecentErrorsSelection` |
| Queries.RecentErrorsSelection | backend/portal_app/views.py:143-146 | The grouping scans exactly the ERROR events of the last 24 hours, newest first |
| Queries.Names | backend/portal_app/views.py:149-154 | The dict's keys in insertion order: one per entry, the entry's name at each position |
| Queries.Bump | backend/portal_app/views.py:154 | `batch_counts[name] = batch_counts.get(name, 0) + 1`; specified by `BumpNew`, `BumpNames`, `BumpCountOf` and `BumpTotal` |
| Queries.Tally | backend/portal_app/views.py:151-154 | One turn of the loop body; specified by `TallyLabelled` and `BatchCountsSnoc` |
| Queries.BatchCounts | backend/portal_app/views.py:149-154 | The grouping loop as a left fold; specified by `BatchCountsFacts` and `BatchCountsFirstSeenOrder` against the reference list `Included` |
| Queries.IncludedSnoc | backend/portal_app/views.py:150-154 | Scanning one more event extends the reference list of batch names by that event's name, if it has one |
| Queries.IncludedLength | backend/portal_app/views.py:150-154 | The reference list of batch names has one entry per event with a non-empty description |
| Queries.BumpNew | backend/portal_app/views.py:154 | `batch_counts[name] = batch_counts.get(name, 0) + 1` on a name not yet present appends it with count 1 |
| Queries.BumpNames | backend/portal_app/views.py:154 | The dict's keys after the increment are the old keys, plus the name at the end if it was new |
| Queries.BumpCountOf | backend/portal_app/views.py:154 | The increment adds one to the incremented name's count and leaves every other count as it was |
| Queries.BumpTotal | backend/portal_app/views.py:154 | The increment raises the sum of the counts by exactly one and keeps every count positive |
| Queries.BumpFacts | backend/portal_app/views.py:154 | `batch_counts[name] += 1`: adds one to that name's count only; a new name goes last; the total grows by one |
| Queries.BatchCountsDistinct | backend/portal_app/views.py:149-154 | Each batch name appears in the dict once |
| Queries.BatchCountsCountOf | backend/portal_app/views.py:149-154 | Each name's count equals the number of scanned events whose batch name it is |
| Queries.BatchCountsNames | backend/portal_app/views.py:149-154 | The dict's keys are exactly the batch names met |
| Queries.BatchCountsTotal | backend/portal_app/views.py:149-154 | The counts add up to the number of events with a non-empty description, and each count is positive |
| Queries.BatchCountsFacts | backend/portal_app/views.py:149-154 | The grouping loop's dict is a multiset of batch names, keyed by distinct names |
| Queries.BatchCountsFirstSeenOrder | backend/portal_app/views.py:149-154 | Keys enter the dict in the order their batch is first met |
| Queries.BatchCountsSnoc | backend/portal_app/views.py:150-154 | Scanning one more event is one more turn of the loop body |
| Queries.GroupingExample | backend/portal_app/views.py:149-154 | For any two distinct space-free batch words a and b and any texts, "a - t1", "a - t2", "b - t3" followed by a separator-less word such as "oops" group as a 2, b 1, oops 1 |
| Queries.TallyLabelled | backend/portal_app/views.py:150-154 | For a `word` without whitespace, one loop turn on "word - text" adds one to the count of `word` |
| Queries.TopBatches | backend/portal_app/views.py:157 | `sorted(..., reverse=True)[:5]`; specified by `TopBatchesFacts` |
| Queries.TopBatchErrors | backend/portal_app/views.py:143-157 | The dashboard's `top_5_batch_errors`; `Views.Store.Dashboard` computes it by the loop, and `TopBatchesFacts` specifies it |
| Queries.TopBatchesOrdered | backend/portal_app/views.py:157 | At most five entries, by non-increasing count, all taken from the dict |
| Queries.TopBatchesDominate | backend/portal_app/views.py:157 | An entry left out has a count no larger than any entry shown |
| Queries.TopBatchesStable | backend/portal_app/views.py:157 | Entries with equal counts keep the dict's insertion order |
| Queries.TopBatchesFacts | backend/portal_app/views.py:156-157 | The top five together: size, order, taken from the dict, dominance, and ties in first-seen order |
| Queries.History | backend/portal_app/views.py:289-295 | The history answers 400 exactly when `gateway_uid` or `channel_name` is missing or empty |
| Queries.HistoryStart | backend/portal_app/views.py:297-301 | The window start; specified by `HistoryRows` and `HistoryWeekCoversDay` |
| Queries.HistoryRows | backend/portal_app/views.py:297-313 | Otherwise it returns exactly that gateway's rows for that channel in the window, oldest first; the window is seven days for `range=7d` and 24 hours for anything else |
| Queries.HistoryWeekCoversDay | backend/portal_app/views.py:298-301 | The seven-day history contains every row of the 24-hour one |
| GatewaysPage.StatusChip | frontend/src/pages/GatewaysPage.jsx:7-23 | "Mai" exactly for a falsy last call; otherwise Online up to 15 minutes, Inattivo up to 60, Offline beyond, all boundaries inclusive; an unparseable date shows Offline |
| GatewaysPage.StatusChipMonotone | frontend/src/pages/GatewaysPage.jsx:16-22 | An older last call never shows a fresher chip |
| GatewaysPage.StatusChipAges | frontend/src/pages/GatewaysPage.jsx:16-22 | As time passes, the chip only moves towards Offline |
| GatewaysPage.FutureCallIsOnline | frontend/src/pages/GatewaysPage.jsx:14-17 | A last call in the future (clock skew) shows Online |
| GatewaysPage.FromGatewayField | frontend/src/pages/GatewaysPage.jsx:8-10 | A null `last_date_call` reaches the page as the falsy value |
| GatewaysPage.OnlineMatchesActive | frontend/src/pages/GatewaysPage.jsx:16-17 | The page's Online chip and the dashboard's active-gateway KPI (views.py:120-122) agree for every gateway: same window, same inclusive edge |

## Behaviour of the code worth noting

The model follows the code, including these points:

- **Descriptions without a separator are grouped under their trimmed text** (views.py:152-154). `desc.split(' - ', 1)[0].strip()` returns the whole trimmed description when it holds no `" - "`, so such an event is counted under its own text (`GroupingExample`); `get_batch_name` does the same (serializers.py:43). A description of only spaces is grouped under the empty name.
- **Returned actions show PENDING** (views.py:89-93). The serializer's data is built at line 89, before the update at line 93, so every action in the heartbeat response carries status PENDING, although the rows are DELIVERED afterwards.
- **A `CheckStatus` `KeyError` leaves the `MirthMetrics` rows committed** (views.py:32-33, 60, 64-78, 102-103). The handler is inside the `@transaction.atomic` method, so the transaction commits: the answer is 400 and the mirth rows written at line 60 stay.
- **Empty history parameters give 400** (views.py:294-295). `not gtw_uid` holds for a missing and for an empty parameter alike.
- **No transition to COMPLETED or FAILED** (models.py:60-66, views.py:93). The status choices include them, but the only transition any code makes is the drain's PENDING to DELIVERED.
- **Counters carry no sign constraint** (models.py:18-22). The metric counters are plain `IntegerField`s, so the model allows any integer.

## Left out

- The Mantis ticket proxy, the read-only ViewSets, URL routing, authentication and permissions: outside the modelled core.
- `recent_exports` and `import_errors_count` of the dashboard: they read tables the core does not otherwise use, and are simple reads.
- Concurrency and transaction isolation: each view is one atomic step of the store.
- The 500 path of ingestion, which catches any other exception (database errors, unparseable timestamps, wrong JSON types). Database column-length limits and 32-bit integer overflow are also not modelled. Payload values are taken as already having the right types.
- Storage failures of any kind.
- `Views.Store.Ingest`: a JSON-null `gtw_uid` or `timestamp` is treated as missing: the model answers 400 and writes and delivers nothing. In the code, a null uid looks up the gateways whose `gtw_uid` is NULL (404 when there is none; gateways with a NULL `gtw_uid` are not modelled, since `Gateway.uid` is a string). A null timestamp with a non-empty `mirth` or `CheckStatus` map fails at the insert and answers 500. With both maps empty or absent, `bulk_create([])` issues no query, so the code refreshes `last_date_call` (views.py:81-82), drains and marks the pending actions (85-93) and answers 201 (95-100); the model does not capture that case.
- Cascading deletes of gateways and users: the core has no delete operation.
- Primary keys of metric rows, and the default orderings of `MirthMetrics` and `CheckStatusMetrics` (models.py:27 and 48): no modelled read uses them.
- Sub-millisecond time precision. The order of rows with equal timestamps, which the database leaves unspecified: the model fixes it by a stable sort.
- `query_time_sec` is passed through as a real. A CheckStatus description given as JSON null is treated as missing and stored as ""; the code stores NULL.
- DRF's surrogate-character check: Dafny characters are Unicode scalar values, so no surrogates can occur. Non-string input to a `CharField`, and a request body that is not an object, are also not modelled.
- The read-only markers of `GatewayPendingActionSerializer`: the serializer is only used for output here.
- The frontend's other pages, its HTTP client and its formatting; `GatewaysPage.StatusChip` models the chip only. Floating-point rounding in the chip's minute division is not modelled: the division is exact.
- `Queries.GroupingExample` shows the grouping dict. The top-five ordering of that example follows from `Queries.TopBatchesFacts` and is not computed separately.
