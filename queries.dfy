/** The read-only side of backend/portal_app/views.py: the dashboard KPIs,
    the per-batch error grouping with its top five, and the per-channel
    metrics history. Each is a function of the tables and of `now`. */
module Queries {
  import opened Seqs
  import opened Models
  import opened Serializers

  // ---- Dashboard KPIs ----

  /** A gateway counts as active when it called within the last 15 minutes,
      boundary included. */
  const ACTIVE_WINDOW: Time := 15 * MINUTE

  predicate IsActive(g: Gateway, now: Time)
  {
    g.lastDateCall.Some? && g.lastDateCall.value >= now - ACTIVE_WINDOW
  }

  function ActiveAt(now: Time): Gateway -> bool
  {
    g => IsActive(g, now)
  }

  /** `Gateways.objects.filter(last_date_call__gte=now - 15min).count()` */
  function ActiveGateways(gs: seq<Gateway>, now: Time): nat
  {
    |Filter(gs, ActiveAt(now))|
  }

  /** The active count is a count: zero on no gateways, and one more exactly
      when the added gateway is active; so it never exceeds the total. */
  lemma ActiveGatewaysCounts(gs: seq<Gateway>, g: Gateway, now: Time)
    ensures ActiveGateways([], now) == 0
    ensures ActiveGateways(gs + [g], now) == ActiveGateways(gs, now) + (if IsActive(g, now) then 1 else 0)
    ensures ActiveGateways(gs, now) <= |gs|
  {
    FilterCountSnoc(gs, g, ActiveAt(now));
  }

  /** Both sides of the 15-minute boundary, and a gateway that never called. */
  lemma ActiveBoundary(g: Gateway, now: Time)
    ensures g.lastDateCall == Some(now - ACTIVE_WINDOW) ==> IsActive(g, now)
    ensures g.lastDateCall == Some(now - ACTIVE_WINDOW - 1) ==> !IsActive(g, now)
    ensures g.lastDateCall.None? ==> !IsActive(g, now)
  {
  }

  /** `level__in=['ERROR', 'WARNING']` and `datetime__gte=now - 24h`. */
  predicate IsRecentIssue(e: LogEvent, now: Time)
  {
    (e.level == Some("ERROR") || e.level == Some("WARNING")) &&
    e.datetime.Some? && e.datetime.value >= now - DAY
  }

  function RecentIssueAt(now: Time): LogEvent -> bool
  {
    e => IsRecentIssue(e, now)
  }

  function ErrorsLast24h(es: seq<LogEvent>, now: Time): nat
  {
    |Filter(es, RecentIssueAt(now))|
  }

  lemma ErrorsLast24hCounts(es: seq<LogEvent>, e: LogEvent, now: Time)
    ensures ErrorsLast24h([], now) == 0
    ensures ErrorsLast24h(es + [e], now) == ErrorsLast24h(es, now) + (if IsRecentIssue(e, now) then 1 else 0)
    ensures ErrorsLast24h(es, now) <= |es|
  {
    FilterCountSnoc(es, e, RecentIssueAt(now));
  }

  predicate ToUpdate(c: Channel) { c.toUpdate == 1 }
  predicate ToDelete(c: Channel) { c.toDelete == Some(1) }

  lemma ChannelFlagCounts(cs: seq<Channel>, c: Channel)
    ensures |Filter(cs + [c], ToUpdate)| == |Filter(cs, ToUpdate)| + (if c.toUpdate == 1 then 1 else 0)
    ensures |Filter(cs + [c], ToDelete)| == |Filter(cs, ToDelete)| + (if c.toDelete == Some(1) then 1 else 0)
  {
    FilterCountSnoc(cs, c, ToUpdate);
    FilterCountSnoc(cs, c, ToDelete);
  }

  datatype Kpi = Kpi(
    activeGateways: nat,
    totalGateways: nat,
    channelsToUpdate: nat,
    channelsToDelete: nat,
    errorsLast24h: nat)

  function Kpis(gs: seq<Gateway>, cs: seq<Channel>, es: seq<LogEvent>, now: Time): (k: Kpi)
    ensures k.activeGateways <= k.totalGateways == |gs|
    ensures k.channelsToUpdate <= |cs| && k.channelsToDelete <= |cs|
    ensures k.errorsLast24h <= |es|
  {
    Kpi(ActiveGateways(gs, now), |gs|, |Filter(cs, ToUpdate)|, |Filter(cs, ToDelete)|, ErrorsLast24h(es, now))
  }

  // ---- Errors per batch ----

  /** `datetime__gte=now - 24h, level='ERROR'` */
  predicate IsRecentError(e: LogEvent, now: Time)
  {
    e.level == Some("ERROR") && e.datetime.Some? && e.datetime.value >= now - DAY
  }

  function RecentErrorAt(now: Time): LogEvent -> bool
  {
    e => IsRecentError(e, now)
  }

  /** The rows the grouping loop scans, in the model's default order. */
  function RecentErrors(es: seq<LogEvent>, now: Time): seq<LogEvent>
  {
    LogsNewestFirst(Filter(es, RecentErrorAt(now)))
  }

  function Descriptions(es: seq<LogEvent>): (ds: seq<Option<string>>)
    ensures |ds| == |es|
    ensures forall k :: 0 <= k < |es| ==> ds[k] == es[k].description
  {
    seq(|es|, k requires 0 <= k < |es| => es[k].description)
  }

  /** The scan covers exactly the recent ERROR events, newest first: no
      WARNING, nothing older than 24 hours, nothing without a time. */
  lemma RecentErrorsSelection(es: seq<LogEvent>, now: Time)
    ensures multiset(RecentErrors(es, now)) == multiset(Filter(es, RecentErrorAt(now)))
    ensures forall k :: 0 <= k < |RecentErrors(es, now)| ==>
      RecentErrors(es, now)[k] in es && IsRecentError(RecentErrors(es, now)[k], now)
    ensures forall i, j :: 0 <= i < j < |RecentErrors(es, now)| ==>
      RecentErrors(es, now)[i].datetime.value >= RecentErrors(es, now)[j].datetime.value
  {
    var f := Filter(es, RecentErrorAt(now));
    var r := RecentErrors(es, now);
    SortDescFacts(f, LogTimeKey);
    forall k | 0 <= k < |r| ensures r[k] in es && IsRecentError(r[k], now) {
      assert r[k] in multiset(f);
    }
  }

  /** One entry of the `batch_counts` dict. */
  datatype BatchCount = BatchCount(name: string, count: nat)

  function Names(cs: seq<BatchCount>): (ns: seq<string>)
    ensures |ns| == |cs|
    ensures forall k :: 0 <= k < |cs| ==> ns[k] == cs[k].name
  {
    if cs == [] then [] else [cs[0].name] + Names(cs[1..])
  }

  /** `batch_counts.get(name, 0)` */
  function CountOf(cs: seq<BatchCount>, name: string): nat
  {
    if cs == [] then 0 else if cs[0].name == name then cs[0].count else CountOf(cs[1..], name)
  }

  function Total(cs: seq<BatchCount>): nat
  {
    if cs == [] then 0 else cs[0].count + Total(cs[1..])
  }

  predicate Distinct(ns: seq<string>)
  {
    forall i, j :: 0 <= i < j < |ns| ==> ns[i] != ns[j]
  }

  /** `batch_counts[name] = batch_counts.get(name, 0) + 1`: an existing key
      keeps its place, a new key goes last. */
  function Bump(cs: seq<BatchCount>, name: string): seq<BatchCount>
  {
    if cs == [] then [BatchCount(name, 1)]
    else if cs[0].name == name then [cs[0].(count := cs[0].count + 1)] + cs[1..]
    else [cs[0]] + Bump(cs[1..], name)
  }

  /** One turn of the loop: skip a null or empty description, else count it
      under its batch name. */
  function Tally(cs: seq<BatchCount>, desc: Option<string>): seq<BatchCount>
  {
    match BatchName(desc)
    case None => cs
    case Some(name) => Bump(cs, name)
  }

  /** The dict after the loop has seen `ds`, in insertion order. */
  function BatchCounts(ds: seq<Option<string>>): seq<BatchCount>
    decreases |ds|
  {
    if ds == [] then [] else Tally(BatchCounts(ds[..|ds| - 1]), ds[|ds| - 1])
  }

  /** The batch name of one description, as a list of zero or one names. */
  function NameOf(d: Option<string>): (ns: seq<string>)
    ensures |ns| == if HasDescription(d) then 1 else 0
  {
    match BatchName(d)
    case Some(n) => [n]
    case None => []
  }

  /** Reference definition: the batch names of the described events, one per
      event, in scan order. */
  function Included(ds: seq<Option<string>>): seq<string>
  {
    if ds == [] then [] else NameOf(ds[0]) + Included(ds[1..])
  }

  predicate HasDescription(d: Option<string>) { d.Some? && d.value != "" }

  lemma {:induction false} IncludedSnoc(ds: seq<Option<string>>, x: Option<string>)
    ensures Included(ds + [x]) == Included(ds) + NameOf(x)
  {
    if ds == [] {
      assert ds + [x] == [x];
    } else {
      assert (ds + [x])[1..] == ds[1..] + [x];
      IncludedSnoc(ds[1..], x);
    }
  }

  /** The reference list has one name per event with a non-empty description. */
  lemma {:induction false} IncludedLength(ds: seq<Option<string>>)
    ensures |Included(ds)| == |Filter(ds, HasDescription)|
  {
    if ds != [] {
      IncludedLength(ds[1..]);
    }
  }

  lemma {:induction false} BumpNames(cs: seq<BatchCount>, name: string)
    ensures Names(Bump(cs, name)) == if name in Names(cs) then Names(cs) else Names(cs) + [name]
  {
    if cs == [] {
    } else if cs[0].name == name {
      assert Names(Bump(cs, name)) == [name] + Names(cs[1..]);
      assert ([cs[0].(count := cs[0].count + 1)] + cs[1..])[1..] == cs[1..];
    } else {
      BumpNames(cs[1..], name);
      var t := Bump(cs[1..], name);
      assert ([cs[0]] + t)[1..] == t;
      assert Names(Bump(cs, name)) == [cs[0].name] + Names(t);
      assert name in Names(cs) <==> name in Names(cs[1..]);
    }
  }

  lemma {:induction false} BumpCountOf(cs: seq<BatchCount>, name: string)
    ensures forall n :: CountOf(Bump(cs, name), n) == CountOf(cs, n) + (if n == name then 1 else 0)
  {
    if cs == [] {
    } else if cs[0].name == name {
      assert ([cs[0].(count := cs[0].count + 1)] + cs[1..])[1..] == cs[1..];
    } else {
      BumpCountOf(cs[1..], name);
      assert ([cs[0]] + Bump(cs[1..], name))[1..] == Bump(cs[1..], name);
    }
  }

  lemma {:induction false} BumpTotal(cs: seq<BatchCount>, name: string)
    ensures Total(Bump(cs, name)) == Total(cs) + 1
    ensures (forall k :: 0 <= k < |cs| ==> cs[k].count > 0) ==>
      forall k :: 0 <= k < |Bump(cs, name)| ==> Bump(cs, name)[k].count > 0
  {
    if cs == [] {
    } else if cs[0].name == name {
      assert ([cs[0].(count := cs[0].count + 1)] + cs[1..])[1..] == cs[1..];
    } else {
      BumpTotal(cs[1..], name);
      var t := Bump(cs[1..], name);
      assert ([cs[0]] + t)[1..] == t;
      assert forall k :: 1 <= k < |[cs[0]] + t| ==> ([cs[0]] + t)[k] == t[k - 1];
    }
  }

  /** `batch_counts[name] = batch_counts.get(name, 0) + 1` adds one to that
      name's count and to no other; a new name goes last; the total grows by
      one; counts stay positive. */
  lemma BumpFacts(cs: seq<BatchCount>, name: string)
    ensures Names(Bump(cs, name)) == if name in Names(cs) then Names(cs) else Names(cs) + [name]
    ensures forall n :: CountOf(Bump(cs, name), n) == CountOf(cs, n) + (if n == name then 1 else 0)
    ensures Total(Bump(cs, name)) == Total(cs) + 1
    ensures (forall k :: 0 <= k < |cs| ==> cs[k].count > 0) ==>
      forall k :: 0 <= k < |Bump(cs, name)| ==> Bump(cs, name)[k].count > 0
  {
    BumpNames(cs, name);
    BumpCountOf(cs, name);
    BumpTotal(cs, name);
  }

  lemma {:induction false} BatchCountsDistinct(ds: seq<Option<string>>)
    ensures Distinct(Names(BatchCounts(ds)))
    decreases |ds|
  {
    if ds != [] {
      var front, x := ds[..|ds| - 1], ds[|ds| - 1];
      BatchCountsDistinct(front);
      var cs := BatchCounts(front);
      match BatchName(x)
      case None =>
      case Some(name) =>
        BumpFacts(cs, name);
        if name !in Names(cs) {
          var ns := Names(cs) + [name];
          forall i, j | 0 <= i < j < |ns| ensures ns[i] != ns[j] {
            if j == |Names(cs)| {
              assert ns[i] == Names(cs)[i];
            }
          }
        }
    }
  }

  lemma {:induction false} BatchCountsCountOf(ds: seq<Option<string>>)
    ensures forall n :: CountOf(BatchCounts(ds), n) == multiset(Included(ds))[n]
    decreases |ds|
  {
    if ds != [] {
      var front, x := ds[..|ds| - 1], ds[|ds| - 1];
      assert ds == front + [x];
      BatchCountsCountOf(front);
      IncludedSnoc(front, x);
      match BatchName(x)
      case None =>
      case Some(name) => BumpFacts(BatchCounts(front), name);
    }
  }

  lemma {:induction false} BatchCountsNames(ds: seq<Option<string>>)
    ensures forall n :: n in Names(BatchCounts(ds)) <==> n in Included(ds)
    decreases |ds|
  {
    if ds != [] {
      var front, x := ds[..|ds| - 1], ds[|ds| - 1];
      assert ds == front + [x];
      BatchCountsNames(front);
      IncludedSnoc(front, x);
      match BatchName(x)
      case None =>
      case Some(name) => BumpFacts(BatchCounts(front), name);
    }
  }

  lemma {:induction false} BatchCountsTotal(ds: seq<Option<string>>)
    ensures Total(BatchCounts(ds)) == |Included(ds)|
    ensures forall k :: 0 <= k < |BatchCounts(ds)| ==> BatchCounts(ds)[k].count > 0
    decreases |ds|
  {
    if ds != [] {
      var front, x := ds[..|ds| - 1], ds[|ds| - 1];
      assert ds == front + [x];
      BatchCountsTotal(front);
      IncludedSnoc(front, x);
      match BatchName(x)
      case None =>
      case Some(name) => BumpFacts(BatchCounts(front), name);
    }
  }

  /** What the grouping loop computes: every batch name appears once, with
      the number of events that carry it; together the counts add up to the
      number of events with a non-empty description. */
  lemma BatchCountsFacts(ds: seq<Option<string>>)
    ensures Distinct(Names(BatchCounts(ds)))
    ensures forall n :: CountOf(BatchCounts(ds), n) == multiset(Included(ds))[n]
    ensures forall n :: n in Names(BatchCounts(ds)) <==> n in Included(ds)
    ensures Total(BatchCounts(ds)) == |Included(ds)| == |Filter(ds, HasDescription)|
    ensures forall k :: 0 <= k < |BatchCounts(ds)| ==> BatchCounts(ds)[k].count > 0
  {
    BatchCountsDistinct(ds);
    BatchCountsCountOf(ds);
    BatchCountsNames(ds);
    BatchCountsTotal(ds);
    IncludedLength(ds);
  }

  /** Keys enter the dict in the order their batch is first met: the names
      after any prefix of the scan are a prefix of the final names. */
  lemma {:induction false} BatchCountsFirstSeenOrder(ds: seq<Option<string>>, m: nat)
    requires m <= |ds|
    ensures Names(BatchCounts(ds[..m])) <= Names(BatchCounts(ds))
    decreases |ds|
  {
    if m < |ds| {
      var front := ds[..|ds| - 1];
      assert front[..m] == ds[..m];
      BatchCountsFirstSeenOrder(front, m);
      match BatchName(ds[|ds| - 1])
      case None =>
      case Some(name) => BumpFacts(BatchCounts(front), name);
    } else {
      assert ds[..m] == ds;
    }
  }

  // ---- A worked grouping example ----

  /** One more scanned event is one more turn of the loop. */
  lemma BatchCountsSnoc(ds: seq<Option<string>>, x: Option<string>)
    ensures BatchCounts(ds + [x]) == Tally(BatchCounts(ds), x)
  {
    assert (ds + [x])[..|ds|] == ds;
  }

  /** A description `word - text` is counted under `word`. */
  lemma TallyLabelled(cs: seq<BatchCount>, word: string, text: string)
    requires forall k :: 0 <= k < |word| ==> !IsSpace(word[k])
    ensures Tally(cs, Some(word + " - " + text)) == Bump(cs, word)
  {
    BatchKeyOfWordThenText(word, text);
    assert |word + " - " + text| > 0;
  }

  /** A name not yet in the dict is appended with count one. */
  lemma {:induction false} BumpNew(cs: seq<BatchCount>, name: string)
    requires name !in Names(cs)
    ensures Bump(cs, name) == cs + [BatchCount(name, 1)]
  {
    if cs != [] {
      assert Names(cs) == [cs[0].name] + Names(cs[1..]);
      BumpNew(cs[1..], name);
      assert [cs[0]] + (cs[1..] + [BatchCount(name, 1)]) == cs + [BatchCount(name, 1)];
    }
  }

  /** A word with no whitespace. */
  predicate Word(w: string)
  {
    forall k :: 0 <= k < |w| ==> !IsSpace(w[k])
  }

  lemma ExampleTwoOfA(a: string, t1: string, t2: string)
    requires Word(a)
    ensures BatchCounts([Some(a + " - " + t1), Some(a + " - " + t2)]) == [BatchCount(a, 2)]
  {
    var d1, d2 := Some(a + " - " + t1), Some(a + " - " + t2);
    assert BatchCounts([d1]) == [BatchCount(a, 1)] by {
      BatchCountsSnoc([], d1);
      assert [] + [d1] == [d1];
      TallyLabelled([], a, t1);
    }
    assert BatchCounts([d1, d2]) == Tally([BatchCount(a, 1)], d2) by {
      BatchCountsSnoc([d1], d2);
      assert [d1] + [d2] == [d1, d2];
    }
    TallyLabelled([BatchCount(a, 1)], a, t2);
  }

  lemma ExampleThenB(a: string, b: string, t1: string, t2: string, t3: string)
    requires Word(a) && Word(b) && a != b
    ensures BatchCounts([Some(a + " - " + t1), Some(a + " - " + t2), Some(b + " - " + t3)])
         == [BatchCount(a, 2), BatchCount(b, 1)]
  {
    var d1, d2, d3 := Some(a + " - " + t1), Some(a + " - " + t2), Some(b + " - " + t3);
    var c := [BatchCount(a, 2)];
    assert BatchCounts([d1, d2, d3]) == Tally(c, d3) by {
      ExampleTwoOfA(a, t1, t2);
      BatchCountsSnoc([d1, d2], d3);
      assert [d1, d2] + [d3] == [d1, d2, d3];
    }
    assert Tally(c, d3) == Bump(c, b) by {
      TallyLabelled(c, b, t3);
    }
    assert Bump(c, b) == c + [BatchCount(b, 1)] by {
      assert Names(c) == [a];
      BumpNew(c, b);
    }
  }

  /** Two events of batch `a`, one of batch `b`, then a description without
      a separator (such as "oops"): the latter is counted under its own
      text, it is not excluded. */
  lemma GroupingExample(a: string, b: string, t1: string, t2: string, t3: string, word: string)
    requires Word(a) && Word(b) && a != b
    requires Word(word) && word != [] && word != a && word != b
    ensures BatchCounts([Some(a + " - " + t1), Some(a + " - " + t2), Some(b + " - " + t3), Some(word)])
         == [BatchCount(a, 2), BatchCount(b, 1), BatchCount(word, 1)]
  {
    var d1, d2, d3 := Some(a + " - " + t1), Some(a + " - " + t2), Some(b + " - " + t3);
    var c := [BatchCount(a, 2), BatchCount(b, 1)];
    assert BatchCounts([d1, d2, d3, Some(word)]) == Tally(c, Some(word)) by {
      ExampleThenB(a, b, t1, t2, t3);
      BatchCountsSnoc([d1, d2, d3], Some(word));
      assert [d1, d2, d3] + [Some(word)] == [d1, d2, d3, Some(word)];
    }
    assert Tally(c, Some(word)) == Bump(c, word) by {
      BatchKeyOfWord(word);
    }
    assert Bump(c, word) == c + [BatchCount(word, 1)] by {
      assert Names(c) == [a, b] by {
        assert c[1..] == [BatchCount(b, 1)] && c[1..][1..] == [];
      }
      BumpNew(c, word);
    }
  }

  /** How many entries the dashboard shows. */
  const TOP_BATCHES: nat := 5

  function CountKey(c: BatchCount): int { c.count }

  /** `sorted(batch_counts.items(), key=count, reverse=True)[:5]` */
  function TopBatches(cs: seq<BatchCount>): seq<BatchCount>
  {
    var s := SortDesc(cs, CountKey);
    s[..if |s| < TOP_BATCHES then |s| else TOP_BATCHES]
  }

  lemma TopBatchesOrdered(cs: seq<BatchCount>)
    ensures |TopBatches(cs)| == if |cs| < TOP_BATCHES then |cs| else TOP_BATCHES
    ensures forall i, j :: 0 <= i < j < |TopBatches(cs)| ==> TopBatches(cs)[i].count >= TopBatches(cs)[j].count
    ensures multiset(TopBatches(cs)) <= multiset(cs)
  {
    var s := SortDesc(cs, CountKey);
    SortDescFacts(cs, CountKey);
    var n := if |s| < TOP_BATCHES then |s| else TOP_BATCHES;
    assert s == s[..n] + s[n..];
    assert multiset(s) == multiset(s[..n]) + multiset(s[n..]);
    forall i, j | 0 <= i < j < n ensures s[i].count >= s[j].count {
      assert CountKey(s[i]) >= CountKey(s[j]);
    }
  }

  lemma TopBatchesDominate(cs: seq<BatchCount>)
    ensures forall k :: 0 <= k < |cs| ==>
      cs[k] in TopBatches(cs) || forall i :: 0 <= i < |TopBatches(cs)| ==> TopBatches(cs)[i].count >= cs[k].count
  {
    var s := SortDesc(cs, CountKey);
    SortDescFacts(cs, CountKey);
    var n := if |s| < TOP_BATCHES then |s| else TOP_BATCHES;
    var r := s[..n];
    forall k | 0 <= k < |cs| ensures cs[k] in r || forall i :: 0 <= i < |r| ==> r[i].count >= cs[k].count {
      assert cs[k] in multiset(s);
      var j :| 0 <= j < |s| && s[j] == cs[k];
      if j >= n {
        forall i | 0 <= i < |r| ensures r[i].count >= cs[k].count {
          assert CountKey(s[i]) >= CountKey(s[j]);
        }
      } else {
        assert r[j] == cs[k];
      }
    }
  }

  lemma TopBatchesStable(cs: seq<BatchCount>)
    ensures forall v :: WithKey(TopBatches(cs), CountKey, v) <= WithKey(cs, CountKey, v)
  {
    var s := SortDesc(cs, CountKey);
    SortDescFacts(cs, CountKey);
    var n := if |s| < TOP_BATCHES then |s| else TOP_BATCHES;
    forall v ensures WithKey(s[..n], CountKey, v) <= WithKey(cs, CountKey, v) {
      WithKeyPrefix(s, n, CountKey, v);
      SortDescStable(cs, CountKey, v);
    }
  }

  /** At most five entries, by non-increasing count, taken from the dict; an
      entry left out has a count no larger than any shown; entries with equal
      counts keep the dict's order. */
  lemma TopBatchesFacts(cs: seq<BatchCount>)
    ensures |TopBatches(cs)| == if |cs| < TOP_BATCHES then |cs| else TOP_BATCHES
    ensures forall i, j :: 0 <= i < j < |TopBatches(cs)| ==> TopBatches(cs)[i].count >= TopBatches(cs)[j].count
    ensures multiset(TopBatches(cs)) <= multiset(cs)
    ensures forall k :: 0 <= k < |cs| ==>
      cs[k] in TopBatches(cs) || forall i :: 0 <= i < |TopBatches(cs)| ==> TopBatches(cs)[i].count >= cs[k].count
    ensures forall v :: WithKey(TopBatches(cs), CountKey, v) <= WithKey(cs, CountKey, v)
  {
    TopBatchesOrdered(cs);
    TopBatchesDominate(cs);
    TopBatchesStable(cs);
  }

  /** The dashboard's `top_batch_errors`. */
  function TopBatchErrors(es: seq<LogEvent>, now: Time): seq<BatchCount>
  {
    TopBatches(BatchCounts(Descriptions(RecentErrors(es, now))))
  }

  // ---- Metrics history ----

  datatype HistoryQuery = HistoryQuery(gatewayUid: Option<string>, channelName: Option<string>, range: Option<string>)
  datatype HistoryResponse = HistoryOk(rows: seq<MirthMetric>) | HistoryBadRequest(error: string)

  /** `'7d'` selects seven days; anything else, absent included, 24 hours. */
  function HistoryStart(range: Option<string>, now: Time): Time
  {
    if range == Some("7d") then now - 7 * DAY else now - DAY
  }

  predicate InHistory(m: MirthMetric, uid: string, channel: string, start: Time)
  {
    m.gateway == uid && m.channelName == channel && m.gatewayTimestamp >= start
  }

  function InHistoryOf(uid: string, channel: string, start: Time): MirthMetric -> bool
  {
    m => InHistory(m, uid, channel, start)
  }

  /** `order_by('gateway_timestamp')` as a descending sort on the negated key. */
  function OldestFirstKey(m: MirthMetric): int { -m.gatewayTimestamp }

  /** A query parameter that is present and not empty: Python's `not p` is false. */
  predicate NonEmpty(p: Option<string>) { p.Some? && p.value != "" }

  /** `MirthMetricsHistoryView.get`. */
  function History(ms: seq<MirthMetric>, q: HistoryQuery, now: Time): (r: HistoryResponse)
    ensures r.HistoryBadRequest? <==> !NonEmpty(q.gatewayUid) || !NonEmpty(q.channelName)
  {
    if !NonEmpty(q.gatewayUid) || !NonEmpty(q.channelName) then
      HistoryBadRequest("gateway_uid e channel_name sono richiesti")
    else
      var start := HistoryStart(q.range, now);
      HistoryOk(SortDesc(Filter(ms, InHistoryOf(q.gatewayUid.value, q.channelName.value, start)), OldestFirstKey))
  }

  /** A history is exactly the gateway's rows for that channel within the
      window, oldest first. */
  lemma HistoryRows(ms: seq<MirthMetric>, q: HistoryQuery, now: Time)
    requires NonEmpty(q.gatewayUid) && NonEmpty(q.channelName)
    ensures History(ms, q, now).HistoryOk?
    ensures multiset(History(ms, q, now).rows)
         == multiset(Filter(ms, InHistoryOf(q.gatewayUid.value, q.channelName.value, HistoryStart(q.range, now))))
    ensures forall k :: 0 <= k < |History(ms, q, now).rows| ==>
      History(ms, q, now).rows[k] in ms &&
      InHistory(History(ms, q, now).rows[k], q.gatewayUid.value, q.channelName.value, HistoryStart(q.range, now))
    ensures forall i, j :: 0 <= i < j < |History(ms, q, now).rows| ==>
      History(ms, q, now).rows[i].gatewayTimestamp <= History(ms, q, now).rows[j].gatewayTimestamp
  {
    var f := Filter(ms, InHistoryOf(q.gatewayUid.value, q.channelName.value, HistoryStart(q.range, now)));
    SortDescFacts(f, OldestFirstKey);
    var r := SortDesc(f, OldestFirstKey);
    forall k | 0 <= k < |r| ensures r[k] in ms && InHistory(r[k], q.gatewayUid.value, q.channelName.value, HistoryStart(q.range, now)) {
      assert r[k] in multiset(f);
    }
    forall i, j | 0 <= i < j < |r| ensures r[i].gatewayTimestamp <= r[j].gatewayTimestamp {
      assert OldestFirstKey(r[i]) >= OldestFirstKey(r[j]);
    }
  }

  /** The seven-day history holds every row of the 24-hour one. */
  lemma HistoryWeekCoversDay(ms: seq<MirthMetric>, uid: Option<string>, channel: Option<string>, range: Option<string>, now: Time)
    requires NonEmpty(uid) && NonEmpty(channel)
    ensures multiset(History(ms, HistoryQuery(uid, channel, range), now).rows)
         <= multiset(History(ms, HistoryQuery(uid, channel, Some("7d")), now).rows)
  {
    var day := InHistoryOf(uid.value, channel.value, HistoryStart(range, now));
    var week := InHistoryOf(uid.value, channel.value, HistoryStart(Some("7d"), now));
    FilterWeaker(ms, day, week);
    SortDescFacts(Filter(ms, day), OldestFirstKey);
    SortDescFacts(Filter(ms, week), OldestFirstKey);
  }
}
