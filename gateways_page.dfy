/** The connection-status chip of the gateways page
    (frontend/src/pages/GatewaysPage.jsx, `getStatusChip`), and how it
    relates to the dashboard's notion of an active gateway. */
module GatewaysPage {
  import opened Models
  import opened Queries

  /** The `last_date_call` value the page receives: falsy (null or empty),
      a string `new Date` cannot parse (its time is NaN), or an instant. */
  datatype LastCall = Never | Unparseable | At(ms: Time)

  /** `{ label, color }` (`label` is a Dafny keyword). */
  datatype Chip = Chip(caption: string, color: string)

  const NEVER_CHIP: Chip := Chip("Mai", "grey.500")
  const ONLINE_CHIP: Chip := Chip("Online", "success.main")
  const IDLE_CHIP: Chip := Chip("Inattivo", "warning.main")
  const OFFLINE_CHIP: Chip := Chip("Offline", "error.main")

  /** Minutes elapsed, as the page's floating-point division computes them
      (exactly, here). */
  function MinutesSince(t: Time, now: Time): real
  {
    (now - t) as real / 60000.0
  }

  /** `getStatusChip`. An unparseable date makes both comparisons false, so
      it falls through to Offline. */
  function StatusChip(lastCall: LastCall, now: Time): (c: Chip)
    ensures lastCall.Never? <==> c == NEVER_CHIP
    ensures lastCall.Unparseable? ==> c == OFFLINE_CHIP
    ensures lastCall.At? ==>
      (c == ONLINE_CHIP <==> now - lastCall.ms <= 15 * MINUTE) &&
      (c == IDLE_CHIP <==> 15 * MINUTE < now - lastCall.ms <= 60 * MINUTE) &&
      (c == OFFLINE_CHIP <==> now - lastCall.ms > 60 * MINUTE)
  {
    match lastCall
    case Never => NEVER_CHIP
    case Unparseable => OFFLINE_CHIP
    case At(t) =>
      var diffMinutes := MinutesSince(t, now);
      if diffMinutes <= 15.0 then ONLINE_CHIP
      else if diffMinutes <= 60.0 then IDLE_CHIP
      else OFFLINE_CHIP
  }

  /** How stale a chip says the gateway is: Online, Inattivo, Offline. */
  function Staleness(c: Chip): int
  {
    if c == ONLINE_CHIP then 0 else if c == IDLE_CHIP then 1 else 2
  }

  /** An older last call never shows a fresher chip. */
  lemma StatusChipMonotone(t1: Time, t2: Time, now: Time)
    requires t1 <= t2
    ensures Staleness(StatusChip(At(t2), now)) <= Staleness(StatusChip(At(t1), now))
  {
  }

  /** The chip only moves towards Offline as time passes. */
  lemma StatusChipAges(t: Time, now1: Time, now2: Time)
    requires now1 <= now2
    ensures Staleness(StatusChip(At(t), now1)) <= Staleness(StatusChip(At(t), now2))
  {
  }

  /** A last call at or after `now` (clock skew) shows Online. */
  lemma FutureCallIsOnline(t: Time, now: Time)
    requires now <= t
    ensures StatusChip(At(t), now) == ONLINE_CHIP
  {
  }

  /** What the page receives for a gateway row. */
  function FromGatewayField(lastDateCall: Option<Time>): (l: LastCall)
    ensures l.Never? <==> lastDateCall.None?
  {
    match lastDateCall
    case None => Never
    case Some(t) => At(t)
  }

  /** The Online chip and the dashboard's active-gateway KPI agree: both use
      the same 15-minute window, inclusive at its edge. */
  lemma OnlineMatchesActive(g: Gateway, now: Time)
    ensures StatusChip(FromGatewayField(g.lastDateCall), now) == ONLINE_CHIP <==> IsActive(g, now)
  {
  }
}
