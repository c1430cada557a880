/**
 * The timing rules of the monitoring engine: cadence to interval, the grace
 * window, the overdue test of the sweep, the severity grade of an alert, the
 * human-readable overdue text, the check-in status shown to the subject, the
 * alive/missed status shown to watchers, and the streak rule. All times are
 * integral milliseconds.
 */
module Liveness {
  import opened Wrappers
  import Decimal

  const SecondMs := 1000
  const MinuteMs := 60 * SecondMs
  const HourMs := 60 * MinuteMs
  const DayMs := 24 * HourMs

  /** The check-in frequency with its default applied: a missing or zero frequency means 1 day. */
  function EffectiveDays(frequency: int): (days: int)
    ensures days != 0
    ensures frequency == 0 ==> days == 1
    ensures frequency != 0 ==> days == frequency
  {
    if frequency == 0 then 1 else frequency
  }

  /** getCheckInIntervalMs: a whole number of days, never zero. */
  function IntervalMs(frequency: int): (ms: int)
    ensures ms % DayMs == 0 && ms / DayMs == EffectiveDays(frequency)
    ensures ms > 0 <==> frequency >= 0
  {
    EffectiveDays(frequency) * DayMs
  }

  lemma IntervalOfValidCadence(frequency: int)
    requires 1 <= frequency <= 30
    ensures DayMs <= IntervalMs(frequency) <= 30 * DayMs
    ensures IntervalMs(frequency) == frequency * 86_400_000
  {
  }

  /** The grace window: twice the interval. */
  function GraceMs(frequency: int): int {
    2 * IntervalMs(frequency)
  }

  datatype Liveness = OnTime | Overdue(overdueMs: int)

  /**
   * The sweep's test (server.js:431-438): overdue exactly when the time since
   * the last check-in exceeds the grace window, and then by how much.
   */
  function Evaluate(now: int, lastCheckIn: int, frequency: int): (r: Liveness)
    ensures r.Overdue? <==> now - lastCheckIn > GraceMs(frequency)
    ensures r.Overdue? ==> r.overdueMs > 0 && lastCheckIn + GraceMs(frequency) + r.overdueMs == now
  {
    var elapsed := now - lastCheckIn;
    var grace := GraceMs(frequency);
    if elapsed > grace then Overdue(elapsed - grace) else OnTime
  }

  /** The boundary is inclusive: exactly the grace window elapsed is still on time. */
  lemma GraceBoundaryOnTime(lastCheckIn: int, frequency: int)
    ensures Evaluate(lastCheckIn + GraceMs(frequency), lastCheckIn, frequency) == OnTime
    ensures Evaluate(lastCheckIn + GraceMs(frequency) + 1, lastCheckIn, frequency) == Overdue(1)
  {
  }

  /** The three alert grades of getSeverityEmoji. */
  datatype Severity = Standard | Elevated | Critical {
    function Emoji(): string {
      match this
      case Critical => "\U{1F6A8}"
      case Elevated => "\U{26A0}\U{FE0F}"
      case Standard => "\U{23F0}"
    }
  }

  /**
   * Graded on whole hours overdue: more than 48 is critical, more than 24
   * elevated, anything else standard. In milliseconds: from 49 hours on,
   * from 25 hours on, and below 25 hours.
   */
  function SeverityOf(overdueMs: int): (s: Severity)
    ensures s == Critical <==> overdueMs >= 49 * HourMs
    ensures s == Elevated <==> 25 * HourMs <= overdueMs < 49 * HourMs
    ensures s == Standard <==> overdueMs < 25 * HourMs
  {
    var hours := overdueMs / HourMs;
    if hours > 48 then Critical else if hours > 24 then Elevated else Standard
  }

  /**
   * Severity is graded on the overdue amount, not on the time since the last
   * check-in: with a one-day cadence, a subject last seen three days ago is
   * one day overdue, which is the standard grade.
   */
  lemma ThreeDaysSilentIsStandard(now: int)
    ensures Evaluate(now, now - 3 * DayMs, 1) == Overdue(DayMs)
    ensures SeverityOf(DayMs) == Standard
  {
  }

  datatype TimeUnit = Days | Hours | Minutes | Seconds {
    function Ms(): int {
      match this
      case Days => DayMs
      case Hours => HourMs
      case Minutes => MinuteMs
      case Seconds => SecondMs
    }
    function Word(): string {
      match this
      case Days => "day"
      case Hours => "hour"
      case Minutes => "minute"
      case Seconds => "second"
    }
  }

  datatype Span = Span(amount: int, unit: TimeUnit)

  /**
   * The unit formatTimeDifference picks: the largest of day, hour, minute
   * whose floored count is positive, else seconds; the amount is that count.
   */
  function TimeSpan(ms: int): (s: Span)
    ensures s.unit == Days <==> ms >= DayMs
    ensures s.unit == Hours <==> HourMs <= ms < DayMs
    ensures s.unit == Minutes <==> MinuteMs <= ms < HourMs
    ensures s.unit == Seconds <==> ms < MinuteMs
    ensures s.amount == ms / s.unit.Ms()
  {
    var seconds := ms / 1000;
    var minutes := seconds / 60;
    var hours := minutes / 60;
    var days := hours / 24;
    if days > 0 then Span(days, Days)
    else if hours > 0 then Span(hours, Hours)
    else if minutes > 0 then Span(minutes, Minutes)
    else Span(seconds, Seconds)
  }

  /**
   * formatTimeDifference (server.js:131-141): the amount of the largest
   * fitting unit in decimal, a space, and the unit's word, plural unless the
   * amount is exactly one.
   */
  function FormatTimeDifference(ms: int): (text: string)
    ensures var n := |Decimal.IntText(TimeSpan(ms).amount)|;
      && n < |text| && text[..n] == Decimal.IntText(TimeSpan(ms).amount) && text[n] == ' '
      && (text[|text| - 1] == 's' <==> TimeSpan(ms).amount != 1)
      && text[n + 1..] == TimeSpan(ms).unit.Word() + (if TimeSpan(ms).amount != 1 then "s" else "")
  {
    var s := TimeSpan(ms);
    Decimal.IntText(s.amount) + " " + s.unit.Word() + (if s.amount != 1 then "s" else "")
  }

  /**
   * The text reads back: up to the first space it is the decimal amount of
   * the chosen unit, which is the floored quotient of the elapsed time.
   */
  lemma FormatTimeDifferenceReadsBack(ms: int)
    ensures var text := FormatTimeDifference(ms);
      exists n | 0 < n < |text| :: text[n] == ' ' && Decimal.IsIntText(text[..n])
        && Decimal.ParseInt(text[..n]) == ms / TimeSpan(ms).unit.Ms()
  {
    var text := FormatTimeDifference(ms);
    var amount := TimeSpan(ms).amount;
    var n := |Decimal.IntText(amount)|;
    Decimal.IntTextRoundTrip(amount);
    assert text[..n] == Decimal.IntText(amount);
  }

  /** One day overdue reads "1 day"; three days, "3 days"; ninety minutes, "1 hour". */
  lemma FormatTimeDifferenceExamples()
    ensures FormatTimeDifference(DayMs) == "1 day"
    ensures FormatTimeDifference(3 * DayMs) == "3 days"
    ensures FormatTimeDifference(90 * MinuteMs) == "1 hour"
  {
  }

  datatype CheckInStatus = CheckInStatus(canCheckIn: bool, timeRemaining: int)

  /**
   * The check-in status rule (server.js:834-844): a new check-in is offered
   * once a full interval has passed (or there was none), otherwise the
   * remaining time is how long until the interval is up.
   */
  function StatusAt(lastCheckIn: Option<int>, frequency: int, now: int): (st: CheckInStatus)
    ensures st.canCheckIn <==> lastCheckIn.None? || now - lastCheckIn.value >= IntervalMs(frequency)
    ensures st.canCheckIn ==> st.timeRemaining == 0
    ensures !st.canCheckIn ==> st.timeRemaining > 0 && now + st.timeRemaining == lastCheckIn.value + IntervalMs(frequency)
  {
    match lastCheckIn
    case None => CheckInStatus(true, 0)
    case Some(last) =>
      var elapsed := now - last;
      var interval := IntervalMs(frequency);
      if elapsed < interval then CheckInStatus(false, interval - elapsed) else CheckInStatus(true, 0)
  }

  datatype WatchStatus = Alive | Missed

  /**
   * The watch-list status rule (server.js:1117-1130): missed when there is no
   * check-in at all or more than one interval has passed. This compares with
   * the interval, not with the grace window of the sweep.
   */
  function WatchStatusAt(lastCheckIn: Option<int>, frequency: int, now: int): (s: WatchStatus)
    ensures s == Missed <==> lastCheckIn.None? || now - lastCheckIn.value > IntervalMs(frequency)
  {
    match lastCheckIn
    case None => Missed
    case Some(last) => if now - last > IntervalMs(frequency) then Missed else Alive
  }

  /**
   * Watchers see "missed" no later than the sweep alerts: an overdue subject
   * is always shown missed, but for a whole interval before the alert a
   * subject is shown missed while still on time for the sweep.
   */
  lemma WatchListFlagsBeforeSweep(lastCheckIn: int, frequency: int, now: int)
    requires frequency >= 0
    ensures Evaluate(now, lastCheckIn, frequency).Overdue? ==> WatchStatusAt(Some(lastCheckIn), frequency, now) == Missed
    ensures now - lastCheckIn == IntervalMs(frequency) + 1 ==>
      WatchStatusAt(Some(lastCheckIn), frequency, now) == Missed && Evaluate(now, lastCheckIn, frequency) == OnTime
  {
  }

  /**
   * The streak rule of the check-in route (server.js:763-775): a first
   * check-in starts at 1; one landing within twice the interval extends the
   * streak; a later one restarts it at 1.
   */
  function NextStreak(lastCheckIn: Option<int>, streak: nat, frequency: int, now: int): nat {
    match lastCheckIn
    case None => 1
    case Some(last) => if now - last <= 2 * IntervalMs(frequency) then streak + 1 else 1
  }

  /**
   * The streak uses the same threshold as the sweep: it grows exactly when
   * the check-in comes before the subject would be overdue, and restarts at
   * 1 when the subject was already overdue.
   */
  lemma StreakFollowsLiveness(last: int, streak: nat, frequency: int, now: int)
    ensures Evaluate(now, last, frequency) == OnTime ==> NextStreak(Some(last), streak, frequency, now) == streak + 1
    ensures Evaluate(now, last, frequency).Overdue? ==> NextStreak(Some(last), streak, frequency, now) == 1
    ensures NextStreak(None, streak, frequency, now) == 1
  {
  }
}
