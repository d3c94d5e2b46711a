/**
 * The "time ago" label of the administrator dashboard's activity feed.
 * Timestamps are milliseconds since the epoch; the current time is a
 * parameter.
 */
module AdminDashboard {
  import opened Common

  const MS_PER_MINUTE := 60000
  const MINUTES_PER_HOUR := 60
  const MINUTES_PER_DAY := 1440

  /** Whole minutes elapsed, rounded down (a future timestamp gives a negative count). */
  function DiffInMinutes(nowMs: int, timeMs: int): (m: int)
    ensures m * MS_PER_MINUTE <= nowMs - timeMs < (m + 1) * MS_PER_MINUTE
  {
    (nowMs - timeMs) / MS_PER_MINUTE
  }

  /** The four kinds of label. */
  datatype TimeAgo = Now | MinutesAgo(minutes: int) | HoursAgo(hours: int) | DaysAgo(days: int)

  /** The bucket an elapsed minute count falls in. */
  function Bucket(m: int): (t: TimeAgo)
    ensures t.Now? <==> m < 1
    ensures t.MinutesAgo? <==> 1 <= m < MINUTES_PER_HOUR
    ensures t.HoursAgo? <==> MINUTES_PER_HOUR <= m < MINUTES_PER_DAY
    ensures t.DaysAgo? <==> MINUTES_PER_DAY <= m
    ensures t.MinutesAgo? ==> t.minutes == m
    ensures t.HoursAgo? ==> 1 <= t.hours <= 23 &&
                            t.hours * MINUTES_PER_HOUR <= m < (t.hours + 1) * MINUTES_PER_HOUR
    ensures t.DaysAgo? ==> t.days >= 1 &&
                           t.days * MINUTES_PER_DAY <= m < (t.days + 1) * MINUTES_PER_DAY
  {
    if m < 1 then Now
    else if m < MINUTES_PER_HOUR then MinutesAgo(m)
    else if m < MINUTES_PER_DAY then HoursAgo(m / MINUTES_PER_HOUR)
    else DaysAgo(m / MINUTES_PER_DAY)
  }

  /** Later moments never land in an earlier bucket: the buckets are ordered like the elapsed time. */
  function Rank(t: TimeAgo): nat
  {
    match t
    case Now => 0
    case MinutesAgo(_) => 1
    case HoursAgo(_) => 2
    case DaysAgo(_) => 3
  }

  lemma BucketMonotone(a: int, b: int)
    requires a <= b
    ensures Rank(Bucket(a)) <= Rank(Bucket(b))
    ensures Bucket(a).HoursAgo? && Bucket(b).HoursAgo? ==> Bucket(a).hours <= Bucket(b).hours
    ensures Bucket(a).DaysAgo? && Bucket(b).DaysAgo? ==> Bucket(a).days <= Bucket(b).days
  {
  }

  /** The text of a label. */
  function Label(t: TimeAgo): string
  {
    match t
    case Now => "Agora"
    case MinutesAgo(n) => IntToString(n) + " min atrás"
    case HoursAgo(n) => IntToString(n) + " h atrás"
    case DaysAgo(n) => IntToString(n) + " dias atrás"
  }

  /** `formatTimeAgo`. */
  function FormatTimeAgo(nowMs: int, timeMs: int): (s: string)
    ensures nowMs - timeMs < MS_PER_MINUTE ==> s == "Agora"
    ensures nowMs - timeMs >= MS_PER_MINUTE ==> s != "Agora"
  {
    var t := Bucket(DiffInMinutes(nowMs, timeMs));
    if t.Now? then "Agora"
    else
      LabelNotNow(t);
      Label(t)
  }

  /** Only the first bucket reads "Agora": the others start with the digit of a positive number. */
  lemma LabelNotNow(t: TimeAgo)
    requires !t.Now?
    requires t.MinutesAgo? ==> t.minutes >= 1
    requires t.HoursAgo? ==> t.hours >= 1
    requires t.DaysAgo? ==> t.days >= 1
    ensures Label(t) != "Agora"
  {
    var n := match t case MinutesAgo(n) => n case HoursAgo(n) => n case DaysAgo(n) => n case Now => 0;
    assert Label(t)[0] == IntToString(n)[0];
  }
}
