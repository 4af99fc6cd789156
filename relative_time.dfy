/** Relative timestamps: `formatTime` of the comment view and `formatDate` of the
    article comment section. Both take the difference `now - then` in whole
    milliseconds, floor it to minutes, hours and days, and try the buckets in order. */
module RelativeTime {
  import opened Wrappers
  import opened Text

  const MinuteMs: int := 60000
  const HourMs: int := 3600000
  const DayMs: int := 86400000

  /** How old a timestamp is, as the two formatters classify it. */
  datatype Age =
    | JustNow
    | MinutesAgo(minutes: nat)
    | HoursAgo(hours: nat)
    | DaysAgo(days: nat)
    | OverAWeek            // rendered by `toLocaleDateString`, which is not modelled

  /** The bucket of a difference of `diff` milliseconds, which may be negative when the
      timestamp lies in the future. `Math.floor(diff / k)` for a positive `k` is
      Euclidean division. */
  function Classify(diff: int): (age: Age)
    ensures age.JustNow? <==> diff < MinuteMs
    ensures age.MinutesAgo? <==> MinuteMs <= diff < HourMs
    ensures age.HoursAgo? <==> HourMs <= diff < DayMs
    ensures age.DaysAgo? <==> DayMs <= diff < 7 * DayMs
    ensures age.OverAWeek? <==> 7 * DayMs <= diff
    ensures age.MinutesAgo? ==>
              1 <= age.minutes <= 59 && age.minutes * MinuteMs <= diff < (age.minutes + 1) * MinuteMs
    ensures age.HoursAgo? ==>
              1 <= age.hours <= 23 && age.hours * HourMs <= diff < (age.hours + 1) * HourMs
    ensures age.DaysAgo? ==>
              1 <= age.days <= 6 && age.days * DayMs <= diff < (age.days + 1) * DayMs
  {
    var minutes := diff / MinuteMs;
    var hours := diff / HourMs;
    var days := diff / DayMs;
    FloorDivBounds(diff, MinuteMs);
    FloorDivBounds(diff, HourMs);
    FloorDivBounds(diff, DayMs);
    if minutes < 1 then JustNow
    else if minutes < 60 then MinutesAgo(minutes)
    else if hours < 24 then HoursAgo(hours)
    else if days < 7 then DaysAgo(days)
    else OverAWeek
  }

  /** `q = floor(x / k)` is the one integer with `q * k <= x < (q + 1) * k`. */
  lemma FloorDivBounds(x: int, k: int)
    requires k > 0
    ensures (x / k) * k <= x < (x / k + 1) * k
  {
  }

  /** The text shown for an age; `localeDate` stands for `toLocaleDateString()`. */
  function Render(age: Age, localeDate: string): (text: string)
  {
    match age
    case JustNow => "Just now"
    case MinutesAgo(m) => Decimal(m) + "m ago"
    case HoursAgo(h) => Decimal(h) + "h ago"
    case DaysAgo(d) => Decimal(d) + "d ago"
    case OverAWeek => localeDate
  }

  /** `formatTime(timestamp)` and `formatDate(dateString)` at clock value `now`. */
  function Format(now: int, stamp: int, localeDate: string): (text: string)
    ensures now - stamp < MinuteMs ==> text == "Just now"
    ensures 7 * DayMs <= now - stamp ==> text == localeDate
  {
    Render(Classify(now - stamp), localeDate)
  }

  /** Reading a relative text back; the locale date is not a relative text. */
  function Parse(text: string): (age: Option<Age>)
  {
    if text == "Just now" then Some(JustNow)
    else if |text| >= 6 && text[|text| - 5..] == "m ago" then Some(MinutesAgo(ParseDecimal(text[..|text| - 5])))
    else if |text| >= 6 && text[|text| - 5..] == "h ago" then Some(HoursAgo(ParseDecimal(text[..|text| - 5])))
    else if |text| >= 6 && text[|text| - 5..] == "d ago" then Some(DaysAgo(ParseDecimal(text[..|text| - 5])))
    else None
  }

  /** Every text below a week reads back as the bucket it was rendered from, so the
      buckets and their counts are all told apart by what the user sees. */
  lemma {:induction false} FormatParses(now: int, stamp: int, localeDate: string)
    requires now - stamp < 7 * DayMs
    ensures Parse(Format(now, stamp, localeDate)) == Some(Classify(now - stamp))
  {
    var age := Classify(now - stamp);
    var text := Format(now, stamp, localeDate);
    match age
    case JustNow =>
    case MinutesAgo(m) =>
      DecimalRoundTrip(m);
      assert text[..|text| - 5] == Decimal(m);
      assert text[|text| - 5..] == "m ago";
    case HoursAgo(h) =>
      DecimalRoundTrip(h);
      assert text[..|text| - 5] == Decimal(h);
      assert text[|text| - 5..] == "h ago";
    case DaysAgo(d) =>
      DecimalRoundTrip(d);
      assert text[..|text| - 5] == Decimal(d);
      assert text[|text| - 5..] == "d ago";
  }

  /** An older timestamp never lands in a younger bucket. */
  lemma ClassifyMonotone(d1: int, d2: int)
    requires d1 <= d2
    ensures Rank(Classify(d1)) <= Rank(Classify(d2))
  {
  }

  /** The order in which the buckets are tried. */
  function Rank(age: Age): nat
  {
    match age
    case JustNow => 0
    case MinutesAgo(_) => 1
    case HoursAgo(_) => 2
    case DaysAgo(_) => 3
    case OverAWeek => 4
  }
}
