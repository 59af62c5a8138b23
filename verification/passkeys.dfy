/** The passkey list: when each passkey was added and last used, and the name it is
    listed under. */
module Passkeys {
  import opened Optional
  import opened Elapsed

  /** A stored date: absent (null or the empty text), not a date, or a time. */
  datatype Stamp = Missing | Invalid | At(ms: int)

  /** What `formatDate` shows; the locale date is kept as a tag. */
  datatype Shown = Never | JustNow | Relative(ago: Ago) | LocaleDate

  /** `formatDate(dateString)` at time `now`. A stamp that is not a date makes every
      difference NaN, so every test fails and the locale date is shown. */
  function FormatDate(stamp: Stamp, now: int): (r: Shown)
    ensures stamp == Missing <==> r == Never
    ensures stamp == Invalid ==> r == LocaleDate
    ensures stamp.At? && now - stamp.ms < Minute ==> r == JustNow
    ensures stamp.At? && Minute <= now - stamp.ms < Hour ==>
              r == Relative(Ago((now - stamp.ms) / Minute, Minutes)) && 1 <= r.ago.count < 60
    ensures stamp.At? && Hour <= now - stamp.ms < Day ==>
              r == Relative(Ago((now - stamp.ms) / Hour, Hours)) && 1 <= r.ago.count < 24
    ensures stamp.At? && Day <= now - stamp.ms < 30 * Day ==>
              r == Relative(Ago((now - stamp.ms) / Day, Days)) && 1 <= r.ago.count < 30
    ensures stamp.At? && 30 * Day <= now - stamp.ms ==> r == LocaleDate
  {
    match stamp
    case Missing => Never
    case Invalid => LocaleDate
    case At(t) =>
      var diff := now - t;
      var mins := diff / Minute;
      var hours := diff / Hour;
      var days := diff / Day;
      FloorBelow(diff, Minute, 1);
      FloorBelow(diff, Minute, 60);
      FloorBelow(diff, Hour, 24);
      FloorBelow(diff, Day, 30);
      FloorBelow(diff, Hour, 1);
      FloorBelow(diff, Day, 1);
      if mins < 1 then JustNow
      else if mins < 60 then Relative(Ago(mins, Minutes))
      else if hours < 24 then Relative(Ago(hours, Hours))
      else if days < 30 then Relative(Ago(days, Days))
      else LocaleDate
  }

  /** A time that is in the future shows "Just now". */
  lemma FutureIsJustNow(at: int, now: int)
    requires now <= at
    ensures FormatDate(At(at), now) == JustNow
  {
  }

  /** As time passes the wording moves forward: minutes, then hours, then days, then
      the date, and within a unit the count never goes down. */
  function Rank(s: Shown): (int, int) {
    match s
    case Never => (0, 0)
    case JustNow => (1, 0)
    case Relative(ago) => (match ago.unit case Minutes => 2 case Hours => 3 case Days => 4, ago.count)
    case LocaleDate => (5, 0)
  }

  lemma Monotone(at: int, now: int, later: int)
    requires now <= later
    ensures var a := Rank(FormatDate(At(at), now));
            var b := Rank(FormatDate(At(at), later));
            a.0 < b.0 || (a.0 == b.0 && a.1 <= b.1)
  {
    var d, e := now - at, later - at;
    if Minute <= d && d < Hour && Minute <= e && e < Hour {
      DivMonotone(d, e, Minute);
    } else if Hour <= d && d < Day && Hour <= e && e < Day {
      DivMonotone(d, e, Hour);
    } else if Day <= d && d < 30 * Day && Day <= e && e < 30 * Day {
      DivMonotone(d, e, Day);
    }
  }

  /** `cred.deviceName || 'Unknown Device'`: never an empty name. */
  function DisplayName(deviceName: Option<string>): (r: string)
    ensures r != ""
    ensures TruthyString(deviceName) ==> r == deviceName.value
  {
    OrString(deviceName, "Unknown Device")
  }
}
