/** The active-sessions screen: how long ago a session was last used, which icon it
    gets, the current session apart from the others, and the revoke-all guard. */
module Sessions {
  import opened Optional
  import opened Text
  import opened Lists
  import opened Elapsed

  /** What `formatDate` shows. The clock time and the two calendar forms are locale
      formatting and are kept as tags. */
  datatype Shown = ClockTime | Relative(ago: Ago) | MonthDay | MonthDayYear

  /** `formatDate(last_used_at)` at time `now`; `None` is a date string that does not
      parse, whose differences are NaN and fail every comparison. */
  function FormatDate(at: Option<int>, now: int): (r: Shown)
    ensures at.None? ==> r == MonthDayYear
    ensures at.Some? && now - at.value < Minute ==> r == ClockTime
    ensures at.Some? && Minute <= now - at.value < Hour ==>
              r.Relative? && r.ago.count == (now - at.value) / Minute && 1 <= r.ago.count < 60
              && r.ago.unit == Minutes
    ensures at.Some? && Hour <= now - at.value < Day ==>
              r.Relative? && r.ago.count == (now - at.value) / Hour && 1 <= r.ago.count < 24
              && r.ago.unit == Hours
    ensures at.Some? && Day <= now - at.value < 7 * Day ==>
              r.Relative? && r.ago.count == (now - at.value) / Day && 1 <= r.ago.count < 7
              && r.ago.unit == Days
    ensures at.Some? && 7 * Day <= now - at.value < 30 * Day ==> r == MonthDay
    ensures at.Some? && 30 * Day <= now - at.value ==> r == MonthDayYear
  {
    match at
    case None => MonthDayYear
    case Some(t) =>
      var diff := now - t;
      var mins := diff / Minute;
      var hours := diff / Hour;
      var days := diff / Day;
      FloorBelow(diff, Minute, 1);
      FloorBelow(diff, Minute, 60);
      FloorBelow(diff, Hour, 24);
      FloorBelow(diff, Day, 7);
      FloorBelow(diff, Day, 30);
      FloorBelow(diff, Hour, 1);
      FloorBelow(diff, Day, 1);
      if mins < 1 then ClockTime
      else if mins < 60 then Relative(Ago(mins, Minutes))
      else if hours < 24 then Relative(Ago(hours, Hours))
      else if days < 7 then Relative(Ago(days, Days))
      else if days < 30 then MonthDay
      else MonthDayYear
  }

  /** The order of the forms from the most recent to the oldest, the count breaking
      ties within one unit. */
  function Rank(s: Shown): (int, int) {
    match s
    case ClockTime => (0, 0)
    case Relative(ago) => (match ago.unit case Minutes => 1 case Hours => 2 case Days => 3, ago.count)
    case MonthDay => (4, 0)
    case MonthDayYear => (5, 0)
  }

  /** The later the moment of viewing, the older the same session looks. */
  lemma Monotone(at: int, now: int, later: int)
    requires now <= later
    ensures var a := Rank(FormatDate(Some(at), now));
            var b := Rank(FormatDate(Some(at), later));
            a.0 < b.0 || (a.0 == b.0 && a.1 <= b.1)
  {
    var d, e := now - at, later - at;
    if Minute <= d && d < Hour && Minute <= e && e < Hour {
      DivMonotone(d, e, Minute);
    } else if Hour <= d && d < Day && Hour <= e && e < Day {
      DivMonotone(d, e, Hour);
    } else if Day <= d && d < 7 * Day && Day <= e && e < 7 * Day {
      DivMonotone(d, e, Day);
    }
  }

  // ---------------------------------------------------------------------------
  // Icons

  /** `getDeviceIcon`: the phone icon when the lower-cased name mentions an iPhone,
      Android or "mobile", otherwise a monitor. */
  predicate PhoneIcon(deviceName: string) {
    var n := Lower(deviceName);
    Contains(n, "iphone") || Contains(n, "android") || Contains(n, "mobile")
  }

  /** Lower-casing twice is lower-casing once. */
  lemma {:induction false} LowerIdempotent(s: string)
    ensures Lower(Lower(s)) == Lower(s)
  {
    var l := Lower(s);
    assert forall i :: 0 <= i < |l| ==> LowerChar(l[i]) == l[i];
  }

  /** The icon does not depend on letter case. */
  lemma IconIgnoresCase(deviceName: string)
    ensures PhoneIcon(Lower(deviceName)) == PhoneIcon(deviceName)
  {
    LowerIdempotent(deviceName);
  }

  // ---------------------------------------------------------------------------
  // Current and other sessions

  datatype Session = Session(tokenId: int, deviceName: string, lastUsedAt: Option<int>, isCurrent: bool)

  /** `sessions.find(s => s.is_current)`. */
  function Current(sessions: seq<Session>): (r: Option<Session>)
    ensures r.None? <==> forall i :: 0 <= i < |sessions| ==> !sessions[i].isCurrent
    ensures r.Some? ==> exists i :: 0 <= i < |sessions| && sessions[i] == r.value && r.value.isCurrent
                          && forall k :: 0 <= k < i ==> !sessions[k].isCurrent
  {
    if sessions == [] then None
    else if sessions[0].isCurrent then Some(sessions[0])
    else
      var r := Current(sessions[1..]);
      assert r.Some? ==> exists i :: 0 <= i < |sessions[1..]| && sessions[1..][i] == r.value
                          && forall k :: 0 <= k < i ==> !sessions[1..][k].isCurrent;
      if r.Some? then
        var i :| 0 <= i < |sessions[1..]| && sessions[1..][i] == r.value
                 && forall k :: 0 <= k < i ==> !sessions[1..][k].isCurrent;
        assert sessions[i + 1] == r.value;
        r
      else r
  }

  /** `sessions.filter(s => !s.is_current)`. */
  function Others(sessions: seq<Session>): (r: seq<Session>)
    ensures forall x :: x in r <==> x in sessions && !x.isCurrent
    ensures |r| <= |sessions|
  {
    if sessions == [] then []
    else
      var rest := Others(sessions[1..]);
      if sessions[0].isCurrent then rest else [sessions[0]] + rest
  }

  function CurrentCount(sessions: seq<Session>): nat {
    if sessions == [] then 0 else (if sessions[0].isCurrent then 1 else 0) + CurrentCount(sessions[1..])
  }

  /** Every session is either the current one or among the others: with the single
      current session the server marks, the others are all but one. */
  lemma {:induction false} OthersCount(sessions: seq<Session>)
    ensures |Others(sessions)| + CurrentCount(sessions) == |sessions|
    ensures CurrentCount(sessions) == 0 <==> Current(sessions).None?
  {
    if sessions != [] {
      OthersCount(sessions[1..]);
    }
  }

  /** The others keep the order the server sent. */
  lemma {:induction false} OthersInOrder(sessions: seq<Session>)
    ensures Subsequence(Others(sessions), sessions)
  {
    if sessions != [] {
      OthersInOrder(sessions[1..]);
      assert sessions == [sessions[0]] + sessions[1..];
      if sessions[0].isCurrent {
        SubsequenceSkip(sessions[0], Others(sessions[1..]), sessions[1..]);
      } else {
        SubsequenceCons(sessions[0], Others(sessions[1..]), sessions[1..]);
      }
    }
  }

  /** What `handleRevokeAllOthers` does before calling the server. */
  datatype RevokeAll = NothingToRevoke | Declined | Revoke(count: nat)

  function RevokeAllOthers(sessions: seq<Session>, confirmed: bool): (r: RevokeAll)
    ensures r == NothingToRevoke <==> forall i :: 0 <= i < |sessions| ==> sessions[i].isCurrent
    ensures r.Revoke? ==> confirmed && r.count == |Others(sessions)| > 0
    ensures r == Declined ==> !confirmed
  {
    var count := |Others(sessions)|;
    if count == 0 then
      assert forall i :: 0 <= i < |sessions| ==> sessions[i] !in Others(sessions);
      NothingToRevoke
    else
      assert Others(sessions)[0] in Others(sessions);
      if !confirmed then Declined else Revoke(count)
  }
}
