/** The notification list of the two notification screens: reading, deleting,
    marking and clearing, the unread badge, and the four orders the newer screen
    offers. Dates are milliseconds since the epoch. */
module Notifications {
  import opened Text
  import opened Lists

  datatype Kind = Reminder | Info | Announcement | Urgent

  datatype Notification = Notification(
    id: int, heading: string, content: string, timestamp: string, kind: Kind, isRead: bool, date: int)

  // ---------------------------------------------------------------------------
  // List operations

  /** `handleNotificationClick`: every entry with the clicked id becomes read. */
  function Click(list: seq<Notification>, id: int): (r: seq<Notification>)
    ensures |r| == |list|
    ensures forall i :: 0 <= i < |list| && list[i].id == id ==> r[i] == list[i].(isRead := true)
    ensures forall i :: 0 <= i < |list| && list[i].id != id ==> r[i] == list[i]
  {
    if list == [] then []
    else [if list[0].id == id then list[0].(isRead := true) else list[0]] + Click(list[1..], id)
  }

  /** `deleteNotification`: the entries with that id go, the rest stay in order. */
  function Delete(list: seq<Notification>, id: int): (r: seq<Notification>)
    ensures |r| <= |list|
    ensures forall x :: x in r <==> x in list && x.id != id
  {
    if list == [] then []
    else if list[0].id == id then Delete(list[1..], id)
    else [list[0]] + Delete(list[1..], id)
  }

  /** Deleting is filtering: what is left is a subsequence of the list holding every
      entry with another id as often as the list does, and none with that id. */
  lemma {:induction false} DeleteIsFilter(list: seq<Notification>, id: int)
    ensures Subsequence(Delete(list, id), list)
    ensures forall x :: multiset(Delete(list, id))[x] == if x.id == id then 0 else multiset(list)[x]
  {
    if list != [] {
      DeleteIsFilter(list[1..], id);
      assert list == [list[0]] + list[1..];
      if list[0].id == id {
        SubsequenceSkip(list[0], Delete(list[1..], id), list[1..]);
      } else {
        SubsequenceCons(list[0], Delete(list[1..], id), list[1..]);
      }
    }
  }

  /** `markAllAsRead`. */
  function MarkAll(list: seq<Notification>): (r: seq<Notification>)
    ensures |r| == |list|
    ensures forall i :: 0 <= i < |list| ==> r[i] == list[i].(isRead := true)
  {
    if list == [] then [] else [list[0].(isRead := true)] + MarkAll(list[1..])
  }

  /** `clearAllNotifications`: the newer screen asks first; the older one's
      confirmation is commented out, so it always behaves as if confirmed. */
  function ClearAll(list: seq<Notification>, confirmed: bool): (r: seq<Notification>)
    ensures confirmed ==> r == []
    ensures !confirmed ==> r == list
  {
    if confirmed then [] else list
  }

  /** The badge: how many entries are unread. */
  function UnreadCount(list: seq<Notification>): (n: nat)
    ensures n <= |list|
    ensures n == 0 <==> forall i :: 0 <= i < |list| ==> list[i].isRead
  {
    if list == [] then 0 else (if list[0].isRead then 0 else 1) + UnreadCount(list[1..])
  }

  /** After marking all read the badge is empty. */
  lemma {:induction false} MarkAllClearsBadge(list: seq<Notification>)
    ensures UnreadCount(MarkAll(list)) == 0
  {
    var r := MarkAll(list);
    assert forall i :: 0 <= i < |r| ==> r[i].isRead;
  }

  /** Clicking drops the badge by the number of unread entries with that id. */
  lemma {:induction false} ClickLowersBadge(list: seq<Notification>, id: int)
    ensures UnreadCount(Click(list, id)) + UnreadWithId(list, id) == UnreadCount(list)
  {
    if list != [] {
      ClickLowersBadge(list[1..], id);
      assert Click(list, id)[1..] == Click(list[1..], id);
    }
  }

  function UnreadWithId(list: seq<Notification>, id: int): nat {
    if list == [] then 0 else (if !list[0].isRead && list[0].id == id then 1 else 0) + UnreadWithId(list[1..], id)
  }

  /** Deleting is idempotent, and clicking an entry before deleting it changes nothing. */
  lemma {:induction false} DeleteAbsorbsClick(list: seq<Notification>, id: int)
    ensures Delete(Click(list, id), id) == Delete(list, id)
    ensures Delete(Delete(list, id), id) == Delete(list, id)
  {
    if list != [] {
      DeleteAbsorbsClick(list[1..], id);
      assert Click(list, id)[1..] == Click(list[1..], id);
    }
  }

  // ---------------------------------------------------------------------------
  // Relative times of the sample data

  /** The first run of digits in `s` (`/\d+/`), or `"0"` when there is none. */
  function FirstNumber(s: string): (r: string)
    ensures r != [] && AllDigits(r)
  {
    if s == [] then "0"
    else if IsDigit(s[0]) then s[..DigitSpan(s)]
    else FirstNumber(s[1..])
  }

  const Hour: int := 60 * 60 * 1000
  const Day: int := 24 * Hour
  const Week: int := 7 * Day
  /** A month is taken as thirty days. */
  const Month: int := 30 * Day

  /** `getDateFromRelativeTime`: the first number read as hours, days, weeks or
      months (of thirty days) before `now`, by the first unit word found. */
  function DateFromRelativeTime(relative: string, now: int): (r: int)
    ensures var n := DigitsValue(FirstNumber(relative));
            && (Contains(relative, "hour") ==> r == now - n * Hour)
            && (!Contains(relative, "hour") && Contains(relative, "day") ==> r == now - n * Day)
            && ((!Contains(relative, "hour") && !Contains(relative, "day") && Contains(relative, "week"))
                  ==> r == now - n * Week)
            && ((!Contains(relative, "hour") && !Contains(relative, "day") && !Contains(relative, "week")
                   && Contains(relative, "month")) ==> r == now - n * Month)
            && ((!Contains(relative, "hour") && !Contains(relative, "day") && !Contains(relative, "week")
                   && !Contains(relative, "month")) ==> r == now)
    ensures r <= now
  {
    var n := DigitsValue(FirstNumber(relative));
    if Contains(relative, "hour") then now - n * Hour
    else if Contains(relative, "day") then now - n * Day
    else if Contains(relative, "week") then now - n * Week
    else if Contains(relative, "month") then now - n * Month
    else now
  }

  /** The units the sample data counts in. */
  datatype Span = Hours | Days | Weeks | Months

  function SpanWord(u: Span): string {
    match u
    case Hours => "hour"
    case Days => "day"
    case Weeks => "week"
    case Months => "month"
  }

  function SpanLength(u: Span): int {
    match u
    case Hours => Hour
    case Days => Day
    case Weeks => Week
    case Months => Month
  }

  /** The sample data's wording: `"2 hours ago"`, `"1 day ago"`. */
  function Label(n: nat, u: Span): string {
    NatToString(n) + Tail(u, n != 1)
  }

  /** What follows the number: the unit word, plural or not, and `ago`. */
  function Tail(u: Span, plural: bool): string {
    " " + SpanWord(u) + (if plural then "s ago" else " ago")
  }

  /** Reading a label back gives the time that many units before now. */
  lemma LabelReadsBack(n: nat, u: Span, now: int)
    ensures DateFromRelativeTime(Label(n, u), now) == now - n * SpanLength(u)
  {
    var s := Label(n, u);
    LabelNumber(n, u);
    NatToStringRoundTrip(n);
    TailWords(NatToString(n), u, n != 1);
    UnitWordDecides(s, n, u, now);
  }

  /** Text whose number is `n`, naming unit `u` and none looked for before it, is read as
      `n` of that unit. */
  lemma UnitWordDecides(s: string, n: nat, u: Span, now: int)
    requires DigitsValue(FirstNumber(s)) == n
    requires Contains(s, SpanWord(u))
    requires u != Hours ==> !Contains(s, "hour")
    requires u == Weeks || u == Months ==> !Contains(s, "day")
    requires u == Months ==> !Contains(s, "week")
    ensures DateFromRelativeTime(s, now) == now - n * SpanLength(u)
  {
  }

  /** The number read from a label is the one printed into it. */
  lemma LabelNumber(n: nat, u: Span)
    ensures FirstNumber(Label(n, u)) == NatToString(n)
  {
    var d := NatToString(n);
    var s := Label(n, u);
    DigitSpanPrefix(d, Tail(u, n != 1));
    assert s[0] == d[0];
    assert s[..|d|] == d;
  }

  /** After any digits, the tail's own unit word is found and none of the words
      looked for before it. */
  lemma TailWords(d: string, u: Span, plural: bool)
    requires AllDigits(d)
    ensures Contains(d + Tail(u, plural), SpanWord(u))
    ensures u != Hours ==> !Contains(d + Tail(u, plural), "hour")
    ensures u == Weeks || u == Months ==> !Contains(d + Tail(u, plural), "day")
    ensures u == Months ==> !Contains(d + Tail(u, plural), "week")
  {
    var t := Tail(u, plural);
    TailFacts(u, plural);
    LabelHasWord(d, t, SpanWord(u));
    match u
    case Hours =>
    case Days =>
      LacksAfterDigits(d, t, "hour");
    case Weeks =>
      LacksAfterDigits(d, t, "hour");
      LacksAfterDigits(d, t, "day");
    case Months =>
      LacksAfterDigits(d, t, "hour");
      LacksAfterDigits(d, t, "day");
      LacksAfterDigits(d, t, "week");
  }

  /** Where the unit word sits in the tail, and which earlier words' first two letters
      never meet in it. */
  lemma TailFacts(u: Span, plural: bool)
    ensures |Tail(u, plural)| > |SpanWord(u)| && Tail(u, plural)[1..1 + |SpanWord(u)|] == SpanWord(u)
    ensures u != Hours ==> NoPair(Tail(u, plural), 'h', 'o')
    ensures u == Weeks || u == Months ==> NoPair(Tail(u, plural), 'd', 'a')
    ensures u == Months ==> NoPair(Tail(u, plural), 'w', 'e')
  {
    var t, w := Tail(u, plural), SpanWord(u);
    assert t == [' '] + w + t[1 + |w|..];
    match u
    case Hours =>
    case Days => NoPairs(t, [('h', 'o')]);
    case Weeks => NoPairs(t, [('h', 'o'), ('d', 'a')]);
    case Months => NoPairs(t, [('h', 'o'), ('d', 'a'), ('w', 'e')]);
  }

  /** The word right after the number's separating space is found. */
  lemma LabelHasWord(d: string, t: string, w: string)
    requires |t| > |w| && t[1..1 + |w|] == w
    ensures Contains(d + t, w)
  {
    var s := d + t;
    assert s[|d| + 1..|d| + 1 + |w|] == t[1..1 + |w|];
    ContainsAt(s, w, |d| + 1);
  }

  /** A word starting with a non-digit is found after digits only if it pairs up in
      the rest. */
  lemma LacksAfterDigits(d: string, t: string, w: string)
    requires AllDigits(d) && |w| >= 2 && !IsDigit(w[0]) && NoPair(t, w[0], w[1])
    ensures !Contains(d + t, w)
  {
    NoPairAfterDigits(d, t, w[0], w[1]);
    NoPairExcludes(d + t, w);
  }

  /** A word whose first two letters never meet is not in `s`. */
  lemma NoPairExcludes(s: string, w: string)
    requires |w| >= 2 && NoPair(s, w[0], w[1])
    ensures !Contains(s, w)
  {
    ContainsIffOccurs(s, w);
    forall i: nat
      ensures !OccursAt(s, w, i)
    {
      if i + |w| <= |s| {
        assert s[i..i + |w|][0] == s[i] && s[i..i + |w|][1] == s[i + 1];
      }
    }
  }

  /** Digits in front add no pair starting with a non-digit. */
  lemma NoPairAfterDigits(d: string, t: string, a: char, b: char)
    requires AllDigits(d) && !IsDigit(a) && NoPair(t, a, b)
    ensures NoPair(d + t, a, b)
  {
    var s := d + t;
    forall i | 0 <= i < |s| - 1
      ensures !(s[i] == a && s[i + 1] == b)
    {
      if i >= |d| {
        assert s[i] == t[i - |d|] && s[i + 1] == t[i - |d| + 1];
      }
    }
  }

  // ---------------------------------------------------------------------------
  // Sorting

  datatype SortOption = Newest | Oldest | Unread | UrgentFirst

  /** `{ urgent: 0, reminder: 1, announcement: 2, info: 3 }`. */
  function Priority(k: Kind): int {
    match k
    case Urgent => 0
    case Reminder => 1
    case Announcement => 2
    case Info => 3
  }

  /** The comparator of each option as a key compared lexicographically: a
      negative comparator result is a smaller key. */
  function SortKey(option: SortOption, n: Notification): (int, int) {
    match option
    case Newest => (0, -n.date)
    case Oldest => (0, n.date)
    case Unread => (if n.isRead then 1 else 0, -n.date)
    case UrgentFirst => (Priority(n.kind), -n.date)
  }

  predicate KeyLess(a: (int, int), b: (int, int)) {
    a.0 < b.0 || (a.0 == b.0 && a.1 < b.1)
  }

  predicate Before(option: SortOption, a: Notification, b: Notification) {
    !KeyLess(SortKey(option, b), SortKey(option, a))
  }

  predicate Sorted(option: SortOption, s: seq<Notification>) {
    forall i, j :: 0 <= i < j < |s| ==> Before(option, s[i], s[j])
  }

  /** The entries of `s` whose key is `k`, in order. */
  function WithKey(option: SortOption, s: seq<Notification>, k: (int, int)): seq<Notification> {
    if s == [] then []
    else (if SortKey(option, s[0]) == k then [s[0]] else []) + WithKey(option, s[1..], k)
  }

  /** Inserts `x` before the first entry it does not come after. */
  function Insert(option: SortOption, x: Notification, s: seq<Notification>): (r: seq<Notification>)
    ensures multiset(r) == multiset(s) + multiset{x}
    ensures Sorted(option, s) ==> Sorted(option, r)
  {
    if s == [] || Before(option, x, s[0]) then [x] + s
    else
      var rest := Insert(option, x, s[1..]);
      assert s == [s[0]] + s[1..];
      InsertHead(option, x, s, rest);
      [s[0]] + rest
  }

  /** The step of `Insert` that keeps the order when `x` goes after the head. */
  lemma InsertHead(option: SortOption, x: Notification, s: seq<Notification>, rest: seq<Notification>)
    requires s != [] && !Before(option, x, s[0])
    requires multiset(rest) == multiset(s[1..]) + multiset{x}
    requires Sorted(option, s) ==> Sorted(option, rest)
    ensures Sorted(option, s) ==> Sorted(option, [s[0]] + rest)
  {
    if Sorted(option, s) {
      var r := [s[0]] + rest;
      forall j | 1 <= j < |r| ensures Before(option, s[0], r[j]) {
        assert r[j] in multiset(rest);
        if r[j] == x {
        } else {
          assert r[j] in multiset(s[1..]);
          var k :| 0 <= k < |s[1..]| && s[1..][k] == r[j];
          assert s[k + 1] == r[j];
        }
      }
    }
  }

  /** `sorted.sort(comparator)` on a copy: the engine's sort is stable, so this is
      the insertion sort that keeps equal entries in their original order. */
  function Sort(option: SortOption, s: seq<Notification>): (r: seq<Notification>)
    ensures multiset(r) == multiset(s)
    ensures Sorted(option, r)
  {
    if s == [] then []
    else
      assert s == [s[0]] + s[1..];
      Insert(option, s[0], Sort(option, s[1..]))
  }

  /** Stability of one insertion: `x` precedes the entries that share its key. */
  lemma {:induction false} InsertWithKey(option: SortOption, x: Notification, s: seq<Notification>, k: (int, int))
    ensures WithKey(option, Insert(option, x, s), k)
         == (if SortKey(option, x) == k then [x] else []) + WithKey(option, s, k)
  {
    if s == [] || Before(option, x, s[0]) {
      assert Insert(option, x, s) == [x] + s;
      WithKeyCons(option, x, s, k);
    } else {
      var rest := Insert(option, x, s[1..]);
      assert Insert(option, x, s) == [s[0]] + rest;
      InsertWithKey(option, x, s[1..], k);
      WithKeyCons(option, s[0], rest, k);
      assert s == [s[0]] + s[1..];
      WithKeyCons(option, s[0], s[1..], k);
      SwapHeads(if SortKey(option, s[0]) == k then [s[0]] else [],
                if SortKey(option, x) == k then [x] else [],
                WithKey(option, s[1..], k));
    }
  }

  /** Two prefixes of which one is empty can be written in either order. */
  lemma SwapHeads(a: seq<Notification>, b: seq<Notification>, w: seq<Notification>)
    requires a == [] || b == []
    ensures a + (b + w) == b + (a + w)
  {
    if a == [] {
      assert a + (b + w) == b + w == b + (a + w);
    } else {
      assert a + (b + w) == a + w == b + (a + w);
    }
  }

  lemma WithKeyCons(option: SortOption, a: Notification, t: seq<Notification>, k: (int, int))
    ensures WithKey(option, [a] + t, k) == (if SortKey(option, a) == k then [a] else []) + WithKey(option, t, k)
  {
    assert ([a] + t)[1..] == t;
  }

  /** The sort is stable: for every key, the entries with that key appear in the
      same order before and after. */
  lemma {:induction false} SortStable(option: SortOption, s: seq<Notification>, k: (int, int))
    ensures WithKey(option, Sort(option, s), k) == WithKey(option, s, k)
  {
    if s != [] {
      SortStable(option, s[1..], k);
      InsertWithKey(option, s[0], Sort(option, s[1..]), k);
    }
  }

  /** `sortNotifications`. */
  function SortNotifications(option: SortOption, list: seq<Notification>): (r: seq<Notification>)
    ensures multiset(r) == multiset(list)
    ensures Sorted(option, r)
  {
    Sort(option, list)
  }

  /** Under "newest" dates never increase down the list; under "oldest" they never
      decrease. */
  lemma DateOrders(list: seq<Notification>, i: int, j: int)
    requires 0 <= i < j < |list|
    ensures |SortNotifications(Newest, list)| == |SortNotifications(Oldest, list)| == |list|
    ensures SortNotifications(Newest, list)[i].date >= SortNotifications(Newest, list)[j].date
    ensures SortNotifications(Oldest, list)[i].date <= SortNotifications(Oldest, list)[j].date
  {
    assert |multiset(SortNotifications(Oldest, list))| == |multiset(list)|;
    assert |multiset(SortNotifications(Newest, list))| == |multiset(list)|;
  }

  /** Under "unread" every unread entry comes before every read one, and within
      each group the newer entry comes first. */
  lemma UnreadFirst(list: seq<Notification>, i: int, j: int)
    requires 0 <= i < j < |SortNotifications(Unread, list)|
    ensures var r := SortNotifications(Unread, list);
            (r[j].isRead || !r[i].isRead) && (r[i].isRead == r[j].isRead ==> r[i].date >= r[j].date)
  {
  }

  /** Under "urgent" priorities never decrease down the list, newer first within a
      priority. */
  lemma UrgentOrder(list: seq<Notification>, i: int, j: int)
    requires 0 <= i < j < |SortNotifications(UrgentFirst, list)|
    ensures var r := SortNotifications(UrgentFirst, list);
            Priority(r[i].kind) <= Priority(r[j].kind)
            && (r[i].kind == r[j].kind ==> r[i].date >= r[j].date)
  {
    var r := SortNotifications(UrgentFirst, list);
    assert Before(UrgentFirst, r[i], r[j]);
  }
}
