/** The monthly-report screen's filters: an academic year `S-YY` covers the reports
    dated in year S or S+1, and a status filter narrows that list. */
module Reports {
  import opened Optional
  import opened Text
  import opened Lists

  datatype Status = Submitted | Draft | Rejected | Pending

  /** `'all'` or one status. */
  datatype Filter = All | Only(status: Status)

  /** A report; its year is kept as the text the data holds. */
  datatype Report = Report(id: string, month: string, year: string, status: Status)

  /** `Number(s)` for the inputs the screen sees: the empty text is 0, a run of
      decimal digits is its value, anything else is NaN (`None`), which equals
      nothing. */
  function NumberOf(s: string): (r: Option<int>)
    ensures AllDigits(s) <==> r.Some?
    ensures r.Some? ==> r.value >= 0
  {
    if AllDigits(s) then Some(DigitsValue(s)) else None
  }

  /** The first piece of `s.split('-')`. */
  function BeforeDash(s: string): (r: string)
    ensures '-' !in r && r <= s
    ensures |r| < |s| ==> s[|r|] == '-'
  {
    if s == [] || s[0] == '-' then [] else [s[0]] + BeforeDash(s[1..])
  }

  /** The start year of an academic year. */
  function StartYear(selected: string): Option<int> {
    NumberOf(BeforeDash(selected))
  }

  /** Whether report `r` belongs to the academic year `selected`. */
  predicate InYear(r: Report, selected: string) {
    var start := StartYear(selected);
    var y := NumberOf(r.year);
    start.Some? && y.Some? && (y.value == start.value || y.value == start.value + 1)
  }

  predicate Matches(r: Report, filter: Filter) {
    filter.All? || r.status == filter.status
  }

  /** `filteredReports`: the reports of the selected year, then those matching the
      status filter, in their original order. */
  function FilteredReports(reports: seq<Report>, selected: string, filter: Filter): (r: seq<Report>)
    ensures forall x :: x in r <==> x in reports && InYear(x, selected) && Matches(x, filter)
    ensures |r| <= |reports|
  {
    if reports == [] then []
    else
      var rest := FilteredReports(reports[1..], selected, filter);
      if InYear(reports[0], selected) && Matches(reports[0], filter) then [reports[0]] + rest else rest
  }

  /** The filtered list keeps the source order. */
  lemma {:induction false} FilteredIsSubsequence(reports: seq<Report>, selected: string, filter: Filter)
    ensures Subsequence(FilteredReports(reports, selected, filter), reports)
  {
    if reports != [] {
      FilteredIsSubsequence(reports[1..], selected, filter);
      var rest := FilteredReports(reports[1..], selected, filter);
      assert reports == [reports[0]] + reports[1..];
      if InYear(reports[0], selected) && Matches(reports[0], filter) {
        SubsequenceCons(reports[0], rest, reports[1..]);
      } else {
        SubsequenceSkip(reports[0], rest, reports[1..]);
      }
    }
  }

  /** Every report of the year has exactly one of the four statuses, so the 'all'
      list is as long as the four status lists together. */
  lemma {:induction false} AllSplitsByStatus(reports: seq<Report>, selected: string)
    ensures |FilteredReports(reports, selected, All)|
         == |FilteredReports(reports, selected, Only(Submitted))| + |FilteredReports(reports, selected, Only(Draft))|
          + |FilteredReports(reports, selected, Only(Pending))| + |FilteredReports(reports, selected, Only(Rejected))|
  {
    if reports != [] {
      AllSplitsByStatus(reports[1..], selected);
    }
  }

  datatype Counts = Counts(all: nat, submitted: nat, draft: nat, pending: nat, rejected: nat)

  /** `statusCounts`. */
  function StatusCounts(reports: seq<Report>, selected: string): (r: Counts)
    ensures r.all == r.submitted + r.draft + r.pending + r.rejected
    ensures r.all == |FilteredReports(reports, selected, All)|
    ensures r.submitted == |FilteredReports(reports, selected, Only(Submitted))|
    ensures r.draft == |FilteredReports(reports, selected, Only(Draft))|
    ensures r.pending == |FilteredReports(reports, selected, Only(Pending))|
    ensures r.rejected == |FilteredReports(reports, selected, Only(Rejected))|
  {
    AllSplitsByStatus(reports, selected);
    Counts(|FilteredReports(reports, selected, All)|,
           |FilteredReports(reports, selected, Only(Submitted))|,
           |FilteredReports(reports, selected, Only(Draft))|,
           |FilteredReports(reports, selected, Only(Pending))|,
           |FilteredReports(reports, selected, Only(Rejected))|)
  }

  /** An academic year `S-YY` whose S is a run of digits selects exactly the reports whose
      year reads S or S+1. */
  lemma AcademicYear(start: string, rest: string, r: Report)
    requires AllDigits(start) && '-' !in start
    ensures InYear(r, start + "-" + rest)
        <==> AllDigits(r.year) && (DigitsValue(r.year) == DigitsValue(start) || DigitsValue(r.year) == DigitsValue(start) + 1)
  {
    BeforeDashOf(start, rest);
  }

  lemma {:induction false} BeforeDashOf(start: string, rest: string)
    requires '-' !in start
    ensures BeforeDash(start + "-" + rest) == start
  {
    if start != [] {
      assert (start + "-" + rest)[1..] == start[1..] + "-" + rest;
      BeforeDashOf(start[1..], rest);
    }
  }
}
