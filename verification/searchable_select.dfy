/** The searchable single- and multi-select inputs. Matching is a case-insensitive
    substring test on ASCII letters. */
module SearchableSelect {
  import opened Text
  import opened Lists

  // ---------------------------------------------------------------------------
  // Single select

  /** The options whose lower-case form contains the lower-case query, in order. */
  function Matching(options: seq<string>, query: string): (r: seq<string>)
    ensures forall x :: x in r <==> x in options && ContainsIgnoreCase(x, query)
  {
    if options == [] then []
    else
      var rest := Matching(options[1..], query);
      if ContainsIgnoreCase(options[0], query) then [options[0]] + rest else rest
  }

  lemma {:induction false} MatchingIsSubsequence(options: seq<string>, query: string)
    ensures Subsequence(Matching(options, query), options)
  {
    if options != [] {
      MatchingIsSubsequence(options[1..], query);
      assert options == [options[0]] + options[1..];
      if ContainsIgnoreCase(options[0], query) {
        SubsequenceCons(options[0], Matching(options[1..], query), options[1..]);
      } else {
        SubsequenceSkip(options[0], Matching(options[1..], query), options[1..]);
      }
    }
  }

  /** `filteredOptions` of the single select: filtering happens only with search
      turned on and a non-empty query. */
  function SingleResults(options: seq<string>, withSearch: bool, query: string): (r: seq<string>)
    ensures !withSearch || query == [] ==> r == options
    ensures withSearch && query != [] ==> forall x :: x in r <==> x in options && ContainsIgnoreCase(x, query)
  {
    if withSearch && query != [] then Matching(options, query) else options
  }

  /** The results always keep the options' order. */
  lemma SingleResultsInOrder(options: seq<string>, withSearch: bool, query: string)
    ensures Subsequence(SingleResults(options, withSearch, query), options)
  {
    if withSearch && query != [] {
      MatchingIsSubsequence(options, query);
    } else {
      SubsequenceRefl(options);
    }
  }

  lemma {:induction false} SubsequenceRefl(s: seq<string>)
    ensures Subsequence(s, s)
  {
    if s != [] {
      SubsequenceRefl(s[1..]);
      assert s == [s[0]] + s[1..];
      SubsequenceCons(s[0], s[1..], s[1..]);
    }
  }

  /** The searchable single select: the value the parent holds and the query. */
  datatype Single = Single(value: string, query: string)

  /** The selected value is shown instead of the search box when the query is
      empty and a value is set; the result list is shown while the query is not
      empty. */
  predicate ShowsValue(s: Single) { s.query == [] && s.value != [] }
  predicate ShowsResults(s: Single) { s.query != [] }

  /** Picking a result: the parent receives the option, the query is cleared. */
  function Pick(s: Single, option: string): (r: Single)
    ensures !ShowsResults(r)
    ensures ShowsValue(r) <==> option != []
    ensures r.value == option
  {
    Single(option, [])
  }

  /** The clear button on the shown value: the parent receives the empty text, so
      the search box comes back. */
  function Clear(s: Single): (r: Single)
    ensures !ShowsValue(r)
    ensures r.query == s.query
  {
    Single([], s.query)
  }

  /** Typing replaces the query; with a value set, the value stays but is hidden. */
  function Type(s: Single, query: string): (r: Single)
    ensures r.value == s.value
    ensures ShowsResults(r) <==> query != []
    ensures ShowsResults(r) ==> !ShowsValue(r)
  {
    Single(s.value, query)
  }

  // ---------------------------------------------------------------------------
  // Multi select

  /** `addOption`: the option is appended; the query is cleared. */
  function AddOption(values: seq<string>, option: string): (r: seq<string>)
    ensures |r| == |values| + 1 && r[..|values|] == values && r[|values|] == option
  {
    values + [option]
  }

  /** `removeOption`: every occurrence goes, the rest keep their order. */
  function RemoveOption(values: seq<string>, option: string): (r: seq<string>)
    ensures forall x :: x in r <==> x in values && x != option
    ensures option !in values ==> r == values
    ensures |r| <= |values|
  {
    if values == [] then []
    else
      var rest := RemoveOption(values[1..], option);
      if values[0] == option then rest
      else
        assert values == [values[0]] + values[1..];
        [values[0]] + rest
  }

  /** Removing is filtering: the result is a subsequence of the values with every
      other value as often as before and the option not at all, so it is shorter by
      exactly the option's occurrences. */
  lemma {:induction false} RemoveIsFilter(values: seq<string>, option: string)
    ensures Subsequence(RemoveOption(values, option), values)
    ensures multiset(RemoveOption(values, option)) == multiset(values)[option := 0]
    ensures |RemoveOption(values, option)| == |values| - multiset(values)[option]
  {
    if values != [] {
      RemoveIsFilter(values[1..], option);
      assert values == [values[0]] + values[1..];
      var rest := RemoveOption(values[1..], option);
      if values[0] == option {
        SubsequenceSkip(values[0], rest, values[1..]);
      } else {
        SubsequenceCons(values[0], rest, values[1..]);
        assert multiset([values[0]] + rest) == multiset{values[0]} + multiset(rest);
      }
    }
  }

  /** `filteredOptions` of the multi select: nothing for an empty query, otherwise
      the options not yet chosen that match. */
  function MultiResults(options: seq<string>, values: seq<string>, query: string): (r: seq<string>)
    ensures query == [] ==> r == []
    ensures query != [] ==> forall x :: x in r <==> x in options && x !in values && ContainsIgnoreCase(x, query)
  {
    if query == [] then []
    else
      var m := Matching(options, query);
      NotChosen(m, values)
  }

  function NotChosen(options: seq<string>, values: seq<string>): (r: seq<string>)
    ensures forall x :: x in r <==> x in options && x !in values
  {
    if options == [] then []
    else
      var rest := NotChosen(options[1..], values);
      if options[0] in values then rest else [options[0]] + rest
  }

  /** Adding a result never gives the multi select a duplicate value. */
  lemma AddFromResultsKeepsDistinct(options: seq<string>, values: seq<string>, query: string, option: string)
    requires NoDuplicates(values) && option in MultiResults(options, values, query)
    ensures NoDuplicates(AddOption(values, option))
  {
  }

  /** Removing what was just added restores the values. */
  lemma RemoveUndoesAdd(options: seq<string>, values: seq<string>, query: string, option: string)
    requires option in MultiResults(options, values, query)
    ensures RemoveOption(AddOption(values, option), option) == values
  {
    RemoveAbsent(values, option);
  }

  lemma {:induction false} RemoveAbsent(values: seq<string>, option: string)
    requires option !in values
    ensures RemoveOption(values + [option], option) == values
  {
    if values == [] {
    } else {
      assert (values + [option])[1..] == values[1..] + [option];
      RemoveAbsent(values[1..], option);
    }
  }

  /** A removed value is offered again by a query it matches. */
  lemma RemovedIsOfferedAgain(options: seq<string>, values: seq<string>, query: string, option: string)
    requires option in options && query != [] && ContainsIgnoreCase(option, query)
    ensures option in MultiResults(options, RemoveOption(values, option), query)
  {
  }
}
