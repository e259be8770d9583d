/** The survey list: the title and status filters, the search suggestions,
    the search history (most recent first) and the popular-search table
    kept in local storage, and the pagination bounds. */
module Dashboard {
  import opened Collections
  import opened Strings

  /** One survey of `GET /surveys`. */
  datatype Survey = Survey(id: string, title: string, status: string)

  /** One entry of the stored `popularSearches`. */
  datatype PopularSearch = PopularSearch(query: string, count: nat)

  /** What a suggestion stands for: a survey (with its status), a history
      item, or a popular search (with its count). */
  datatype SuggestionKind = SurveyMatch(status: string) | FromHistory | FromPopular(count: nat)

  datatype Suggestion = Suggestion(id: string, title: string, kind: SuggestionKind)

  /** `text.toLowerCase().includes(query.toLowerCase())`. */
  predicate Matches(text: string, query: string) {
    Contains(ToLower(text), ToLower(query))
  }

  // ----- title and status filters -----

  function FilterByTitle(surveys: seq<Survey>, query: string): (r: seq<Survey>)
    ensures |r| <= |surveys|
  {
    Filter(surveys, (s: Survey) => Matches(s.title, query))
  }

  /** The title filter keeps exactly the surveys whose title contains the
      query, ignoring ASCII case... */
  lemma TitleFilterExact(surveys: seq<Survey>, query: string, s: Survey)
    ensures s in FilterByTitle(surveys, query) <==> s in surveys && Matches(s.title, query)
  {
    FilterMembers(surveys, (x: Survey) => Matches(x.title, query), s);
  }

  /** ...and keeps their order: it filters a concatenation part by part. */
  lemma TitleFilterKeepsOrder(a: seq<Survey>, b: seq<Survey>, query: string)
    ensures FilterByTitle(a + b, query) == FilterByTitle(a, query) + FilterByTitle(b, query)
  {
    FilterAppend(a, b, (x: Survey) => Matches(x.title, query));
  }

  /** The empty query matches every title. */
  lemma EmptyQueryKeepsAll(surveys: seq<Survey>)
    ensures FilterByTitle(surveys, "") == surveys
  {
    forall i | 0 <= i < |surveys| ensures Matches(surveys[i].title, "") {
      assert ToLower(surveys[i].title)[..0] == ToLower("");
    }
    FilterIdentity(surveys, (x: Survey) => Matches(x.title, ""));
  }

  /** `handleStatusChange`: 'All' restores the whole list, any other value
      keeps the surveys with exactly that status. */
  function StatusFiltered(surveys: seq<Survey>, status: string): (r: seq<Survey>)
    ensures |r| <= |surveys|
  {
    if status == "All" then surveys else Filter(surveys, (s: Survey) => s.status == status)
  }

  lemma StatusFilterExact(surveys: seq<Survey>, status: string, s: Survey)
    requires status != "All"
    ensures s in StatusFiltered(surveys, status) <==> s in surveys && s.status == status
  {
    FilterMembers(surveys, (x: Survey) => x.status == status, s);
  }

  // ----- suggestions -----

  function SurveySuggestions(surveys: seq<Survey>): (r: seq<Suggestion>)
    ensures |r| == |surveys|
    ensures forall i :: 0 <= i < |surveys| ==> r[i] == Suggestion(surveys[i].id, surveys[i].title, SurveyMatch(surveys[i].status))
  {
    seq(|surveys|, i requires 0 <= i < |surveys| => Suggestion(surveys[i].id, surveys[i].title, SurveyMatch(surveys[i].status)))
  }

  function HistorySuggestions(items: seq<string>): (r: seq<Suggestion>)
    ensures |r| == |items|
    ensures forall i :: 0 <= i < |items| ==> r[i] == Suggestion("history-" + items[i], items[i], FromHistory)
  {
    seq(|items|, i requires 0 <= i < |items| => Suggestion("history-" + items[i], items[i], FromHistory))
  }

  function PopularSuggestions(popular: seq<PopularSearch>): (r: seq<Suggestion>)
    ensures |r| == |popular|
    ensures forall i :: 0 <= i < |popular| ==> r[i] == Suggestion("popular-" + popular[i].query, popular[i].query, FromPopular(popular[i].count))
  {
    seq(|popular|, i requires 0 <= i < |popular| => Suggestion("popular-" + popular[i].query, popular[i].query, FromPopular(popular[i].count)))
  }

  /** The history items that contain the query. */
  function MatchingHistory(history: seq<string>, query: string): seq<string> {
    Filter(history, item => Matches(item, query))
  }

  /** The suggestions of the filter callback and whether they are shown:
      for a non-empty query, up to eight matching surveys followed by every
      matching history item; for the empty query, none, hidden. */
  function TypedSuggestions(surveys: seq<Survey>, history: seq<string>, query: string): (seq<Suggestion>, bool) {
    if |query| > 0 then
      (Take(SurveySuggestions(FilterByTitle(surveys, query)), 8) + HistorySuggestions(MatchingHistory(history, query)), true)
    else ([], false)
  }

  lemma TypedSuggestionsShape(surveys: seq<Survey>, history: seq<string>, query: string)
    ensures var (suggestions, shown) := TypedSuggestions(surveys, history, query);
      var matched := FilterByTitle(surveys, query);
      var n := if |matched| <= 8 then |matched| else 8;
      var items := MatchingHistory(history, query);
      (shown <==> |query| > 0)
      && (|query| == 0 ==> suggestions == [])
      && (|query| > 0 ==>
            |suggestions| == n + |items|
            && (forall i :: 0 <= i < n ==> suggestions[i] == Suggestion(matched[i].id, matched[i].title, SurveyMatch(matched[i].status)))
            && (forall j :: 0 <= j < |items| ==> suggestions[n + j] == Suggestion("history-" + items[j], items[j], FromHistory)))
  {
  }

  /** A history item is suggested exactly when it contains the query. */
  lemma MatchingHistoryExact(history: seq<string>, query: string, item: string)
    ensures item in MatchingHistory(history, query) <==> item in history && Matches(item, query)
  {
    FilterMembers(history, x => Matches(x, query), item);
  }

  /** The suggestions of `handleSearchFocus` for the empty query: up to
      three history items, then up to three popular searches. */
  function FocusSuggestions(history: seq<string>, popular: seq<PopularSearch>): seq<Suggestion> {
    HistorySuggestions(Take(history, 3)) + PopularSuggestions(Take(popular, 3))
  }

  lemma FocusSuggestionsShape(history: seq<string>, popular: seq<PopularSearch>)
    ensures var r := FocusSuggestions(history, popular);
      var h := if |history| <= 3 then |history| else 3;
      var p := if |popular| <= 3 then |popular| else 3;
      |r| == h + p && |r| <= 6
      && (forall i :: 0 <= i < h ==> r[i] == Suggestion("history-" + history[i], history[i], FromHistory))
      && (forall j :: 0 <= j < p ==> r[h + j] == Suggestion("popular-" + popular[j].query, popular[j].query, FromPopular(popular[j].count)))
      && (r != [] <==> history != [] || popular != [])
  {
    var hs := HistorySuggestions(Take(history, 3));
    var ps := PopularSuggestions(Take(popular, 3));
    var r := hs + ps;
    assert forall j :: 0 <= j < |ps| ==> r[|hs| + j] == ps[j];
  }

  // ----- search history and popular searches -----

  /** The history after saving `query`: the query first, then the old
      history without it, at most ten items. */
  function UpdatedHistory(history: seq<string>, query: string): seq<string> {
    Take([query] + Filter(history, item => item != query), 10)
  }

  /** The saved query heads the history and occurs there once; the rest is
      a prefix of the old history with the query removed. */
  lemma UpdatedHistoryFacts(history: seq<string>, query: string)
    ensures var r := UpdatedHistory(history, query);
      var rest := Filter(history, item => item != query);
      |r| == (if 1 + |rest| <= 10 then 1 + |rest| else 10) && r[0] == query
      && (forall i :: 1 <= i < |r| ==> r[i] != query)
      && r[1..] == rest[..|r| - 1]
      && (forall x :: x in r ==> x == query || x in history)
  {
    var rest := Filter(history, item => item != query);
    var r := UpdatedHistory(history, query);
    FilterAllPass(history, item => item != query);
    assert forall i :: 1 <= i < |r| ==> r[i] == rest[i - 1];
    forall x | x in r && x != query ensures x in history {
      var i :| 0 <= i < |r| && r[i] == x;
      assert x in rest;
      FilterMembers(history, item => item != query, x);
    }
  }

  /** Saving a query that heads the history already leaves a history of
      at most ten items unchanged. */
  lemma SavingHeadAgain(history: seq<string>, query: string)
    requires history != [] && history[0] == query && |history| <= 10
    requires forall i :: 1 <= i < |history| ==> history[i] != query
    ensures UpdatedHistory(history, query) == history
  {
    var p := (item: string) => item != query;
    assert !p(history[0]);
    assert Filter(history, p) == Filter(history[1..], p);
    assert forall i :: 0 <= i < |history[1..]| ==> p(history[1..][i]);
    FilterIdentity(history[1..], p);
    assert [query] + history[1..] == history;
  }

  function PopularCount(p: PopularSearch): int {
    p.count
  }

  /** `popular.findIndex(item => item.query === query)`. */
  function FindQuery(popular: seq<PopularSearch>, query: string): (r: Option<nat>)
    ensures r.Some? ==> r.value < |popular| && popular[r.value].query == query
                        && forall j :: 0 <= j < r.value ==> popular[j].query != query
    ensures r.None? ==> forall j :: 0 <= j < |popular| ==> popular[j].query != query
  {
    if popular == [] then None
    else if popular[0].query == query then Some(0)
    else match FindQuery(popular[1..], query)
      case None => None
      case Some(i) => Some(i + 1)
  }

  /** The stored table after counting `query` once more: the first entry
      for it goes up by one, or a new entry with count 1 is appended. */
  function Bump(popular: seq<PopularSearch>, query: string): seq<PopularSearch> {
    match FindQuery(popular, query)
    case Some(i) => popular[i := popular[i].(count := popular[i].count + 1)]
    case None => popular + [PopularSearch(query, 1)]
  }

  lemma SumByUpdate(s: seq<PopularSearch>, i: nat, x: PopularSearch)
    requires i < |s|
    ensures SumBy(s[i := x], PopularCount) == SumBy(s, PopularCount) - s[i].count + x.count
  {
    assert s == s[..i] + [s[i]] + s[i + 1..];
    assert s[i := x] == s[..i] + [x] + s[i + 1..];
    SumByAppend(s[..i] + [s[i]], s[i + 1..], PopularCount);
    SumByAppend(s[..i], [s[i]], PopularCount);
    SumByAppend(s[..i] + [x], s[i + 1..], PopularCount);
    SumByAppend(s[..i], [x], PopularCount);
  }

  /** Counting a query adds exactly one to the table's total, and the
      query's entry afterwards counts one more than before (or one). */
  lemma BumpCounts(popular: seq<PopularSearch>, query: string)
    ensures SumBy(Bump(popular, query), PopularCount) == SumBy(popular, PopularCount) + 1
    ensures match FindQuery(popular, query)
      case Some(i) => |Bump(popular, query)| == |popular| && Bump(popular, query)[i] == PopularSearch(query, popular[i].count + 1)
                      && forall j :: 0 <= j < |popular| && j != i ==> Bump(popular, query)[j] == popular[j]
      case None => Bump(popular, query) == popular + [PopularSearch(query, 1)]
  {
    match FindQuery(popular, query)
    case Some(i) =>
      SumByUpdate(popular, i, popular[i].(count := popular[i].count + 1));
    case None =>
      SumByAppend(popular, [PopularSearch(query, 1)], PopularCount);
  }

  /** The stored table after saving `query`: counted, stably sorted by
      count descending, cut to five. */
  function UpdatedPopular(popular: seq<PopularSearch>, query: string): seq<PopularSearch> {
    Take(SortDesc(Bump(popular, query), PopularCount), 5)
  }

  /** The new table is the top five of the counted table: the whole table
      sorted by descending count (a permutation that keeps entries with
      equal counts in their stored order), cut to its first five entries. */
  lemma UpdatedPopularFacts(popular: seq<PopularSearch>, query: string, c: int)
    ensures var r := UpdatedPopular(popular, query);
      var sorted := SortDesc(Bump(popular, query), PopularCount);
      var counted := Bump(popular, query);
      |r| == (if |counted| <= 5 then |counted| else 5) && r == sorted[..|r|]
      && SortedDesc(sorted, PopularCount) && SortedDesc(r, PopularCount)
      && multiset(sorted) == multiset(Bump(popular, query))
      && WithKey(sorted, PopularCount, c) == WithKey(Bump(popular, query), PopularCount, c)
  {
    var sorted := SortDesc(Bump(popular, query), PopularCount);
    SortDescSorted(Bump(popular, query), PopularCount);
    SortDescStable(Bump(popular, query), PopularCount, c);
    assert |sorted| == |multiset(sorted)| == |Bump(popular, query)|;
  }

  // ----- pagination -----

  /** `Math.ceil(totalCount / perPage)`. */
  function LastPage(total: nat, perPage: nat): nat
    requires perPage > 0
  {
    (total + perPage - 1) / perPage
  }

  /** The last page is the least number of pages that holds every survey. */
  lemma LastPageIsCeiling(total: nat, perPage: nat)
    requires perPage > 0
    ensures total <= LastPage(total, perPage) * perPage
    ensures LastPage(total, perPage) == 0 || (LastPage(total, perPage) - 1) * perPage < total
  {
    var n := total + perPage - 1;
    var q := n / perPage;
    var r := n % perPage;
    assert n == q * perPage + r && 0 <= r < perPage;
    assert total == q * perPage + r - perPage + 1;
    if q > 0 {
      assert (q - 1) * perPage == q * perPage - perPage;
    }
  }

  /** First and Previous are disabled on page 1, Next and Last on the last page. */
  datatype Controls = Controls(first: bool, previous: bool, next: bool, last: bool)

  function DisabledControls(page: nat, total: nat, perPage: nat): (c: Controls)
    requires perPage > 0
    ensures c.first == c.previous && c.next == c.last
  {
    var onFirst := page == 1;
    var onLast := page == LastPage(total, perPage);
    Controls(onFirst, onFirst, onLast, onLast)
  }

  /** From a page within range, the enabled buttons lead to pages within range. */
  lemma ControlsStayInRange(page: nat, total: nat, perPage: nat)
    requires perPage > 0 && 1 <= page <= LastPage(total, perPage)
    ensures var c := DisabledControls(page, total, perPage);
      (!c.previous ==> 1 <= page - 1) && (!c.next ==> page + 1 <= LastPage(total, perPage))
  {
  }

  /** With no surveys the last page is 0, so on page 1 Next and Last stay
      enabled and lead to pages 2 and 0, both out of range. The list view
      hides the whole bar while the filtered list is empty, so these pages
      are reached only when the total and the shown list disagree. */
  lemma NoSurveysEnablesNext(perPage: nat)
    requires perPage > 0
    ensures LastPage(0, perPage) == 0
    ensures var c := DisabledControls(1, 0, perPage);
      c.first && c.previous && !c.next && !c.last
  {
  }

  // ----- the view -----

  /** `res.data.data` and `res.data.total` of the survey list request. */
  datatype SurveyPage = SurveyPage(data: seq<Survey>, total: nat)

  /** The state of the dashboard, with the two local-storage entries it uses. */
  class DashboardView {
    var surveys: seq<Survey>
    var filteredSurveys: seq<Survey>
    var loading: bool
    var error: Option<string>
    var searchQuery: string
    var statusFilter: string
    var page: nat
    var perPage: nat
    var totalCount: nat
    var searchSuggestions: seq<Suggestion>
    var showSuggestions: bool
    var searchHistory: seq<string>
    var popularSearches: seq<PopularSearch>
    var storedHistory: seq<string>
    var storedPopular: seq<PopularSearch>

    predicate Valid()
      reads this`perPage
    {
      perPage > 0
    }

    /** The initial state; the stored lists default to `[]`. */
    constructor(savedHistory: seq<string>, savedPopular: seq<PopularSearch>)
      ensures Valid()
      ensures surveys == [] && filteredSurveys == [] && loading && error == None
      ensures searchQuery == "" && statusFilter == "All" && page == 1 && perPage == 10 && totalCount == 0
      ensures searchSuggestions == [] && !showSuggestions && searchHistory == [] && popularSearches == []
      ensures storedHistory == savedHistory && storedPopular == savedPopular
    {
      surveys, filteredSurveys, loading, error := [], [], true, None;
      searchQuery, statusFilter, page, perPage, totalCount := "", "All", 1, 10, 0;
      searchSuggestions, showSuggestions, searchHistory, popularSearches := [], false, [], [];
      storedHistory, storedPopular := savedHistory, savedPopular;
    }

    /** The mount effect: the last five searches and the top three popular ones. */
    method LoadSavedSearches()
      modifies this`searchHistory, this`popularSearches
      ensures searchHistory == Take(storedHistory, 5) && popularSearches == Take(storedPopular, 3)
      ensures |searchHistory| <= 5 && |popularSearches| <= 3
    {
      searchHistory := Take(storedHistory, 5);
      popularSearches := Take(storedPopular, 3);
    }

    /** The start of the survey list request for the current page. */
    method RequestSurveys()
      modifies this`loading
      ensures loading
    {
      loading := true;
    }

    /** The settled survey list request; `None` when it failed. */
    method SurveysLoaded(result: Option<SurveyPage>)
      modifies this`surveys, this`filteredSurveys, this`totalCount, this`loading, this`error
      ensures !loading
      ensures result.Some? ==> surveys == result.value.data && filteredSurveys == result.value.data
                               && totalCount == result.value.total && error == old(error)
      ensures result.None? ==> error == Some("Failed to load surveys.")
                               && surveys == old(surveys) && filteredSurveys == old(filteredSurveys) && totalCount == old(totalCount)
    {
      if result.Some? {
        surveys := result.value.data;
        filteredSurveys := result.value.data;
        totalCount := result.value.total;
      } else {
        error := Some("Failed to load surveys.");
      }
      loading := false;
    }

    /** The body of the debounced filter. */
    method FilterSurveys(query: string)
      modifies this`filteredSurveys, this`searchSuggestions, this`showSuggestions
      ensures filteredSurveys == FilterByTitle(surveys, query)
      ensures (searchSuggestions, showSuggestions) == TypedSuggestions(surveys, searchHistory, query)
    {
      filteredSurveys := FilterByTitle(surveys, query);
      if |query| > 0 {
        var suggestions := Take(SurveySuggestions(FilterByTitle(surveys, query)), 8);
        var historySuggestions := HistorySuggestions(MatchingHistory(searchHistory, query));
        searchSuggestions := suggestions + historySuggestions;
        showSuggestions := true;
      } else {
        searchSuggestions := [];
        showSuggestions := false;
      }
    }

    /** `saveSearchToHistory`: a blank query changes nothing; otherwise the
        history and the stored popular table are updated and written back. */
    method SaveSearchToHistory(query: string)
      modifies this`searchHistory, this`storedHistory, this`popularSearches, this`storedPopular
      ensures IsBlank(query) ==> searchHistory == old(searchHistory) && storedHistory == old(storedHistory)
                                 && popularSearches == old(popularSearches) && storedPopular == old(storedPopular)
      ensures !IsBlank(query) ==>
        searchHistory == UpdatedHistory(old(searchHistory), query) && storedHistory == searchHistory
        && popularSearches == UpdatedPopular(old(storedPopular), query) && storedPopular == popularSearches
    {
      if IsBlank(query) {
        return;
      }
      var newHistory := UpdatedHistory(searchHistory, query);
      searchHistory := newHistory;
      storedHistory := newHistory;
      var popular := storedPopular;
      var existingIndex := FindQuery(popular, query);
      if existingIndex.Some? {
        var i := existingIndex.value;
        popular := popular[i := popular[i].(count := popular[i].count + 1)];
      } else {
        popular := popular + [PopularSearch(query, 1)];
      }
      var sortedPopular := Take(SortDesc(popular, PopularCount), 5);
      popularSearches := sortedPopular;
      storedPopular := sortedPopular;
    }

    /** `handleSearchSubmit`: a non-blank query is saved trimmed, the
        suggestions are hidden and the query becomes the search text; the
        filter it schedules is a later `FilterSurveys` call. */
    method HandleSearchSubmit(query: string)
      modifies this`searchHistory, this`storedHistory, this`popularSearches, this`storedPopular
      modifies this`showSuggestions, this`searchQuery
      ensures IsBlank(query) ==> searchHistory == old(searchHistory) && storedHistory == old(storedHistory)
                                 && popularSearches == old(popularSearches) && storedPopular == old(storedPopular)
                                 && showSuggestions == old(showSuggestions) && searchQuery == old(searchQuery)
      ensures !IsBlank(query) ==>
        searchHistory == UpdatedHistory(old(searchHistory), Trim(query)) && storedHistory == searchHistory
        && popularSearches == UpdatedPopular(old(storedPopular), Trim(query)) && storedPopular == popularSearches
        && !showSuggestions && searchQuery == query
    {
      if !IsBlank(query) {
        SaveSearchToHistory(Trim(query));
        showSuggestions := false;
        searchQuery := query;
      }
    }

    /** `handleSuggestionClick`: a survey suggestion leads to that survey's
        page; any other submits its text as the search. Either way the
        suggestions are hidden. */
    method HandleSuggestionClick(suggestion: Suggestion)
      modifies this`searchHistory, this`storedHistory, this`popularSearches, this`storedPopular
      modifies this`showSuggestions, this`searchQuery
      ensures !showSuggestions
      ensures suggestion.kind.SurveyMatch? ==>
        searchHistory == old(searchHistory) && storedHistory == old(storedHistory)
        && popularSearches == old(popularSearches) && storedPopular == old(storedPopular) && searchQuery == old(searchQuery)
      ensures !suggestion.kind.SurveyMatch? ==> searchQuery == suggestion.title
      ensures !suggestion.kind.SurveyMatch? && IsBlank(suggestion.title) ==>
        searchHistory == old(searchHistory) && storedHistory == old(storedHistory)
        && popularSearches == old(popularSearches) && storedPopular == old(storedPopular)
      ensures !suggestion.kind.SurveyMatch? && !IsBlank(suggestion.title) ==>
        searchHistory == UpdatedHistory(old(searchHistory), Trim(suggestion.title)) && storedHistory == searchHistory
        && popularSearches == UpdatedPopular(old(storedPopular), Trim(suggestion.title)) && storedPopular == popularSearches
    {
      if !suggestion.kind.SurveyMatch? {
        searchQuery := suggestion.title;
        HandleSearchSubmit(suggestion.title);
      }
      showSuggestions := false;
    }

    /** `handleSearchChange`: the typed text becomes the search text; the
        filter it schedules is a later `FilterSurveys` call. */
    method HandleSearchChange(query: string)
      modifies this`searchQuery
      ensures searchQuery == query
    {
      searchQuery := query;
    }

    /** `clearSearch`. */
    method ClearSearch()
      modifies this`searchQuery, this`filteredSurveys, this`showSuggestions
      ensures searchQuery == "" && filteredSurveys == surveys && !showSuggestions
    {
      searchQuery := "";
      filteredSurveys := surveys;
      showSuggestions := false;
    }

    /** `clearSearchHistory`: the removed storage entry reads back as `[]`. */
    method ClearSearchHistory()
      modifies this`searchHistory, this`storedHistory, this`showSuggestions
      ensures searchHistory == [] && storedHistory == [] && !showSuggestions
    {
      searchHistory := [];
      storedHistory := [];
      showSuggestions := false;
    }

    /** `handleSearchFocus`. */
    method HandleSearchFocus()
      modifies this`searchSuggestions, this`showSuggestions
      ensures |searchQuery| == 0 ==> searchSuggestions == FocusSuggestions(searchHistory, popularSearches)
                                     && (showSuggestions <==> searchSuggestions != [])
      ensures |searchQuery| > 0 ==> searchSuggestions == old(searchSuggestions) && showSuggestions == old(showSuggestions)
    {
      if |searchQuery| == 0 {
        var suggestions := FocusSuggestions(searchHistory, popularSearches);
        searchSuggestions := suggestions;
        showSuggestions := |suggestions| > 0;
      }
    }

    /** `handleStatusChange`. */
    method HandleStatusChange(status: string)
      modifies this`statusFilter, this`filteredSurveys
      ensures statusFilter == status && filteredSurveys == StatusFiltered(surveys, status)
    {
      statusFilter := status;
      if status == "All" {
        filteredSurveys := surveys;
      } else {
        filteredSurveys := Filter(surveys, (s: Survey) => s.status == status);
      }
    }

    /** `handlePerPageChange`: a new page size restarts at page 1. */
    method HandlePerPageChange(size: nat)
      requires size > 0
      modifies this`perPage, this`page
      ensures Valid() && perPage == size && page == 1
    {
      perPage := size;
      page := 1;
    }

    /** `handlePageChange`. */
    method HandlePageChange(newPage: nat)
      modifies this`page
      ensures page == newPage
    {
      page := newPage;
    }

    /** The disabled state of the four pagination buttons. */
    function Disabled(): Controls
      requires Valid()
      reads this`perPage, this`page, this`totalCount
    {
      DisabledControls(page, totalCount, perPage)
    }
  }
}
