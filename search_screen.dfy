/** The search tab: a query field and tag chips drive a debounced search; a
    popular list is loaded once on mount; the list shown depends on whether
    any filter is active. */
module SearchScreen {
  import opened Wrappers
  import opened Documents
  import opened Text
  import opened Seqs
  import CafeService

  /** `searchCafes(searchQuery, selectedTags, 20)` */
  const SearchLimit: nat := 20
  /** `getPopularCafes(10)` */
  const PopularLimit: nat := 10
  /** Tags shown on a card before the `+n` counter. */
  const ChipLimit: nat := 3

  /** A query or at least one tag is active. */
  predicate Filtering(query: string, tags: seq<string>) {
    query != [] || |tags| > 0
  }

  /** The tag row of a café card: the first three tags, and `+n` for the rest. */
  datatype Chips = Chips(shown: seq<string>, more: Option<string>)

  function TagChips(tags: Option<seq<string>>): (r: Chips)
    ensures tags.None? ==> r == Chips([], None)
    ensures tags.Some? ==> r.shown <= tags.value && |r.shown| == if |tags.value| < ChipLimit then |tags.value| else ChipLimit
    ensures r.more.Some? <==> tags.Some? && |tags.value| > ChipLimit
    ensures r.more.Some? ==> r.more.value == "+" + Digits(|tags.value| - ChipLimit)
  {
    match tags
    case None => Chips([], None)
    case Some(ts) =>
      Chips(Take(ts, ChipLimit), if |ts| > ChipLimit then Some("+" + Digits(|ts| - ChipLimit)) else None)
  }

  /** The chips never hide a tag without counting it: shown tags plus the
      counter's number is the number of tags. */
  lemma ChipsAccountForEveryTag(ts: seq<string>)
    ensures var r := TagChips(Some(ts));
      |r.shown| + (if r.more.Some? then |ts| - ChipLimit else 0) == |ts|
  {
  }

  /** The screen's state variables, as one value. */
  datatype ViewState = ViewState(
    searchQuery: string,
    selectedTags: seq<string>,
    cafes: seq<Cafe>,
    loading: bool,
    popularCafes: seq<Cafe>)

  class SearchView {
    var searchQuery: string
    var selectedTags: seq<string>
    var cafes: seq<Cafe>
    var loading: bool
    var popularCafes: seq<Cafe>

    function State(): ViewState
      reads this
    {
      ViewState(searchQuery, selectedTags, cafes, loading, popularCafes)
    }

    /** `displayCafes`: the search results while filtering, else the popular list. */
    function DisplayCafes(): (r: seq<Cafe>)
      reads this
      ensures Filtering(searchQuery, selectedTags) ==> r == cafes
      ensures !Filtering(searchQuery, selectedTags) ==> r == popularCafes
    {
      if searchQuery != [] || |selectedTags| > 0 then cafes else popularCafes
    }

    constructor ()
      ensures State() == ViewState([], [], [], false, [])
    {
      searchQuery, selectedTags, cafes, loading, popularCafes := [], [], [], false, [];
    }

    /** `onChangeText={setSearchQuery}` */
    method SetQuery(text: string)
      modifies this
      ensures State() == old(State()).(searchQuery := text)
    {
      searchQuery := text;
    }

    /** `toggleTag(tag)` */
    method ToggleTag(tag: string)
      modifies this
      ensures State() == old(State()).(selectedTags := Toggle(old(selectedTags), tag))
      ensures tag in selectedTags <==> tag !in old(selectedTags)
      ensures forall t :: t != tag ==> (t in selectedTags <==> t in old(selectedTags))
    {
      selectedTags := Toggle(selectedTags, tag);
    }

    /** The timer callback of the effect on `[searchQuery, selectedTags]`,
        500 ms after the last change: a search with limit 20 when a filter is
        active (a failed search leaves the results as they were), otherwise
        the results are cleared. */
    method DebouncedSearch(docs: seq<Cafe>, queryError: Option<string>)
      modifies this
      ensures Filtering(searchQuery, selectedTags) ==>
        var found := if searchQuery != [] then CafeService.NameQuery(docs, searchQuery, SearchLimit)
                     else CafeService.AverageQuery(docs, SearchLimit);
        State() == old(State()).(
          cafes := if queryError.None? then CafeService.TagFilter(found, selectedTags) else old(cafes),
          loading := false)
      ensures !Filtering(searchQuery, selectedTags) ==> State() == old(State()).(cafes := [])
      ensures !Filtering(searchQuery, selectedTags) ==> DisplayCafes() == popularCafes
      ensures Filtering(searchQuery, selectedTags) && queryError.None? ==>
        forall c :: c in DisplayCafes() ==> c in docs && (|selectedTags| > 0 ==> CafeService.HasAnyTag(c, selectedTags))
    {
      if searchQuery != [] || |selectedTags| > 0 {
        loading := true;
        var result := CafeService.SearchCafes(docs, searchQuery, selectedTags, SearchLimit, queryError);
        if result.Success? {
          cafes := result.value;
          if searchQuery != [] {
            CafeService.NameQueryResult(docs, searchQuery, SearchLimit);
          } else {
            CafeService.AverageQueryResult(docs, SearchLimit);
          }
          CafeService.TagFilterKeepsMatches(result.value, selectedTags);
        }
        loading := false;
      } else {
        cafes := [];
      }
    }

    /** `loadPopularCafes()`, run by the mount effect. Its closure sees the
        query and tags of the render that created it, passed here as
        `seenQuery` and `seenTags`; for the mount effect those are "" and [],
        so the popular list is copied into the results whatever has been
        typed since. A failed query changes no list. */
    method LoadPopular(docs: seq<Cafe>, queryError: Option<string>, seenQuery: string, seenTags: seq<string>)
      modifies this
      ensures var popular := CafeService.PopularQuery(docs, PopularLimit);
        State() == old(State()).(
          popularCafes := if queryError.None? then popular else old(popularCafes),
          cafes := if queryError.None? && !Filtering(seenQuery, seenTags) then popular else old(cafes),
          loading := false)
      ensures queryError.None? ==> |popularCafes| <= PopularLimit
    {
      loading := true;
      var result := CafeService.GetPopularCafes(docs, PopularLimit, queryError);
      if result.Success? {
        popularCafes := result.value;
        if seenQuery == [] && |seenTags| == 0 {
          cafes := result.value;
        }
      }
      loading := false;
    }

    /** `loadPopularCafes()` with its check reading the state at the time the
        answer arrives: results of an active search are never replaced. */
    method LoadPopularFresh(docs: seq<Cafe>, queryError: Option<string>)
      modifies this
      ensures var popular := CafeService.PopularQuery(docs, PopularLimit);
        State() == old(State()).(
          popularCafes := if queryError.None? then popular else old(popularCafes),
          cafes := if queryError.None? && !Filtering(searchQuery, selectedTags) then popular else old(cafes),
          loading := false)
      ensures Filtering(searchQuery, selectedTags) ==> DisplayCafes() == old(DisplayCafes())
    {
      LoadPopular(docs, queryError, searchQuery, selectedTags);
    }
  }

  /** Mounting, typing a query whose search completes, and then receiving the
      popular list: the check on the query in `loadPopularCafes` reads the
      mount-time value, so the popular list overwrites the search results and
      is what the screen shows while the query is still active. */
  method PopularArrivesAfterSearch(docs: seq<Cafe>, query: string) returns (shown: seq<Cafe>, filtering: bool)
    requires query != []
    ensures filtering
    ensures shown == CafeService.PopularQuery(docs, PopularLimit)
  {
    var view := new SearchView();
    view.SetQuery(query);
    view.DebouncedSearch(docs, None);
    view.LoadPopular(docs, None, [], []);
    shown := view.DisplayCafes();
    filtering := Filtering(view.searchQuery, view.selectedTags);
  }

  /** The same sequence when the check reads the current query: the search
      results stay on screen. */
  method PopularArrivesAfterSearchFixed(docs: seq<Cafe>, query: string) returns (shown: seq<Cafe>, filtering: bool)
    requires query != []
    ensures filtering
    ensures shown == CafeService.NameQuery(docs, query, SearchLimit)
  {
    var view := new SearchView();
    view.SetQuery(query);
    view.DebouncedSearch(docs, None);
    view.LoadPopularFresh(docs, None);
    shown := view.DisplayCafes();
    filtering := Filtering(view.searchQuery, view.selectedTags);
  }
}
