/** The news store: every reducer as a total function on `NewsState`, the
    three `fetchNews` lifecycle transitions, the `condition` that gates a
    fetch, and the invariants every action keeps. */
module NewsSlice {
  import opened Wrappers
  import opened Text
  import opened NewsTypes
  import opened Favorites

  /** The message stored when a fetch is rejected without one. */
  const DefaultFetchError := "Failed to fetch news"

  /** The shortest trimmed search that fetches; the gate writes the literal
      3 rather than reading the configured minimum. */
  const MinSearchLength := 3

  datatype Action =
    | SetSearch(search: string)
    | ClearSearch
    | ToggleSource(source: NewsSource)
    | ToggleCategory(category: Category)
    | SetDateRange(from: Option<string>, to: Option<string>)
    | ResetFilters
    | SetActiveTab(tab: TabType)
    | ToggleFavorite(kind: FavoriteType, article: Article)
    | ToggleMobileMenu
    | ToggleSearch
    | FetchPending
    | FetchFulfilled(payload: seq<Article>)
    | FetchRejected(message: Option<string>)

  // ------------------------------------------------------ frame predicates

  predicate SameFavorites(s: NewsState, r: NewsState) {
    && r.favoriteAuthors == s.favoriteAuthors
    && r.favoriteCategories == s.favoriteCategories
    && r.favoriteSources == s.favoriteSources
  }

  predicate SameUi(s: NewsState, r: NewsState) {
    r.activeTab == s.activeTab && r.isMobileMenuOpen == s.isMobileMenuOpen && r.isSearchOpen == s.isSearchOpen
  }

  predicate SameFetch(s: NewsState, r: NewsState) {
    r.articles == s.articles && r.isLoading == s.isLoading && r.error == s.error
  }

  /** Everything but the filters is as before. */
  predicate OnlyFiltersChanged(s: NewsState, r: NewsState) {
    SameFavorites(s, r) && SameUi(s, r) && SameFetch(s, r)
  }

  /** Everything but the articles, the loading flag and the error is as before. */
  predicate OnlyFetchChanged(s: NewsState, r: NewsState) {
    r.filters == s.filters && SameFavorites(s, r) && SameUi(s, r)
  }

  // ------------------------------------------------------------ reducers

  /** `setSearch`: the search text is replaced; nothing else changes. */
  function SetSearchReducer(s: NewsState, search: string): (r: NewsState)
    ensures r.filters.search == search
    ensures r.filters.sources == s.filters.sources && r.filters.categories == s.filters.categories
    ensures r.filters.dateFrom == s.filters.dateFrom && r.filters.dateTo == s.filters.dateTo
    ensures OnlyFiltersChanged(s, r)
  {
    s.(filters := s.filters.(search := search))
  }

  /** `toggleSource`: despite its name, the source list becomes exactly the
      one chosen source, whatever it held. */
  function ToggleSourceReducer(s: NewsState, source: NewsSource): (r: NewsState)
    ensures r.filters.sources == [SourceKey(source)]
    ensures r.filters.search == s.filters.search && r.filters.categories == s.filters.categories
    ensures r.filters.dateFrom == s.filters.dateFrom && r.filters.dateTo == s.filters.dateTo
    ensures OnlyFiltersChanged(s, r)
  {
    s.(filters := s.filters.(sources := [SourceKey(source)]))
  }

  /** `toggleCategory`: the category list becomes exactly the one chosen
      category. */
  function ToggleCategoryReducer(s: NewsState, category: Category): (r: NewsState)
    ensures r.filters.categories == [category]
    ensures r.filters.search == s.filters.search && r.filters.sources == s.filters.sources
    ensures r.filters.dateFrom == s.filters.dateFrom && r.filters.dateTo == s.filters.dateTo
    ensures OnlyFiltersChanged(s, r)
  {
    s.(filters := s.filters.(categories := [category]))
  }

  /** `setDateRange`: both dates are replaced, an absent one clearing the date. */
  function SetDateRangeReducer(s: NewsState, from: Option<string>, to: Option<string>): (r: NewsState)
    ensures r.filters.dateFrom == from && r.filters.dateTo == to
    ensures r.filters.search == s.filters.search && r.filters.sources == s.filters.sources
    ensures r.filters.categories == s.filters.categories
    ensures OnlyFiltersChanged(s, r)
  {
    s.(filters := s.filters.(dateFrom := from, dateTo := to))
  }

  /** `toggleFavorite`: the list of the given kind is toggled by id; the
      other two lists and every other field are unchanged. */
  function ToggleFavoriteReducer(s: NewsState, kind: FavoriteType, a: Article): (r: NewsState)
    ensures HasId(FavoritesOf(s, kind), a.id) ==>
              FavoritesOf(r, kind) == RemoveFirst(FavoritesOf(s, kind), a.id)
    ensures !HasId(FavoritesOf(s, kind), a.id) ==> FavoritesOf(r, kind) == FavoritesOf(s, kind) + [a]
    ensures forall k :: k != kind ==> FavoritesOf(r, k) == FavoritesOf(s, k)
    ensures r.filters == s.filters && SameUi(s, r) && SameFetch(s, r)
  {
    WithFavorites(s, kind, Toggle(FavoritesOf(s, kind), a))
  }

  /** The fetch lifecycle transitions. `pending` raises the loading flag and
      clears the error; `fulfilled` lowers it, stores the payload and clears
      the error; `rejected` lowers it, empties the articles and stores the
      message, or the default one when the message is absent or empty. */
  function FetchReducer(s: NewsState, a: Action): (r: NewsState)
    requires a.FetchPending? || a.FetchFulfilled? || a.FetchRejected?
    ensures OnlyFetchChanged(s, r)
    ensures a.FetchPending? ==> r.isLoading && r.error == None && r.articles == s.articles
    ensures a.FetchFulfilled? ==> !r.isLoading && r.error == None && r.articles == a.payload
    ensures a.FetchRejected? ==> !r.isLoading && r.articles == []
    ensures a.FetchRejected? && a.message.Some? && a.message.value != "" ==> r.error == a.message
    ensures a.FetchRejected? && (a.message.None? || a.message.value == "") ==>
              r.error == Some(DefaultFetchError)
  {
    match a
    case FetchPending => s.(isLoading := true, error := None)
    case FetchFulfilled(payload) => s.(isLoading := false, articles := payload, error := None)
    case FetchRejected(message) =>
      var text := if message.Some? && message.value != "" then message.value else DefaultFetchError;
      s.(isLoading := false, error := Some(text), articles := [])
  }

  /** The slice reducer: one action applied to one state. */
  function Reduce(s: NewsState, a: Action): NewsState {
    match a
    case SetSearch(search) => SetSearchReducer(s, search)
    case ClearSearch => SetSearchReducer(s, "")
    case ToggleSource(source) => ToggleSourceReducer(s, source)
    case ToggleCategory(category) => ToggleCategoryReducer(s, category)
    case SetDateRange(from, to) => SetDateRangeReducer(s, from, to)
    case ResetFilters => s.(filters := InitialFilters)
    case SetActiveTab(tab) => s.(activeTab := tab)
    case ToggleFavorite(kind, article) => ToggleFavoriteReducer(s, kind, article)
    case ToggleMobileMenu => s.(isMobileMenuOpen := !s.isMobileMenuOpen)
    case ToggleSearch => s.(isSearchOpen := !s.isSearchOpen)
    case FetchPending => FetchReducer(s, a)
    case FetchFulfilled(_) => FetchReducer(s, a)
    case FetchRejected(_) => FetchReducer(s, a)
  }

  /** The state after a sequence of actions, applied in order. */
  function Run(s: NewsState, actions: seq<Action>): NewsState
    decreases |actions|
  {
    if actions == [] then s else Run(Reduce(s, actions[0]), actions[1..])
  }

  predicate IsFilterAction(a: Action) {
    a.SetSearch? || a.ClearSearch? || a.ToggleSource? || a.ToggleCategory? || a.SetDateRange? || a.ResetFilters?
  }

  // ------------------------------------------------------ the fetch gate

  /** `fetchNews`'s `condition`: the trimmed search is empty or at least
      three UTF-16 code units long. */
  predicate FetchAllowed(search: string) {
    var q := Trim(search);
    q == "" || Utf16Length(q) >= MinSearchLength
  }

  // -------------------------------------------------------------- lemmas

  /** The filter reducers only ever touch the filters. */
  lemma FilterActionsOnlyChangeFilters(s: NewsState, a: Action)
    requires IsFilterAction(a)
    ensures OnlyFiltersChanged(s, Reduce(s, a))
  {
  }

  /** `resetFilters` restores exactly the initial filters from any state and
      leaves every other field alone. */
  lemma ResetFiltersRestoresInitial(s: NewsState)
    ensures Reduce(s, ResetFilters).filters == Filters("", ["newsapi", "guardian", "nytimes"], [General], None, None)
    ensures OnlyFiltersChanged(s, Reduce(s, ResetFilters))
  {
  }

  /** Whatever a filter action did is undone by `resetFilters`. */
  lemma ResetUndoesFilterActions(s: NewsState, a: Action)
    requires IsFilterAction(a)
    ensures Reduce(Reduce(s, a), ResetFilters) == Reduce(s, ResetFilters)
  {
    FilterActionsOnlyChangeFilters(s, a);
  }

  /** `clearSearch` after `setSearch` leaves what `clearSearch` alone leaves:
      the last write of the search wins. */
  lemma ClearSearchAfterSetSearch(s: NewsState, q: string)
    ensures Reduce(Reduce(s, SetSearch(q)), ClearSearch) == Reduce(s, ClearSearch)
    ensures Reduce(s, ClearSearch).filters.search == ""
  {
  }

  /** `toggleSource` and `toggleCategory` do not toggle: repeating one gives
      the same state as doing it once. */
  lemma ToggleSourceIsNotAToggle(s: NewsState, x: NewsSource, c: Category)
    ensures Reduce(Reduce(s, ToggleSource(x)), ToggleSource(x)) == Reduce(s, ToggleSource(x))
    ensures Reduce(Reduce(s, ToggleCategory(c)), ToggleCategory(c)) == Reduce(s, ToggleCategory(c))
  {
  }

  /** The menu and search-box toggles are involutions. */
  lemma UiTogglesAreInvolutions(s: NewsState)
    ensures Reduce(Reduce(s, ToggleMobileMenu), ToggleMobileMenu) == s
    ensures Reduce(Reduce(s, ToggleSearch), ToggleSearch) == s
  {
  }

  /** Toggling the same article twice into a list where its id is absent
      leaves the whole state as it was. */
  lemma ToggleFavoriteTwiceRestores(s: NewsState, kind: FavoriteType, a: Article)
    requires !HasId(FavoritesOf(s, kind), a.id)
    ensures Reduce(Reduce(s, ToggleFavorite(kind, a)), ToggleFavorite(kind, a)) == s
  {
    ToggleTwiceRestores(FavoritesOf(s, kind), a);
    var once := Reduce(s, ToggleFavorite(kind, a));
    var twice := Reduce(once, ToggleFavorite(kind, a));
    assert FavoritesOf(twice, kind) == FavoritesOf(s, kind);
    match kind
    case Authors => assert twice.favoriteAuthors == s.favoriteAuthors;
    case Categories => assert twice.favoriteCategories == s.favoriteCategories;
    case Sources => assert twice.favoriteSources == s.favoriteSources;
  }

  /** Favourite toggles and filter actions touch disjoint parts of the
      state, so their order does not matter. */
  lemma FavoritesCommuteWithFilters(s: NewsState, a: Action, kind: FavoriteType, x: Article)
    requires IsFilterAction(a)
    ensures Reduce(Reduce(s, a), ToggleFavorite(kind, x)) == Reduce(Reduce(s, ToggleFavorite(kind, x)), a)
  {
    var t := Reduce(s, ToggleFavorite(kind, x));
    assert FavoritesOf(Reduce(s, a), kind) == FavoritesOf(s, kind) by {
      FilterActionsOnlyChangeFilters(s, a);
    }
    FilterActionsOnlyChangeFilters(t, a);
  }

  /** A search whose trimmed length is one or two code units never fetches;
      an empty or whitespace-only one always does. */
  lemma ShortSearchNeverFetches(search: string)
    ensures 1 <= Utf16Length(Trim(search)) <= 2 ==> !FetchAllowed(search)
    ensures AllWhitespace(search) ==> FetchAllowed(search)
    ensures FetchAllowed(search) <==> Trim(search) == "" || Utf16Length(Trim(search)) >= 3
  {
    if AllWhitespace(search) {
      TrimStartOfWhitespace(search);
    }
  }

  /** Whitespace around the search never changes whether it fetches. */
  lemma FetchAllowedIgnoresPadding(p: string, search: string, q: string)
    requires AllWhitespace(p) && AllWhitespace(q)
    ensures FetchAllowed(p + search + q) == FetchAllowed(search)
  {
    TrimIgnoresPadding(p, search, q);
  }

  /** The length counted is JavaScript's: two astral characters (four UTF-16
      code units) fetch, one astral character (two code units) does not. */
  lemma FetchAllowedCountsCodeUnits()
    ensures FetchAllowed("\U{1F600}\U{1F600}")
    ensures !FetchAllowed("\U{1F600}")
  {
    TrimOfUnpadded("\U{1F600}\U{1F600}");
    TrimOfUnpadded("\U{1F600}");
  }

  // ---------------------------------------------------------- invariants

  /** What every state the store reaches satisfies: a first category exists
      (the mappers file articles under it); a loading store shows no error;
      an error is never empty and comes with no articles. */
  predicate Valid(s: NewsState) {
    && |s.filters.categories| > 0
    && (s.isLoading ==> s.error == None)
    && (s.error.Some? ==> s.articles == [] && s.error.value != "")
  }

  lemma InitialStateValid(authors: seq<Article>, categories: seq<Article>, sources: seq<Article>)
    ensures Valid(InitialState(authors, categories, sources))
    ensures !InitialState(authors, categories, sources).isLoading
    ensures InitialState(authors, categories, sources).error == None
  {
  }

  /** Every action keeps the store valid. */
  lemma ReduceKeepsValid(s: NewsState, a: Action)
    requires Valid(s)
    ensures Valid(Reduce(s, a))
  {
  }

  lemma SameFavoritesSameLists(s: NewsState, r: NewsState)
    requires SameFavorites(s, r)
    ensures forall k :: FavoritesOf(r, k) == FavoritesOf(s, k)
  {
    forall k ensures FavoritesOf(r, k) == FavoritesOf(s, k) {
      match k
      case Authors =>
      case Categories =>
      case Sources =>
    }
  }

  /** Every action keeps the favourite lists free of duplicate ids. */
  lemma ReduceKeepsFavoritesDistinct(s: NewsState, a: Action)
    requires forall k :: DistinctIds(FavoritesOf(s, k))
    ensures forall k :: DistinctIds(FavoritesOf(Reduce(s, a), k))
  {
    match a {
      case ToggleFavorite(kind, article) =>
        var r := Reduce(s, a);
        forall k ensures DistinctIds(FavoritesOf(r, k)) {
          if k == kind {
            ToggleKeepsIdsDistinct(FavoritesOf(s, k), article);
          }
        }
      case SetSearch(_) => SameFavoritesSameLists(s, Reduce(s, a));
      case ClearSearch => SameFavoritesSameLists(s, Reduce(s, a));
      case ToggleSource(_) => SameFavoritesSameLists(s, Reduce(s, a));
      case ToggleCategory(_) => SameFavoritesSameLists(s, Reduce(s, a));
      case SetDateRange(_, _) => SameFavoritesSameLists(s, Reduce(s, a));
      case ResetFilters => SameFavoritesSameLists(s, Reduce(s, a));
      case SetActiveTab(_) => SameFavoritesSameLists(s, Reduce(s, a));
      case ToggleMobileMenu => SameFavoritesSameLists(s, Reduce(s, a));
      case ToggleSearch => SameFavoritesSameLists(s, Reduce(s, a));
      case FetchPending => SameFavoritesSameLists(s, Reduce(s, a));
      case FetchFulfilled(_) => SameFavoritesSameLists(s, Reduce(s, a));
      case FetchRejected(_) => SameFavoritesSameLists(s, Reduce(s, a));
    }
  }

  /** Every state reached from the initial state is valid, and its favourite
      lists are free of duplicates when the stored ones were. */
  lemma {:induction false} RunKeepsInvariants(s: NewsState, actions: seq<Action>)
    requires Valid(s)
    requires forall k :: DistinctIds(FavoritesOf(s, k))
    ensures Valid(Run(s, actions))
    ensures forall k :: DistinctIds(FavoritesOf(Run(s, actions), k))
    decreases |actions|
  {
    if actions != [] {
      ReduceKeepsValid(s, actions[0]);
      ReduceKeepsFavoritesDistinct(s, actions[0]);
      RunKeepsInvariants(Reduce(s, actions[0]), actions[1..]);
    }
  }

  /** Running two actions is running the first, then the second. */
  lemma RunTwo(s: NewsState, a: Action, b: Action)
    ensures Run(s, [a, b]) == Reduce(Reduce(s, a), b)
  {
    assert [a, b][1..] == [b] && [b][1..] == [];
    assert Run(s, [a, b]) == Run(Reduce(s, a), [b]);
    assert Run(Reduce(s, a), [b]) == Run(Reduce(Reduce(s, a), b), []);
  }

  /** Two fetches in flight, as `fetchNews` is dispatched on every filter
      change: the first to fulfil stops loading while the second is still
      pending, and the feed is whatever fulfils last, even when that is the
      answer to the older query. */
  lemma OverlappingFetchesLastWins(s: NewsState, older: seq<Article>, newer: seq<Article>)
    ensures var inFlight := Run(s, [FetchPending, FetchPending]);
            && !Reduce(inFlight, FetchFulfilled(newer)).isLoading
            && Reduce(Reduce(inFlight, FetchFulfilled(newer)), FetchFulfilled(older)).articles == older
  {
    RunTwo(s, FetchPending, FetchPending);
  }
}
