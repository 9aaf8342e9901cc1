/** The entities of the news store: the three vendors, the seven categories,
    the filter record, the article record every vendor is normalised into,
    the tabs, the three favourite lists and the store state. */
module NewsTypes {
  import opened Wrappers

  /** The vendors the aggregator knows, by their `filters.sources` keys. */
  datatype NewsSource = NewsApi | Guardian | NyTimes

  function SourceKey(s: NewsSource): string {
    match s
    case NewsApi => "newsapi"
    case Guardian => "guardian"
    case NyTimes => "nytimes"
  }

  /** The lookup `fetchers[key]` (and `mockData[key]`): which vendor, if any,
      a source key names. */
  function ParseSource(key: string): (r: Option<NewsSource>)
    ensures r.Some? ==> SourceKey(r.value) == key
    ensures r.None? ==> forall s: NewsSource :: SourceKey(s) != key
  {
    if key == "newsapi" then Some(NewsApi)
    else if key == "guardian" then Some(Guardian)
    else if key == "nytimes" then Some(NyTimes)
    else None
  }

  /** The label an article of this vendor carries in its `source` field,
      both when fetched and when taken from the mock fallback. */
  function SourceLabel(s: NewsSource): string {
    match s
    case NewsApi => "NewsAPI"
    case Guardian => "The Guardian"
    case NyTimes => "The New York Times"
  }

  datatype Category =
    | General | Business | Technology | Sports | Entertainment | Science | Health

  function CategoryName(c: Category): string {
    match c
    case General => "general"
    case Business => "business"
    case Technology => "technology"
    case Sports => "sports"
    case Entertainment => "entertainment"
    case Science => "science"
    case Health => "health"
  }

  /** The search filters. `sources` holds source keys as strings: the store
      only ever writes known keys, but the aggregator is written to skip
      unknown ones. */
  datatype Filters = Filters(
    search: string,
    sources: seq<string>,
    categories: seq<Category>,
    dateFrom: Option<string>,
    dateTo: Option<string>)

  /** The one record every vendor payload is normalised into. */
  datatype Article = Article(
    id: string,
    title: string,
    description: string,
    url: string,
    imageUrl: Option<string>,
    source: string,
    category: string,
    author: Option<string>,
    publishedAt: string)

  /** No two articles of the list share an id. */
  predicate DistinctIds(list: seq<Article>) {
    forall i, j :: 0 <= i < j < |list| ==> list[i].id != list[j].id
  }

  /** The three favourite lists ("bookmark by author / category / source"). */
  datatype FavoriteType = Authors | Categories | Sources

  /** The feed tab, or one of the three favourites tabs. */
  datatype TabType = Feed | FavoritesTab(kind: FavoriteType)

  datatype NewsState = NewsState(
    filters: Filters,
    activeTab: TabType,
    isMobileMenuOpen: bool,
    isSearchOpen: bool,
    favoriteAuthors: seq<Article>,
    favoriteCategories: seq<Article>,
    favoriteSources: seq<Article>,
    articles: seq<Article>,
    isLoading: bool,
    error: Option<string>)

  /** The filters the store starts with and `resetFilters` restores. */
  const InitialFilters: Filters :=
    Filters("", ["newsapi", "guardian", "nytimes"], [General], None, None)

  /** The state the store starts in, given the three lists read back from
      local storage. */
  function InitialState(authors: seq<Article>, categories: seq<Article>, sources: seq<Article>): NewsState {
    NewsState(InitialFilters, Feed, false, false, authors, categories, sources, [], false, None)
  }

  /** The favourite list of the given kind. */
  function FavoritesOf(s: NewsState, kind: FavoriteType): seq<Article> {
    match kind
    case Authors => s.favoriteAuthors
    case Categories => s.favoriteCategories
    case Sources => s.favoriteSources
  }

  /** The state with the favourite list of the given kind replaced. */
  function WithFavorites(s: NewsState, kind: FavoriteType, list: seq<Article>): (r: NewsState)
    ensures FavoritesOf(r, kind) == list
    ensures forall k :: k != kind ==> FavoritesOf(r, k) == FavoritesOf(s, k)
    ensures r.filters == s.filters && r.activeTab == s.activeTab
    ensures r.isMobileMenuOpen == s.isMobileMenuOpen && r.isSearchOpen == s.isSearchOpen
    ensures r.articles == s.articles && r.isLoading == s.isLoading && r.error == s.error
  {
    match kind
    case Authors => s.(favoriteAuthors := list)
    case Categories => s.(favoriteCategories := list)
    case Sources => s.(favoriteSources := list)
  }

  /** The local-storage key under which each favourite list is saved. */
  function StorageKey(kind: FavoriteType): string {
    match kind
    case Authors => "favoriteAuthors"
    case Categories => "favoriteCategories"
    case Sources => "favoriteSources"
  }

  /** Every source key names the vendor it was built from. */
  lemma ParseSourceKey(s: NewsSource)
    ensures ParseSource(SourceKey(s)) == Some(s)
  {
  }

  /** The three lists are saved under three different keys. */
  lemma StorageKeysDistinct(a: FavoriteType, b: FavoriteType)
    requires a != b
    ensures StorageKey(a) != StorageKey(b)
  {
    assert StorageKey(a)[8] != StorageKey(b)[8];
  }
}
