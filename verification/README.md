# News store model

A Dafny model of the news store of the `news_blog` application: the Redux
slice that holds the search filters, the UI flags, the three favourite
lists and the fetched feed; the `fetchNews` thunk that queries NewsAPI, The
Guardian and The New York Times, falls back to fixed mock articles for a
vendor that fails, and concatenates the results; the vendor mappers that
normalise each payload into one `Article` record; and the local-storage
mirror of the favourites.

Modules, one file each:

- `Wrappers` (`wrappers.dfy`): `Option`.
- `Text` (`text.dfy`): JavaScript `String.prototype.trim` with the full
  ECMAScript white-space and line-terminator set, `length` counted in UTF-16
  code units, `replace(/-/g, '')`, `filter(Boolean).join(' ')`, prefixes.
- `Seqs` (`seqs.dfy`): `Array.prototype.flat` on an array of arrays.
- `NewsTypes` (`news_types.dfy`): sources, categories, filters, articles,
  tabs, favourite kinds, the store state, the initial filters, storage keys.
- `Favorites` (`favorites.dfy`): the `findIndex` + `splice` / `push` toggle
  of a favourite list, against a reference "remove first match".
- `MockData` (`mock_data.dfy`): the fallback articles.
- `Fetchers` (`fetchers.dfy`): query building, request parameters, the
  three payload mappers, and the store's inline New York Times mapper (the copy the thunk calls).
- `NewsSlice` (`news_slice.dfy`): every reducer, the fetch lifecycle, the
  gate that decides whether a fetch runs, and the invariants all actions keep.
- `FetchNews` (`fetch_news.dfy`): the thunk's aggregation of per-vendor
  outcomes, as a function and as a sequential loop proved equal to it.
- `Persistence` (`persistence.dfy`): storage read at start-up and written by
  `toggleFavorite`.

Inputs the program takes from its environment are parameters here: the
outcome of each vendor call (`FetchOutcome`: the mapped articles, or a
failure), the API keys (`Option<string>`), and the clock, as
`isoBefore(ms)`, the ISO timestamp `ms` milliseconds before the call.

The store file carries its own copies of the three fetchers and of the mock
table, and those copies are what the thunk calls (`fetchers` at
`src/redux/features/news/newsSlice.ts:249-256`): NewsAPI at
`newsSlice.ts:70-102`, The Guardian at `newsSlice.ts:104-139`, The New York
Times at `newsSlice.ts:141-176`, the mock table at `newsSlice.ts:179-242`.
They are the same code as `fetchers.ts` and `mockData.ts` apart from the New
York Times image at `newsSlice.ts:167-169`, which is the subject of both
findings below. The model has one definition of each; the rows for the
shared code cite `fetchers.ts` and `mockData.ts`, and the module comments of
`Fetchers` and `MockData` give the matching store lines. The store's own
image rule is modelled separately (`Fetchers.InlineNytImage`,
`Fetchers.InlineMapNyt`).

## Model

| member | source | states |
|---|---|---|
| Text.IsJsWhitespace | src/redux/features/news/newsSlice.ts:279 | the characters `trim` removes, the ECMAScript WhiteSpace and LineTerminator set; `Text.TrimStart`, `Text.TrimEnd` and `Text.Trim` state what trimming does with it |
| Text.TrimStart | src/redux/features/news/newsSlice.ts:279 | the result is a suffix of the input, everything dropped is JavaScript white space, and the result does not start with white space |
| Text.TrimEnd | src/redux/features/news/newsSlice.ts:279 | the result is a prefix of the input, everything dropped is white space, and the result does not end with white space |
| Text.Trim | src/redux/features/news/newsSlice.ts:279 | the input is the result padded with white space on both sides, cut where `trimStart` stops, and the result neither starts nor ends with white space |
| Text.AllWhitespaceAt | src/redux/features/news/newsSlice.ts:279 | the character-by-character definition of a white-space run says that every character is white space, and conversely |
| Text.AllWhitespaceAppend | src/redux/features/news/newsSlice.ts:279 | two white-space runs in a row form one |
| Text.TrimOfUnpadded | src/redux/features/news/newsSlice.ts:279 | a string that neither starts nor ends with white space is its own trimmed form |
| Text.TrimIgnoresPadding | src/redux/features/news/newsSlice.ts:279 | white space added on either side of a search does not change its trimmed form |
| Text.Utf16Length | src/redux/features/news/newsSlice.ts:280 | `length` counts UTF-16 code units: between one and two per character, zero only for the empty string |
| Text.Utf16LengthAppend | src/redux/features/news/newsSlice.ts:280 | the code-unit length of a concatenation is the sum of the lengths |
| Text.Utf16LengthOfChar | src/redux/features/news/newsSlice.ts:280 | one character is one code unit, or two above U+FFFF |
| Text.Utf16LengthOfBmp | src/redux/features/news/newsSlice.ts:280 | for text inside the Basic Multilingual Plane the code-unit length is the character count |
| Text.RemoveAll | src/redux/features/news/api/fetchers.ts:92-93 | removing every dash leaves no dash and keeps every other character with its multiplicity |
| Text.RemoveAllAppend | src/redux/features/news/api/fetchers.ts:92-93 | dash removal distributes over concatenation |
| Text.RemoveAllAbsent | src/redux/features/news/api/fetchers.ts:92-93 | a string without a dash is left as it is |
| Text.KeepNonEmpty | src/redux/features/news/api/fetchers.ts:16 | `filter(Boolean)` keeps exactly the non-empty parts, and only parts of the input |
| Text.KeepNonEmptyAppend | src/redux/features/news/api/fetchers.ts:16 | `filter(Boolean)` distributes over concatenation, so the kept parts stay in order with their multiplicity |
| Text.KeepNonEmptyOfOne | src/redux/features/news/api/fetchers.ts:16 | a single part is dropped exactly when it is empty |
| Text.Join | src/redux/features/news/api/fetchers.ts:17 | `join(sep)`; `Text.JoinNonEmptyPair` states its result on the at most two parts of a query |
| Text.JoinNonEmptyPair | src/redux/features/news/api/fetchers.ts:12-17 | joining the non-empty of two parts gives the one part, or both around the separator, or the empty string |
| Text.StripPrefix | src/redux/features/news/api/fetchers.ts:110 | a prefix can be stripped exactly when the string starts with it, and putting it back gives the string |
| Text.StripPrefixRoundTrip | src/redux/features/news/api/fetchers.ts:110 | stripping a prefix that was prepended gives back the rest |
| Seqs.Flatten | src/redux/features/news/newsSlice.ts:270 | `results.flat()` on an array of arrays; `Seqs.FlattenAppend`, `Seqs.FlattenSplit` and `Seqs.FlattenLength` state it |
| Seqs.FlattenAppend | src/redux/features/news/newsSlice.ts:270 | `flat()` distributes over concatenation of the outer list |
| Seqs.FlattenSplit | src/redux/features/news/newsSlice.ts:270 | the flattened list is what comes before a block, the block, then what comes after it |
| Seqs.FlattenLength | src/redux/features/news/newsSlice.ts:270 | the flattened length is the sum of the block lengths |
| NewsTypes.ParseSource | src/redux/features/news/newsSlice.ts:258-259 | a key names a vendor exactly when it is that vendor's key; any other key names none |
| NewsTypes.ParseSourceKey | src/redux/features/news/newsSlice.ts:252-256 | every vendor is found again under its own key |
| NewsTypes.InitialState | src/redux/features/news/newsSlice.ts:285-296 | `initialState` with the three lists read back; `Persistence.Boot` and `NewsSlice.InitialStateValid` state its fields |
| NewsTypes.FavoritesOf | src/redux/features/news/newsSlice.ts:332-334 | `state[favoriteKey]`: the list of one kind; `NewsTypes.WithFavorites` states that replacing it frames the rest |
| NewsTypes.WithFavorites | src/redux/features/news/newsSlice.ts:332-334 | replacing the list of one kind leaves the other two lists and every other field unchanged |
| NewsTypes.StorageKey | src/redux/features/news/newsSlice.ts:343-344 | the storage key of each kind; `NewsTypes.StorageKeysDistinct` states the keys differ, `Persistence.Step` that the toggled list is written under it |
| NewsTypes.StorageKeysDistinct | src/redux/modules/news/types.ts:21-25 | the three favourite lists are stored under three different keys |
| Favorites.FindIndex | src/redux/features/news/newsSlice.ts:336 | the index of the first article with the id, or -1 exactly when no article has it |
| Favorites.SpliceAtFindIndex | src/redux/features/news/newsSlice.ts:336-338 | splicing out the found index is removing the first article with that id |
| Favorites.Toggle | src/redux/features/news/newsSlice.ts:336-341 | a present id loses its first article (one shorter), an absent one is appended at the end; no other article is lost and none but the toggled one is added |
| Favorites.ToggleFlipsMembership | src/redux/features/news/newsSlice.ts:336-341 | on a list without duplicate ids, toggling flips whether the id is present |
| Favorites.ToggleTwiceRestores | src/redux/features/news/newsSlice.ts:336-341 | adding then removing an absent article restores the list |
| Favorites.ToggleTwiceMovesToEnd | src/redux/features/news/newsSlice.ts:336-341 | removing then re-adding a present article moves it to the end |
| Favorites.SpliceKeepsIdsDistinct | src/redux/features/news/newsSlice.ts:338 | removing one article keeps the ids distinct |
| Favorites.AppendKeepsIdsDistinct | src/redux/features/news/newsSlice.ts:340 | appending an article whose id is absent keeps the ids distinct |
| Favorites.ToggleKeepsIdsDistinct | src/redux/features/news/newsSlice.ts:336-341 | toggling never creates a duplicate id |
| MockData.MockArticles | src/redux/features/news/api/mockData.ts:9-72 | two NewsAPI articles, one Guardian, one New York Times, none for any other key; all filed under the requested category, labelled as the live mapper labels that vendor, with distinct ids starting with "mock-" |
| MockData.MockTable | src/redux/features/news/api/mockData.ts:10-69 | the per-vendor table: sizes, category, source label, "mock-" ids, distinct ids |
| MockData.MockId | src/redux/features/news/api/mockData.ts:13 | every mock id starts with "mock-" |
| MockData.MockIdInjective | src/redux/features/news/api/mockData.ts:13-56 | different tags give different mock ids |
| MockData.MockIdsDistinctAcrossSources | src/redux/features/news/api/mockData.ts:10-69 | mock articles of two different vendors never share an id |
| Fetchers.CategoryTerm | src/redux/features/news/api/fetchers.ts:14 | the category part of the query; `Fetchers.BuildQuery` states it with the rest of the query |
| Fetchers.BuildQuery | src/redux/features/news/api/fetchers.ts:11-18 | the query is empty exactly when the search is empty and the first category is `general` or missing; otherwise it is the search, the category, or both joined by one space, and always starts with the search |
| Fetchers.BuildQueryExamples | src/redux/features/news/api/fetchers.ts:11-18 | with no search, `general` gives the empty query and `technology` gives "technology" |
| Fetchers.NewsApiQuery | src/redux/features/news/api/fetchers.ts:28 | NewsAPI is never queried with an empty `q`: it falls back to "news" |
| Fetchers.NytDate | src/redux/features/news/api/fetchers.ts:92-93 | a date is sent without dashes, every other character kept; no date sends the empty value |
| Fetchers.NytDateKeepsDashlessDate | src/redux/features/news/api/fetchers.ts:92-93 | a date that has no dash is sent unchanged |
| Fetchers.NewsApiParams | src/redux/features/news/api/fetchers.ts:26-34 | the NewsAPI request parameters in source order; `Fetchers.NewsApiAlwaysSendsQuery` states that `q` always reaches the URL, `Fetchers.NewsApiQuery` that it is never empty |
| Fetchers.GuardianParams | src/redux/features/news/api/fetchers.ts:57-63 | The Guardian's request parameters in source order; `Fetchers.GuardianQuerySentIffNonEmpty` states when `q` reaches the URL |
| Fetchers.NytParams | src/redux/features/news/api/fetchers.ts:89-93 | The New York Times' request parameters in source order; `Fetchers.NytQuerySentIffNonEmpty` states when `q` reaches the URL, `Fetchers.NytDatesSentWithoutDashes` that no sent date holds a dash |
| Fetchers.SentParams | src/redux/features/news/api/http.ts:5-8 | a parameter reaches the URL exactly when its value is non-empty |
| Fetchers.SentParamsAppend | src/redux/features/news/api/http.ts:5-8 | dropping empty parameters distributes over concatenation, so the sent ones keep their order and multiplicity |
| Fetchers.SentParamsOfOne | src/redux/features/news/api/http.ts:5-8 | a single parameter is sent exactly when its value is non-empty |
| Fetchers.NewsApiAlwaysSendsQuery | src/redux/features/news/api/fetchers.ts:26-34 | the NewsAPI request always carries its `q` |
| Fetchers.GuardianQuerySentIffNonEmpty | src/redux/features/news/api/fetchers.ts:57-63 | The Guardian gets a `q` exactly when the built query is non-empty |
| Fetchers.NytQuerySentIffNonEmpty | src/redux/features/news/api/fetchers.ts:89-93 | The New York Times gets a `q` exactly when the built query is non-empty |
| Fetchers.NytDatesSentWithoutDashes | src/redux/features/news/api/fetchers.ts:89-93 | no date parameter sent to The New York Times contains a dash |
| Fetchers.FromNewsApi | src/redux/features/news/api/fetchers.ts:37-47 | one NewsAPI entry to an article; `Fetchers.MapNewsApi` states its fields |
| Fetchers.MapNewsApi | src/redux/features/news/api/fetchers.ts:36-48 | one article per payload entry, in order, with id "newsapi-" + url, label "NewsAPI", the first category and the entry's fields |
| Fetchers.GuardianDescription | src/redux/features/news/api/fetchers.ts:74 | the trail text when the fields and the trail text are present, the empty string otherwise |
| Fetchers.FromGuardian | src/redux/features/news/api/fetchers.ts:71-81 | one Guardian result to an article; `Fetchers.MapGuardian` states its fields |
| Fetchers.MapGuardian | src/redux/features/news/api/fetchers.ts:70-82 | one article per result, in order, with id "guardian-" + id, label "The Guardian", the first category, thumbnail and byline from the optional fields |
| Fetchers.FirstWithUrl | src/redux/features/news/api/fetchers.ts:103 | `find(item => item.url)`: the first item with a non-empty url, or -1 when there is none |
| Fetchers.NytImage | src/redux/features/news/api/fetchers.ts:103-110 | an image exactly when some multimedia item has a non-empty url; it is the base URL followed by the first such url |
| Fetchers.FromNyt | src/redux/features/news/api/fetchers.ts:102-115 | one New York Times document to an article, given its image; `Fetchers.MapNyt` states its fields |
| Fetchers.MapNyt | src/redux/features/news/api/fetchers.ts:100-116 | at most ten articles, one per kept document in order, with id "nyt-" + id, label "The New York Times", the first category, the image of the first item with a url, and the author from `byline.original` when there is a byline |
| Fetchers.InlineNytImage | src/redux/features/news/newsSlice.ts:167-169 | the store's inline image rule: a failure exactly when `multimedia` is absent, otherwise the corrected rule applied to the first item alone |
| Fetchers.InlineMapNyt | src/redux/features/news/newsSlice.ts:161-175 | the store's inline mapper fails exactly when one of the first ten documents lacks `multimedia`; otherwise it gives as many articles as the corrected mapper |
| Fetchers.InlineNytImageAgreement | src/redux/features/news/newsSlice.ts:167-169 | the inline and corrected image rules agree exactly when `multimedia` is present and its first url-bearing item, if any, is the first item |
| Fetchers.InlineNytImageMissesLaterUrl | src/redux/features/news/newsSlice.ts:167-169 | an article whose first multimedia url is empty and second is not gets no image from the inline rule but one from the corrected rule |
| Fetchers.InlineNytMapperThrowsWithoutMultimedia | src/redux/features/news/newsSlice.ts:161-169 | one document without `multimedia` makes the inline mapper fail, while the corrected one maps it without an image |
| Fetchers.MapNewsApiDistinctIds | src/redux/features/news/api/fetchers.ts:38 | distinct urls give distinct NewsAPI article ids |
| Fetchers.MapGuardianDistinctIds | src/redux/features/news/api/fetchers.ts:72 | distinct Guardian ids give distinct article ids |
| Fetchers.MapNytDistinctIds | src/redux/features/news/api/fetchers.ts:106 | distinct New York Times ids give distinct article ids |
| Fetchers.IdsDecode | src/redux/features/news/api/fetchers.ts:38 | stripping the vendor prefix from an article id gives back the vendor's own key (url or id) |
| Fetchers.VendorIdsNeverCollide | src/redux/features/news/api/fetchers.ts:106 | articles of two different vendors never share an id |
| NewsSlice.Reduce | src/redux/features/news/newsSlice.ts:298-371 | the slice's reducers, one case per action; the per-action lemmas below (`NewsSlice.SetSearchReducer` to `NewsSlice.FetchReducer`) state each case, and `NewsSlice.ReduceKeepsValid` and `NewsSlice.ReduceKeepsFavoritesDistinct` what every case keeps |
| NewsSlice.SetSearchReducer | src/redux/features/news/newsSlice.ts:302-304 | sets the search and changes nothing else |
| NewsSlice.ToggleSourceReducer | src/redux/features/news/newsSlice.ts:308-310 | replaces the sources by the one chosen source and changes nothing else |
| NewsSlice.ToggleCategoryReducer | src/redux/features/news/newsSlice.ts:311-313 | replaces the categories by the one chosen category and changes nothing else |
| NewsSlice.SetDateRangeReducer | src/redux/features/news/newsSlice.ts:314-320 | sets both dates, an absent one clearing its bound, and changes nothing else |
| NewsSlice.ToggleFavoriteReducer | src/redux/features/news/newsSlice.ts:327-346 | toggles the article in the list of its kind only; filters, UI flags and feed untouched |
| NewsSlice.FetchReducer | src/redux/features/news/newsSlice.ts:355-369 | pending sets loading and clears the error; fulfilled stores the payload, stops loading, clears the error; rejected stops loading, empties the feed, and keeps the message or the default one |
| NewsSlice.OverlappingFetchesLastWins | src/redux/features/news/newsSlice.ts:356-364 | with two fetches in flight, the first to fulfil stops loading although the other is pending, and the feed is whatever fulfils last, even the older query's answer |
| NewsSlice.FilterActionsOnlyChangeFilters | src/redux/features/news/newsSlice.ts:302-323 | every filter action leaves favourites, UI flags and feed untouched |
| NewsSlice.ResetFiltersRestoresInitial | src/redux/features/news/newsSlice.ts:321-323 | reset restores search "", all three sources, `general`, no dates, and touches nothing else |
| NewsSlice.ResetUndoesFilterActions | src/redux/features/news/newsSlice.ts:302-323 | a filter action followed by reset is the same as reset alone |
| NewsSlice.ClearSearchAfterSetSearch | src/redux/features/news/newsSlice.ts:302-307 | clearing after setting a search is the same as clearing alone, and leaves the search empty |
| NewsSlice.ToggleSourceIsNotAToggle | src/redux/features/news/newsSlice.ts:308-313 | choosing the same source or category twice is the same as choosing it once |
| NewsSlice.UiTogglesAreInvolutions | src/redux/features/news/newsSlice.ts:347-352 | toggling the mobile menu or the search box twice restores the state |
| NewsSlice.ToggleFavoriteTwiceRestores | src/redux/features/news/newsSlice.ts:327-346 | favouriting an article not yet in its list and unfavouriting it restores the store |
| NewsSlice.FavoritesCommuteWithFilters | src/redux/features/news/newsSlice.ts:302-346 | toggling a favourite and a filter action commute |
| NewsSlice.FetchAllowed | src/redux/features/news/newsSlice.ts:278-281 | the thunk's `condition`; `NewsSlice.ShortSearchNeverFetches`, `NewsSlice.FetchAllowedIgnoresPadding` and `NewsSlice.FetchAllowedCountsCodeUnits` state when it holds |
| NewsSlice.ShortSearchNeverFetches | src/redux/features/news/newsSlice.ts:278-281 | a fetch runs exactly when the trimmed search is empty or at least three code units long; one or two units never fetch; blank searches always do |
| NewsSlice.FetchAllowedIgnoresPadding | src/redux/features/news/newsSlice.ts:279 | surrounding white space never changes whether a search fetches |
| NewsSlice.FetchAllowedCountsCodeUnits | src/redux/features/news/newsSlice.ts:280 | two emoji pass the three-unit threshold and one emoji does not |
| NewsSlice.InitialStateValid | src/redux/features/news/newsSlice.ts:285-296 | the start state satisfies the invariant (a category exists), is not loading and holds no error |
| NewsSlice.ReduceKeepsValid | src/redux/features/news/newsSlice.ts:301-369 | every action keeps: a first category exists; loading implies no error; an error is non-empty and comes with an empty feed |
| NewsSlice.ReduceKeepsFavoritesDistinct | src/redux/features/news/newsSlice.ts:327-346 | no action creates a duplicate id in any favourite list |
| NewsSlice.RunKeepsInvariants | src/redux/features/news/newsSlice.ts:298-371 | both invariants hold after any sequence of actions |
| FetchNews.KnownSources | src/redux/features/news/newsSlice.ts:258-259 | the vendors fetched are never more than the keys given |
| FetchNews.KnownSourcesMembers | src/redux/features/news/newsSlice.ts:258-259 | a vendor is fetched exactly when its key is among the sources |
| FetchNews.KnownSourcesAppend | src/redux/features/news/newsSlice.ts:258-259 | the filtering of keys commutes with concatenation |
| FetchNews.UnknownSourceContributesNothing | src/redux/features/news/newsSlice.ts:258-259 | an unknown key anywhere in the sources changes nothing |
| FetchNews.Contribution | src/redux/features/news/newsSlice.ts:261-266 | one vendor's block: its articles, or its mock articles when the call failed; `FetchNews.FailureIsReplacedByMocks` states it inside the feed |
| FetchNews.Blocks | src/redux/features/news/newsSlice.ts:258-268 | one block per known source, in source order; `FetchNews.AllFetchedIsConcatenation` and `FetchNews.FailureIsReplacedByMocks` state the blocks |
| FetchNews.Aggregate | src/redux/features/news/newsSlice.ts:258-270 | the fulfilled payload, `results.flat()` over the per-vendor blocks; `FetchNews.FetchAll` proves the sequential fold equal to it, `FetchNews.AllFetchedIsConcatenation` and `FetchNews.FailureIsReplacedByMocks` state its blocks |
| FetchNews.InitialSourcesAllKnown | src/redux/features/news/newsSlice.ts:258-259 | the three initial source keys are all fetched, in their order |
| FetchNews.FetchAll | src/redux/features/news/newsSlice.ts:258-270 | folding over the keys, skipping unknown ones and taking one outcome per known one, yields the flattened per-vendor lists |
| FetchNews.RunFetch | src/redux/features/news/newsSlice.ts:245-283 | a refused search leaves the store as it was; an allowed one ends not loading, without error, with the aggregated feed, favourites, filters and UI untouched |
| FetchNews.InlineNytOutcome | src/redux/features/news/newsSlice.ts:261-266 | with the inline mapper the New York Times call fails exactly when one of the first ten documents lacks `multimedia` |
| FetchNews.AllFetchedIsConcatenation | src/redux/features/news/newsSlice.ts:269-270 | when every call succeeds the feed is the vendors' lists concatenated in source order |
| FetchNews.FailureIsReplacedByMocks | src/redux/features/news/newsSlice.ts:261-266 | a failing vendor's block, and only it, becomes that vendor's mock articles under the first category |
| FetchNews.InlineNytLosesWholeBatch | src/redux/features/news/newsSlice.ts:261-266 | with the inline mapper, one document lacking `multimedia` replaces the whole New York Times block by its single mock article |
| FetchNews.AllFailedGivesMockFeed | src/redux/features/news/newsSlice.ts:258-270 | with the initial sources and every call failing the feed is four mock articles, all under the first category, with distinct "mock-" ids |
| FetchNews.MockFeedIdsDistinct | src/redux/features/news/api/mockData.ts:10-69 | the three mock blocks together hold four articles under the category, all with "mock-" ids and no id twice |
| FetchNews.LiveIdsNeverMock | src/redux/features/news/newsSlice.ts:179-242 | a mock article never shares its id with a live article |
| FetchNews.GateDecidesFetch | src/redux/features/news/newsSlice.ts:278-281 | a search of one or two code units after trimming leaves the store untouched |
| Persistence.Load | src/redux/features/news/newsSlice.ts:25-29 | the list stored under a key, or the empty list when nothing is stored; `Persistence.BootMirrors` and `Persistence.ReloadRestoresFavorites` state what start-up reads |
| Persistence.Boot | src/redux/features/news/newsSlice.ts:285-296 | the start state reads each favourite list from its storage key; initial filters, the feed tab, both UI panels closed, empty feed, not loading, no error |
| Persistence.Step | src/redux/features/news/newsSlice.ts:343-345 | only `toggleFavorite` writes storage, and it writes the new list of its kind under that kind's key, leaving every other key alone |
| Persistence.BootMirrors | src/redux/features/news/newsSlice.ts:290-292 | a freshly started store holds exactly what storage holds |
| Persistence.StepKeepsMirror | src/redux/features/news/newsSlice.ts:343-345 | every action keeps storage equal to the favourite lists |
| Persistence.RunKeepsMirror | src/redux/features/news/newsSlice.ts:343-345 | storage stays equal to the favourite lists over any action sequence, and the store part is the plain run |
| Persistence.ReloadRestoresFavorites | src/redux/features/news/newsSlice.ts:290-292 | after any run of actions, restarting from the storage left behind restores exactly the favourites the store held |

## Left out

- HTTP itself (`fetchFromAPI`'s `fetch`, status check, JSON decoding, URL encoding by `URLSearchParams`): each vendor call is an input `FetchOutcome`; only the rule that empty parameters are dropped is modelled (`Fetchers.SentParams`).
- `getBaseURL` and the development proxy, the base URLs and the environment-provided API keys: the keys are parameters, the URLs are not modelled.
- `Promise.all` concurrency and `console.warn`: the calls are independent, so their order of completion cannot change the aggregate, which is modelled as a fold in source order.
- The thunk's `rejectWithValue` path: every vendor failure is caught per vendor, so nothing the model represents reaches it; the `rejected` reducer is modelled on its own (`NewsSlice.FetchReducer`).
- `FetchNews.RunFetch`: a fetch is modelled as pending and fulfilled back to back, so `RunFetch` says nothing about overlapping fetches. `src/widgets/news-feed/ui/NewsFeed.tsx:20-23` dispatches one on every filter change, and `src/shared/components/Header.tsx:19-24` one more after the search debounce. With two in flight, the first to fulfil clears `isLoading` while the other is still pending, and the last to fulfil wins even when it answers the older query. `NewsSlice.Run` over separate `FetchPending` and `FetchFulfilled` actions expresses such interleavings; `NewsSlice.OverlappingFetchesLastWins` states these two consequences, and nothing more is proved about them.
- `Date.now()` and `toISOString()`: replaced by the `isoBefore` parameter.
- JSON encoding of local storage and the `typeof window` guard: storage is a map from key to list, and the encoding is taken to round-trip.
- Object prototype keys (`fetchers["toString"]` and the like): only the three vendor keys count as known.
- React components, the `useDebounce` hook, the routing and styles.
- `NewsSlice.ToggleFavoriteReducer`: the favourite-kind string built with `charAt(0).toUpperCase()` is modelled directly as the `FavoriteType` datatype, so a kind outside the three cannot be expressed.
- `Fetchers.MapNewsApi`, `Fetchers.MapGuardian`, `Fetchers.MapNyt`, `FetchNews.RunFetch`: require a first category; the source would file articles under `undefined` with an empty list, which its own `Article` type does not allow, and `NewsSlice.ReduceKeepsValid` shows the reducers never empty the list.
- `Fetchers.MapNyt`: the `NYTApiArticle` type declares `multimedia` as a single object, while both mappers use it as an array (`find`, `[0]`); the model follows the code's array reading.
- `Text.Utf16Length`: characters are Unicode scalar values, so unpaired surrogates in the search cannot be expressed.

## Findings

| source | as written | input that shows it | evidently intended | confidence | as-written member | corrected member |
|---|---|---|---|---|---|---|
| src/redux/features/news/newsSlice.ts:167-169 | the store's inline New York Times mapper looks only at `multimedia[0]` for an image | a document whose first multimedia item has an empty url and whose second has "images/photo.jpg" | the first item that has a url gives the image, as in `fetchers.ts:103` | medium, not executed | Fetchers.InlineNytImageMissesLaterUrl | Fetchers.NytImage |
| src/redux/features/news/newsSlice.ts:167 | `article.multimedia[0]` is read without a guard, so a document without `multimedia` throws and the whole New York Times batch is replaced by one mock article | ten documents, one of which has no `multimedia` field | a document without multimedia is mapped without an image, as `multimedia?.` in `fetchers.ts:103` does | medium, not executed | FetchNews.InlineNytLosesWholeBatch | Fetchers.MapNyt |
