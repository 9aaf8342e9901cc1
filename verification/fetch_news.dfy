/** The `fetchNews` thunk: the known sources of the filters are fetched, a
    failing source is replaced by its mock articles, and the per-source
    lists are concatenated in source order. Each vendor call's outcome is an
    input; the thunk runs only when the search passes the gate. */
module FetchNews {
  import opened Wrappers
  import opened Text
  import opened Seqs
  import opened NewsTypes
  import opened MockData
  import opened Fetchers
  import opened NewsSlice

  /** What one vendor call produced: its mapped articles, or a failure. */
  datatype FetchOutcome = Fetched(articles: seq<Article>) | Failed

  /** `filters.sources.filter(source => fetchers[source])`, each kept key
      read as its vendor: the known keys, in order, unknown ones dropped. */
  function KnownSources(keys: seq<string>): (r: seq<NewsSource>)
    ensures |r| <= |keys|
  {
    if keys == [] then []
    else
      var rest := KnownSources(keys[1..]);
      assert keys == [keys[0]] + keys[1..];
      match ParseSource(keys[0])
      case None => rest
      case Some(s) => [s] + rest
  }

  /** What one known source adds to the feed: its articles, or its mock
      articles under the first category when the call failed. */
  function Contribution(src: NewsSource, outcome: FetchOutcome, category: string, isoBefore: nat -> string): seq<Article> {
    match outcome
    case Fetched(articles) => articles
    case Failed => MockArticles(SourceKey(src), category, isoBefore)
  }

  /** The per-source lists `Promise.all` resolves to, in source order. The
      i-th outcome is that of the call for the i-th known source. */
  function Blocks(f: Filters, outcomes: seq<FetchOutcome>, isoBefore: nat -> string): (b: seq<seq<Article>>)
    requires |f.categories| > 0
    requires |outcomes| == |KnownSources(f.sources)|
    ensures |b| == |outcomes|
  {
    var known := KnownSources(f.sources);
    seq(|known|, i requires 0 <= i < |known| => Contribution(known[i], outcomes[i], FirstCategory(f), isoBefore))
  }

  /** The fulfilled payload: `results.flat()`. */
  function Aggregate(f: Filters, outcomes: seq<FetchOutcome>, isoBefore: nat -> string): seq<Article>
    requires |f.categories| > 0
    requires |outcomes| == |KnownSources(f.sources)|
  {
    Flatten(Blocks(f, outcomes, isoBefore))
  }

  /** The aggregation as a sequential fold over the source keys: unknown
      keys are skipped, and each known key takes the next outcome. */
  method FetchAll(f: Filters, outcomes: seq<FetchOutcome>, isoBefore: nat -> string) returns (r: seq<Article>)
    requires |f.categories| > 0
    requires |outcomes| == |KnownSources(f.sources)|
    ensures r == Aggregate(f, outcomes, isoBefore)
  {
    var blocks := Blocks(f, outcomes, isoBefore);
    r := [];
    var i := 0;
    var k := 0;
    while i < |f.sources|
      invariant 0 <= i <= |f.sources|
      invariant k == |KnownSources(f.sources[..i])| <= |blocks|
      invariant r == Flatten(blocks[..k])
    {
      FoldStep(f, outcomes, isoBefore, i);
      var p := ParseSource(f.sources[i]);
      if p.Some? {
        FlattenSnoc(blocks, k);
        r := r + Contribution(p.value, outcomes[k], FirstCategory(f), isoBefore);
        k := k + 1;
      }
      i := i + 1;
    }
    assert f.sources[..i] == f.sources;
    assert blocks[..k] == blocks;
  }

  /** The thunk as the store sees it: nothing happens when the gate refuses;
      otherwise `pending` then `fulfilled` with the aggregate. Source
      failures are absorbed by the mock fallback, so the model never
      reaches `rejected`. */
  function RunFetch(s: NewsState, arg: Filters, outcomes: seq<FetchOutcome>, isoBefore: nat -> string): (r: NewsState)
    requires |arg.categories| > 0
    requires |outcomes| == |KnownSources(arg.sources)|
    ensures !FetchAllowed(arg.search) ==> r == s
    ensures FetchAllowed(arg.search) ==>
              && !r.isLoading && r.error == None
              && r.articles == Aggregate(arg, outcomes, isoBefore)
              && OnlyFetchChanged(s, r)
  {
    if !FetchAllowed(arg.search) then s
    else Reduce(Reduce(s, FetchPending), FetchFulfilled(Aggregate(arg, outcomes, isoBefore)))
  }

  /** The New York Times call as the store's inline copy of the mapper makes
      it: a kept document without `multimedia` throws, and the whole call
      fails. */
  function InlineNytOutcome(f: Filters, docs: seq<NytArticle>): (o: FetchOutcome)
    requires |f.categories| > 0
    ensures o.Failed? <==> exists i :: 0 <= i < Min(NytMaxDocs, |docs|) && docs[i].multimedia.None?
    ensures o.Fetched? ==> |o.articles| == |MapNyt(f, docs)|
  {
    match InlineMapNyt(f, docs)
    case None => Failed
    case Some(articles) => Fetched(articles)
  }

  // -------------------------------------------------------------- lemmas

  /** Filtering the keys commutes with concatenation. */
  lemma {:induction false} KnownSourcesAppend(a: seq<string>, b: seq<string>)
    ensures KnownSources(a + b) == KnownSources(a) + KnownSources(b)
  {
    if a == [] {
      assert a + b == b;
    } else {
      assert (a + b)[1..] == a[1..] + b;
      KnownSourcesAppend(a[1..], b);
    }
  }

  /** A vendor is fetched exactly when its key is among the sources. */
  lemma {:induction false} KnownSourcesMembers(keys: seq<string>, s: NewsSource)
    ensures s in KnownSources(keys) <==> SourceKey(s) in keys
  {
    if keys != [] {
      KnownSourcesMembers(keys[1..], s);
      assert keys == [keys[0]] + keys[1..];
      ParseSourceKey(s);
    }
  }

  /** Moving one key from the unread suffix to the read prefix. */
  lemma KnownSourcesStep(keys: seq<string>, i: nat)
    requires i < |keys|
    ensures var one := match ParseSource(keys[i]) case None => [] case Some(s) => [s];
            && KnownSources(keys[..i + 1]) == KnownSources(keys[..i]) + one
            && KnownSources(keys[i..]) == one + KnownSources(keys[i + 1..])
  {
    assert keys[..i + 1] == keys[..i] + [keys[i]];
    KnownSourcesAppend(keys[..i], [keys[i]]);
    assert keys[i..] == [keys[i]] + keys[i + 1..];
    KnownSourcesAppend([keys[i]], keys[i + 1..]);
    assert [keys[i]][1..] == [];
  }

  /** One step of the fold: an unknown key leaves the count of known keys
      read so far unchanged; a known one is the next vendor, whose block is
      its contribution. */
  lemma FoldStep(f: Filters, outcomes: seq<FetchOutcome>, isoBefore: nat -> string, i: nat)
    requires |f.categories| > 0
    requires |outcomes| == |KnownSources(f.sources)|
    requires i < |f.sources|
    ensures var k := |KnownSources(f.sources[..i])|;
            match ParseSource(f.sources[i])
            case None => |KnownSources(f.sources[..i + 1])| == k
            case Some(src) =>
              && |KnownSources(f.sources[..i + 1])| == k + 1 <= |outcomes|
              && Blocks(f, outcomes, isoBefore)[k] == Contribution(src, outcomes[k], FirstCategory(f), isoBefore)
  {
    var keys := f.sources;
    KnownSourcesStep(keys, i);
    assert keys == keys[..i] + keys[i..];
    KnownSourcesAppend(keys[..i], keys[i..]);
  }

  /** An unknown source key anywhere in the list contributes nothing. */
  lemma UnknownSourceContributesNothing(a: seq<string>, key: string, b: seq<string>)
    requires ParseSource(key).None?
    ensures KnownSources(a + [key] + b) == KnownSources(a + b)
  {
    KnownSourcesAppend(a + [key], b);
    KnownSourcesAppend(a, [key]);
    KnownSourcesAppend(a, b);
    assert KnownSources([key]) == [] by {
      assert [key][1..] == [];
    }
  }

  /** When every call succeeds, the feed is the vendors' articles
      concatenated in source order. */
  lemma AllFetchedIsConcatenation(f: Filters, outcomes: seq<FetchOutcome>, isoBefore: nat -> string)
    requires |f.categories| > 0
    requires |outcomes| == |KnownSources(f.sources)|
    requires forall i :: 0 <= i < |outcomes| ==> outcomes[i].Fetched?
    ensures Aggregate(f, outcomes, isoBefore) ==
              Flatten(seq(|outcomes|, i requires 0 <= i < |outcomes| => outcomes[i].articles))
  {
    assert Blocks(f, outcomes, isoBefore) ==
           seq(|outcomes|, i requires 0 <= i < |outcomes| => outcomes[i].articles);
  }

  /** A failing source changes only its own block: the feed is what the
      sources before it gave, then its mock articles, then what the sources
      after it gave. */
  lemma FailureIsReplacedByMocks(f: Filters, outcomes: seq<FetchOutcome>, isoBefore: nat -> string, i: nat)
    requires |f.categories| > 0
    requires |outcomes| == |KnownSources(f.sources)|
    requires i < |outcomes| && outcomes[i].Failed?
    ensures var b := Blocks(f, outcomes, isoBefore);
            Aggregate(f, outcomes, isoBefore) ==
              Flatten(b[..i])
              + MockArticles(SourceKey(KnownSources(f.sources)[i]), FirstCategory(f), isoBefore)
              + Flatten(b[i + 1..])
  {
    FlattenSplit(Blocks(f, outcomes, isoBefore), i);
  }

  /** With the inline mapper, one New York Times document lacking
      `multimedia` costs the whole batch: the vendor's block is its single
      mock article, whatever the other documents held. */
  lemma InlineNytLosesWholeBatch(f: Filters, outcomes: seq<FetchOutcome>, isoBefore: nat -> string, i: nat, docs: seq<NytArticle>, j: nat)
    requires |f.categories| > 0
    requires |outcomes| == |KnownSources(f.sources)|
    requires i < |outcomes| && KnownSources(f.sources)[i] == NyTimes
    requires outcomes[i] == InlineNytOutcome(f, docs)
    requires j < Min(NytMaxDocs, |docs|) && docs[j].multimedia.None?
    ensures Blocks(f, outcomes, isoBefore)[i] == MockArticles("nytimes", FirstCategory(f), isoBefore)
    ensures |Blocks(f, outcomes, isoBefore)[i]| == 1
  {
    ParseSourceKey(NyTimes);
  }

  /** With the initial sources and every call failing, the feed is the four
      mock articles: two NewsAPI, one Guardian, one New York Times, all
      under the first category and all with distinct "mock-" ids. */
  lemma AllFailedGivesMockFeed(f: Filters, isoBefore: nat -> string)
    requires |f.categories| > 0 && f.sources == InitialFilters.sources
    ensures |KnownSources(f.sources)| == 3
    ensures var feed := Aggregate(f, [Failed, Failed, Failed], isoBefore);
            && |feed| == 4
            && (forall a :: a in feed ==> a.category == FirstCategory(f) && StartsWith(a.id, MockIdPrefix))
            && DistinctIds(feed)
  {
    InitialSourcesAllKnown(f.sources);
    var c := FirstCategory(f);
    var n := MockArticles("newsapi", c, isoBefore);
    var g := MockArticles("guardian", c, isoBefore);
    var y := MockArticles("nytimes", c, isoBefore);
    assert Blocks(f, [Failed, Failed, Failed], isoBefore) == [n, g, y];
    FlattenOfThree(n, g, y);
    MockFeedIdsDistinct(c, isoBefore);
  }

  /** The three initial source keys are all known, in their order. */
  lemma InitialSourcesAllKnown(keys: seq<string>)
    requires keys == InitialFilters.sources
    ensures KnownSources(keys) == [NewsApi, Guardian, NyTimes]
  {
    assert keys[1..][1..][1..] == [];
  }

  /** The three mock blocks together: four articles under the category, all
      with "mock-" ids, no id twice. */
  lemma MockFeedIdsDistinct(c: string, isoBefore: nat -> string)
    ensures var feed := MockArticles("newsapi", c, isoBefore) + MockArticles("guardian", c, isoBefore)
                        + MockArticles("nytimes", c, isoBefore);
            && |feed| == 4
            && (forall a :: a in feed ==> a.category == c && StartsWith(a.id, MockIdPrefix))
            && DistinctIds(feed)
  {
    var n := MockArticles("newsapi", c, isoBefore);
    var g := MockArticles("guardian", c, isoBefore);
    var y := MockArticles("nytimes", c, isoBefore);
    var feed := n + g + y;
    ParseSourceKey(NewsApi);
    ParseSourceKey(Guardian);
    ParseSourceKey(NyTimes);
    MockIdsDistinctAcrossSources(NewsApi, Guardian, c, isoBefore);
    MockIdsDistinctAcrossSources(NewsApi, NyTimes, c, isoBefore);
    MockIdsDistinctAcrossSources(Guardian, NyTimes, c, isoBefore);
    forall p, q | 0 <= p < q < |feed| ensures feed[p].id != feed[q].id {
      if q < 2 {
        assert feed[p] == n[p] && feed[q] == n[q];
      } else if p < 2 {
        assert feed[p] in n && (feed[q] in g || feed[q] in y);
      } else {
        assert p == 2 && q == 3;
        assert feed[p] in g && feed[q] in y;
      }
    }
  }

  /** A mock article never shares its id with an article a vendor mapper
      built. */
  lemma LiveIdsNeverMock(s: NewsSource, x: string, y: string)
    requires StartsWith(x, IdPrefix(s)) && StartsWith(y, MockIdPrefix)
    ensures x != y
  {
    PrefixesSeparate(x, y, IdPrefix(s), MockIdPrefix, 0);
  }

  /** A search of one or two code units after trimming is refused, and the
      store is left untouched. */
  lemma GateDecidesFetch(s: NewsState, arg: Filters, outcomes: seq<FetchOutcome>, isoBefore: nat -> string)
    requires |arg.categories| > 0
    requires |outcomes| == |KnownSources(arg.sources)|
    requires 1 <= Utf16Length(Trim(arg.search)) <= 2
    ensures RunFetch(s, arg, outcomes, isoBefore) == s
  {
    ShortSearchNeverFetches(arg.search);
  }
}
