/** The fixed articles the aggregator falls back on when a vendor fails.
    The table exists twice, as `getMockArticles` in `api/mockData.ts:9-72`
    and inline in `newsSlice.ts:179-242`, which is the copy the thunk calls;
    the two are identical. */
module MockData {
  import opened Wrappers
  import opened Text
  import opened NewsTypes

  const MockIdPrefix := "mock-"

  /** Milliseconds before "now" each mock article claims to be published. */
  const OneHour := 3600000

  /** `getMockArticles(source, category)`: two NewsAPI articles, one Guardian
      article, one New York Times article, and nothing for any other key.
      Every article is filed under the category asked for, carries the same
      source label the live mapper of that vendor gives, and has an id that
      starts with "mock-". `isoBefore(ms)` stands for the ISO timestamp of
      the instant `ms` milliseconds before the call. */
  function MockArticles(source: string, category: string, isoBefore: nat -> string): (r: seq<Article>)
    ensures ParseSource(source).None? ==> r == []
    ensures ParseSource(source) == Some(NewsApi) ==> |r| == 2
    ensures ParseSource(source) == Some(Guardian) ==> |r| == 1
    ensures ParseSource(source) == Some(NyTimes) ==> |r| == 1
    ensures forall a :: a in r ==> a.category == category
    ensures forall a :: a in r ==>
              ParseSource(source).Some? && a.source == SourceLabel(ParseSource(source).value)
    ensures forall a :: a in r ==> StartsWith(a.id, MockIdPrefix)
    ensures DistinctIds(r)
  {
    match ParseSource(source)
    case None => []
    case Some(src) => MockTable(src, category, isoBefore)
  }

  /** The table `mockData` holds, one entry per vendor. */
  function MockTable(src: NewsSource, category: string, isoBefore: nat -> string): (r: seq<Article>)
    ensures src == NewsApi ==> |r| == 2
    ensures src != NewsApi ==> |r| == 1
    ensures forall a :: a in r ==> a.category == category && a.source == SourceLabel(src)
    ensures forall a :: a in r ==> StartsWith(a.id, MockIdPrefix)
    ensures DistinctIds(r)
  {
    match src
    case NewsApi =>
      MockIdInjective("newsapi-1", "newsapi-2");
      [ Article(MockId("newsapi-1"), TechTitle, TechDescription, TechUrl, Some(TechImage),
                SourceLabel(NewsApi), category, Some("Tech Reporter"), isoBefore(0)),
        Article(MockId("newsapi-2"), MarketsTitle, MarketsDescription, MarketsUrl, Some(MarketsImage),
                SourceLabel(NewsApi), category, Some("Financial Analyst"), isoBefore(OneHour)) ]
    case Guardian =>
      [ Article(MockId("guardian-1"), ClimateTitle, ClimateDescription, ClimateUrl, Some(ClimateImage),
                SourceLabel(Guardian), category, Some("Environmental Correspondent"), isoBefore(2 * OneHour)) ]
    case NyTimes =>
      [ Article(MockId("nyt-1"), CultureTitle, CultureDescription, CultureUrl, Some(CultureImage),
                SourceLabel(NyTimes), category, Some("Culture Editor"), isoBefore(3 * OneHour)) ]
  }

  const TechTitle := "Breaking: Technology Advances Continue to Shape Modern World"
  const TechDescription :=
    "Latest developments in technology are transforming how we live and work in unprecedented ways."
  const TechUrl := "https://example.com/tech-news"
  const TechImage := "https://images.unsplash.com/photo-1518709268805-4e9042af2176?w=800"

  const MarketsTitle := "Global Markets Show Resilience Amid Economic Uncertainty"
  const MarketsDescription :=
    "Financial markets continue to demonstrate stability despite ongoing global challenges."
  const MarketsUrl := "https://example.com/finance-news"
  const MarketsImage := "https://images.unsplash.com/photo-1559526324-4b87b5e36e44?w=800"

  const ClimateTitle := "Environmental Initiatives Gain Momentum Worldwide"
  const ClimateDescription :=
    "Countries around the globe are implementing new policies to address climate change challenges."
  const ClimateUrl := "https://example.com/environment-news"
  const ClimateImage := "https://images.unsplash.com/photo-1569163139382-de56a4d3154a?w=800"

  const CultureTitle := "Cultural Trends Reshape Modern Society"
  const CultureDescription :=
    "New cultural movements are influencing art, entertainment, and social interactions across demographics."
  const CultureUrl := "https://example.com/culture-news"
  const CultureImage := "https://images.unsplash.com/photo-1542401886-65d6c61db217?w=800"

  /** The mock ids: "mock-" followed by a per-article tag. */
  function MockId(tag: string): (id: string)
    ensures StartsWith(id, MockIdPrefix)
  {
    assert (MockIdPrefix + tag)[..|MockIdPrefix|] == MockIdPrefix;
    MockIdPrefix + tag
  }

  /** Different tags give different ids. */
  lemma MockIdInjective(tag1: string, tag2: string)
    requires tag1 != tag2
    ensures MockId(tag1) != MockId(tag2)
  {
    assert MockId(tag1)[|MockIdPrefix|..] == tag1;
    assert MockId(tag2)[|MockIdPrefix|..] == tag2;
  }

  /** The mock articles of two different vendors never share an id, so the
      whole fallback table has distinct ids. */
  lemma MockIdsDistinctAcrossSources(s: NewsSource, t: NewsSource, category: string, isoBefore: nat -> string)
    requires s != t
    ensures forall a, b ::
              (a in MockArticles(SourceKey(s), category, isoBefore) &&
               b in MockArticles(SourceKey(t), category, isoBefore)) ==> a.id != b.id
  {
    ParseSourceKey(s);
    ParseSourceKey(t);
  }
}
