/** The pure half of the three vendor fetchers: the query string, the request
    parameters, and the mapping of each vendor's decoded payload into
    `Article` records. The HTTP round trip itself is not modelled: a payload
    is an input.

    The code exists twice: in `api/fetchers.ts` (`buildQuery` at 11-18,
    NewsAPI at 20-49, The Guardian at 51-83, The New York Times at 85-117)
    and inline in `newsSlice.ts` (NewsAPI at 70-102, The Guardian at 104-139,
    The New York Times at 141-176, each building its query in place at
    71-76, 105-110 and 142-147). The thunk calls the inline copies. The
    copies agree in everything modelled here (the inline one writes the page
    size and the language as literals where `fetchers.ts` reads them from
    its configuration) except for the New York Times image:
    `newsSlice.ts:167-169` reads `multimedia[0]`, which `InlineNytImage`
    models, where `fetchers.ts:103-110` searches for the first item with a
    url, which `NytImage` models. */
module Fetchers {
  import opened Wrappers
  import opened Text
  import opened NewsTypes

  // ------------------------------------------------------------ the query

  /** The category part of the query: the first category, unless it is
      'general' (or the list is empty, where JavaScript reads `undefined`,
      which `filter(Boolean)` drops just like ''). */
  function CategoryTerm(f: Filters): string {
    if |f.categories| == 0 || f.categories[0] == General then ""
    else CategoryName(f.categories[0])
  }

  /** `buildQuery`: the search text and the category term, empty parts
      dropped, joined by one space. The query is empty exactly when both
      parts are; it always starts with the search text. */
  function BuildQuery(f: Filters): (q: string)
    ensures q == "" <==> f.search == "" && (|f.categories| == 0 || f.categories[0] == General)
    ensures StartsWith(q, f.search)
    ensures f.search == "" ==> q == CategoryTerm(f)
    ensures CategoryTerm(f) == "" ==> q == f.search
    ensures f.search != "" && CategoryTerm(f) != "" ==> q == f.search + " " + CategoryTerm(f)
  {
    JoinNonEmptyPair(f.search, CategoryTerm(f), " ");
    var q := Join(KeepNonEmpty([f.search, CategoryTerm(f)]), " ");
    assert f.search != "" && CategoryTerm(f) != "" ==> q[..|f.search|] == f.search;
    q
  }

  /** NewsAPI's `q`: the built query, or "news" when that is empty, so the
      NewsAPI request never goes out without a query. */
  function NewsApiQuery(f: Filters): (q: string)
    ensures q != ""
    ensures BuildQuery(f) != "" ==> q == BuildQuery(f)
    ensures BuildQuery(f) == "" ==> q == "news"
  {
    if BuildQuery(f) == "" then "news" else BuildQuery(f)
  }

  // ------------------------------------------------------- the parameters

  /** One query-string parameter, before URL encoding. */
  datatype Param = Param(name: string, value: string)

  /** `String(API_CONFIG.defaultPageSize)`. */
  const PageSize := "100"

  /** NYT dates: `date?.replace(/-/g, '') || ''`. No dash survives, every
      other character is kept, and an absent date gives "". */
  function NytDate(d: Option<string>): (r: string)
    ensures '-' !in r
    ensures d.None? ==> r == ""
    ensures d.Some? ==> forall c :: c != '-' ==> multiset(r)[c] == multiset(d.value)[c]
  {
    match d
    case None => ""
    case Some(s) => RemoveAll(s, '-')
  }

  function NewsApiParams(f: Filters, apiKey: Option<string>): seq<Param> {
    [ Param("apiKey", apiKey.GetOr("")),
      Param("q", NewsApiQuery(f)),
      Param("from", f.dateFrom.GetOr("")),
      Param("to", f.dateTo.GetOr("")),
      Param("language", "en"),
      Param("sortBy", "publishedAt"),
      Param("pageSize", PageSize) ]
  }

  function GuardianParams(f: Filters, apiKey: Option<string>): seq<Param> {
    [ Param("api-key", apiKey.GetOr("")),
      Param("q", BuildQuery(f)),
      Param("from-date", f.dateFrom.GetOr("")),
      Param("to-date", f.dateTo.GetOr("")),
      Param("show-fields", "all"),
      Param("page-size", PageSize) ]
  }

  function NytParams(f: Filters, apiKey: Option<string>): seq<Param> {
    [ Param("api-key", apiKey.GetOr("")),
      Param("q", BuildQuery(f)),
      Param("begin_date", NytDate(f.dateFrom)),
      Param("end_date", NytDate(f.dateTo)) ]
  }

  /** The parameters `fetchFromAPI` actually appends: those with a non-empty
      value, in their original order. */
  function SentParams(ps: seq<Param>): (r: seq<Param>)
    ensures |r| <= |ps|
    ensures forall p :: p in r <==> p in ps && p.value != ""
  {
    if ps == [] then []
    else if ps[0].value == "" then SentParams(ps[1..])
    else [ps[0]] + SentParams(ps[1..])
  }

  /** Dropping empty parameters distributes over concatenation, so the sent
      ones keep their order and their multiplicity. */
  lemma {:induction false} SentParamsAppend(a: seq<Param>, b: seq<Param>)
    ensures SentParams(a + b) == SentParams(a) + SentParams(b)
  {
    if a == [] {
      assert a + b == b;
    } else {
      assert (a + b)[1..] == a[1..] + b;
      SentParamsAppend(a[1..], b);
    }
  }

  /** A single parameter is sent exactly when its value is non-empty. */
  lemma SentParamsOfOne(p: Param)
    ensures SentParams([p]) == if p.value == "" then [] else [p]
  {
    assert [p][1..] == [];
  }

  predicate HasParam(ps: seq<Param>, name: string) {
    exists i :: 0 <= i < |ps| && ps[i].name == name
  }

  /** The NewsAPI request always carries a query. */
  lemma NewsApiAlwaysSendsQuery(f: Filters, apiKey: Option<string>)
    ensures Param("q", NewsApiQuery(f)) in SentParams(NewsApiParams(f, apiKey))
  {
    assert NewsApiParams(f, apiKey)[1] == Param("q", NewsApiQuery(f));
  }

  /** The Guardian request carries a query exactly when the built query is
      non-empty. */
  lemma GuardianQuerySentIffNonEmpty(f: Filters, apiKey: Option<string>)
    ensures HasParam(SentParams(GuardianParams(f, apiKey)), "q") <==> BuildQuery(f) != ""
  {
    var g := GuardianParams(f, apiKey);
    if BuildQuery(f) != "" {
      assert g[1] in SentParams(g);
      var i :| 0 <= i < |SentParams(g)| && SentParams(g)[i] == g[1];
    } else {
      forall i | 0 <= i < |SentParams(g)| ensures SentParams(g)[i].name != "q" {
        assert SentParams(g)[i] in g;
      }
    }
  }

  /** So does the New York Times request. */
  lemma NytQuerySentIffNonEmpty(f: Filters, apiKey: Option<string>)
    ensures HasParam(SentParams(NytParams(f, apiKey)), "q") <==> BuildQuery(f) != ""
  {
    var n := NytParams(f, apiKey);
    if BuildQuery(f) != "" {
      assert n[1] in SentParams(n);
      var j :| 0 <= j < |SentParams(n)| && SentParams(n)[j] == n[1];
    } else {
      forall i | 0 <= i < |SentParams(n)| ensures SentParams(n)[i].name != "q" {
        assert SentParams(n)[i] in n;
      }
    }
  }

  /** A date already written without dashes is sent as it is. */
  lemma NytDateKeepsDashlessDate(d: string)
    requires '-' !in d
    ensures NytDate(Some(d)) == d
  {
    RemoveAllAbsent(d, '-');
  }

  /** No NYT date parameter that is sent contains a dash. */
  lemma NytDatesSentWithoutDashes(f: Filters, apiKey: Option<string>)
    ensures forall p :: (p in SentParams(NytParams(f, apiKey)) &&
                         (p.name == "begin_date" || p.name == "end_date")) ==> '-' !in p.value
  {
  }

  // -------------------------------------------------------- the payloads

  datatype NewsApiArticle = NewsApiArticle(
    url: string,
    title: string,
    description: string,
    urlToImage: Option<string>,
    author: Option<string>,
    publishedAt: string)

  datatype GuardianFields = GuardianFields(
    trailText: Option<string>,
    thumbnail: Option<string>,
    byline: Option<string>)

  datatype GuardianArticle = GuardianArticle(
    id: string,
    webTitle: string,
    fields: Option<GuardianFields>,
    webUrl: string,
    webPublicationDate: string)

  /** One NYT multimedia entry; only its `url` is read. */
  datatype MediaItem = MediaItem(url: Option<string>)

  datatype NytByline = NytByline(original: Option<string>)

  datatype NytArticle = NytArticle(
    id: string,
    headline: string,
    summary: string,
    webUrl: string,
    multimedia: Option<seq<MediaItem>>,
    byline: Option<NytByline>,
    pubDate: string)

  /** The prefix each vendor puts in front of its own key to build an id. */
  function IdPrefix(s: NewsSource): string {
    match s
    case NewsApi => "newsapi-"
    case Guardian => "guardian-"
    case NyTimes => "nyt-"
  }

  /** The most NYT documents one fetch keeps. */
  const NytMaxDocs := 10

  const NytImageBase := "https://www.nytimes.com/"

  // --------------------------------------------------------- the mappers

  /** The category every mapped article is filed under: the first one. */
  function FirstCategory(f: Filters): string
    requires |f.categories| > 0
  {
    CategoryName(f.categories[0])
  }

  function FromNewsApi(category: string, a: NewsApiArticle): Article {
    Article(IdPrefix(NewsApi) + a.url, a.title, a.description, a.url, a.urlToImage,
            SourceLabel(NewsApi), category, a.author, a.publishedAt)
  }

  /** NewsAPI payload to articles: one article per document, in order. */
  function MapNewsApi(f: Filters, docs: seq<NewsApiArticle>): (r: seq<Article>)
    requires |f.categories| > 0
    ensures |r| == |docs|
    ensures forall i :: 0 <= i < |r| ==>
              && r[i].id == IdPrefix(NewsApi) + docs[i].url
              && r[i].url == docs[i].url
              && r[i].title == docs[i].title
              && r[i].description == docs[i].description
              && r[i].imageUrl == docs[i].urlToImage
              && r[i].author == docs[i].author
              && r[i].publishedAt == docs[i].publishedAt
              && r[i].source == SourceLabel(NewsApi)
              && r[i].category == FirstCategory(f)
  {
    seq(|docs|, i requires 0 <= i < |docs| => FromNewsApi(FirstCategory(f), docs[i]))
  }

  /** `fields?.trailText ?? ''`: the trail text when there is one, else "". */
  function GuardianDescription(fields: Option<GuardianFields>): (d: string)
    ensures fields.Some? && fields.value.trailText.Some? ==> d == fields.value.trailText.value
    ensures fields.None? || fields.value.trailText.None? ==> d == ""
  {
    match fields
    case None => ""
    case Some(fl) => fl.trailText.GetOr("")
  }

  function FromGuardian(category: string, a: GuardianArticle): Article {
    Article(IdPrefix(Guardian) + a.id, a.webTitle, GuardianDescription(a.fields), a.webUrl,
            if a.fields.Some? then a.fields.value.thumbnail else None,
            SourceLabel(Guardian), category,
            if a.fields.Some? then a.fields.value.byline else None,
            a.webPublicationDate)
  }

  /** Guardian payload to articles: one article per result, in order. */
  function MapGuardian(f: Filters, docs: seq<GuardianArticle>): (r: seq<Article>)
    requires |f.categories| > 0
    ensures |r| == |docs|
    ensures forall i :: 0 <= i < |r| ==>
              && r[i].id == IdPrefix(Guardian) + docs[i].id
              && r[i].title == docs[i].webTitle
              && r[i].description == GuardianDescription(docs[i].fields)
              && r[i].url == docs[i].webUrl
              && (docs[i].fields.None? ==> r[i].imageUrl.None? && r[i].author.None?)
              && (docs[i].fields.Some? ==>
                    r[i].imageUrl == docs[i].fields.value.thumbnail && r[i].author == docs[i].fields.value.byline)
              && r[i].publishedAt == docs[i].webPublicationDate
              && r[i].source == SourceLabel(Guardian)
              && r[i].category == FirstCategory(f)
  {
    seq(|docs|, i requires 0 <= i < |docs| => FromGuardian(FirstCategory(f), docs[i]))
  }

  predicate Truthy(u: Option<string>) {
    u.Some? && u.value != ""
  }

  /** The index `multimedia.find(item => item.url)` lands on: the first item
      with a non-empty url, or -1 when there is none. */
  function FirstWithUrl(items: seq<MediaItem>): (k: int)
    ensures -1 <= k < |items|
    ensures k == -1 <==> forall i :: 0 <= i < |items| ==> !Truthy(items[i].url)
    ensures k >= 0 ==> Truthy(items[k].url)
    ensures k >= 0 ==> forall j :: 0 <= j < k ==> !Truthy(items[j].url)
  {
    if items == [] then -1
    else if Truthy(items[0].url) then 0
    else
      var k := FirstWithUrl(items[1..]);
      if k < 0 then -1
      else
        assert forall j :: 1 <= j <= k ==> items[j] == items[1..][j - 1];
        k + 1
  }

  /** The NYT image: the site base followed by the url of the first
      multimedia item with a non-empty url; absent when there is no such
      item or no multimedia at all. */
  function NytImage(m: Option<seq<MediaItem>>): (r: Option<string>)
    ensures r.Some? <==> m.Some? && exists i :: 0 <= i < |m.value| && Truthy(m.value[i].url)
    ensures r.Some? ==> StripPrefix(r.value, NytImageBase) == m.value[FirstWithUrl(m.value)].url
  {
    match m
    case None => None
    case Some(items) =>
      var k := FirstWithUrl(items);
      if k < 0 then None
      else
        StripPrefixRoundTrip(NytImageBase, items[k].url.value);
        Some(NytImageBase + items[k].url.value)
  }

  function FromNyt(category: string, a: NytArticle, image: Option<string>): Article {
    Article(IdPrefix(NyTimes) + a.id, a.headline, a.summary, a.webUrl, image,
            SourceLabel(NyTimes), category,
            if a.byline.Some? then a.byline.value.original else None,
            a.pubDate)
  }

  function Min(a: int, b: int): int {
    if a < b then a else b
  }

  /** NYT payload to articles: the first ten documents at most, in order,
      one article each. */
  function MapNyt(f: Filters, docs: seq<NytArticle>): (r: seq<Article>)
    requires |f.categories| > 0
    ensures |r| == Min(NytMaxDocs, |docs|)
    ensures forall i :: 0 <= i < |r| ==>
              && r[i].id == IdPrefix(NyTimes) + docs[i].id
              && r[i].title == docs[i].headline
              && r[i].description == docs[i].summary
              && r[i].url == docs[i].webUrl
              && r[i].imageUrl == NytImage(docs[i].multimedia)
              && r[i].author == (if docs[i].byline.Some? then docs[i].byline.value.original else None)
              && r[i].publishedAt == docs[i].pubDate
              && r[i].source == SourceLabel(NyTimes)
              && r[i].category == FirstCategory(f)
  {
    var kept := docs[..Min(NytMaxDocs, |docs|)];
    seq(|kept|, i requires 0 <= i < |kept| => FromNyt(FirstCategory(f), kept[i], NytImage(kept[i].multimedia)))
  }

  // ---------------------------------------------- the inline NYT mapper

  /** The image rule of the inline NYT mapper: only the first
      multimedia item is looked at, and a missing `multimedia` is read
      anyway. `None` stands for the TypeError that read throws. */
  function InlineNytImage(m: Option<seq<MediaItem>>): (r: Option<Option<string>>)
    ensures r.None? <==> m.None?
    ensures m.Some? ==> r == Some(NytImage(Some(m.value[..Min(1, |m.value|)])))
  {
    match m
    case None => None
    case Some(items) =>
      Some(if |items| > 0 && Truthy(items[0].url) then Some(NytImageBase + items[0].url.value) else None)
  }

  /** The inline NYT mapper, the copy the thunk calls: the whole fetch
      throws as soon as one of the kept documents has no `multimedia`;
      otherwise it differs from `MapNyt` only in the image. */
  function InlineMapNyt(f: Filters, docs: seq<NytArticle>): (r: Option<seq<Article>>)
    requires |f.categories| > 0
    ensures r.None? <==> exists i :: 0 <= i < Min(NytMaxDocs, |docs|) && docs[i].multimedia.None?
    ensures r.Some? ==> |r.value| == |MapNyt(f, docs)|
    ensures r.Some? ==> forall i :: 0 <= i < |r.value| ==>
              r.value[i] == MapNyt(f, docs)[i].(imageUrl := InlineNytImage(docs[i].multimedia).value)
  {
    var kept := docs[..Min(NytMaxDocs, |docs|)];
    if exists i :: 0 <= i < |kept| && kept[i].multimedia.None? then None
    else Some(seq(|kept|, i requires 0 <= i < |kept| =>
                FromNyt(FirstCategory(f), kept[i], InlineNytImage(kept[i].multimedia).value)))
  }

  // -------------------------------------------------------------- lemmas

  /** `buildQuery` on the examples: no search and 'general' give "", no
      search and 'technology' give "technology". */
  lemma BuildQueryExamples(f: Filters)
    requires f.search == ""
    ensures |f.categories| > 0 && f.categories[0] == General ==> BuildQuery(f) == ""
    ensures |f.categories| > 0 && f.categories[0] == Technology ==> BuildQuery(f) == "technology"
  {
  }

  /** The two NYT image rules agree exactly when multimedia is present and
      its first item with a url is the first item, or there is none. */
  lemma InlineNytImageAgreement(m: Option<seq<MediaItem>>)
    ensures InlineNytImage(m) == Some(NytImage(m)) <==> m.Some? && FirstWithUrl(m.value) <= 0
  {
    if m.Some? && FirstWithUrl(m.value) > 0 {
      assert !Truthy(m.value[0].url);
      assert NytImage(m).Some?;
    }
  }

  /** A first item without a url hides a later one from the inline mapper. */
  lemma InlineNytImageMissesLaterUrl()
    ensures var m := Some([MediaItem(Some("")), MediaItem(Some("images/photo.jpg"))]);
            InlineNytImage(m) == Some(None) && NytImage(m) == Some(NytImageBase + "images/photo.jpg")
  {
    var items := [MediaItem(Some("")), MediaItem(Some("images/photo.jpg"))];
    assert FirstWithUrl(items) == 1 by {
      assert !Truthy(items[0].url) && Truthy(items[1].url);
    }
  }

  /** A document without multimedia makes the inline NYT mapper throw, where
      the current one just leaves the image out. */
  lemma InlineNytMapperThrowsWithoutMultimedia(f: Filters, doc: NytArticle)
    requires |f.categories| > 0 && doc.multimedia.None?
    ensures InlineMapNyt(f, [doc]).None?
    ensures |MapNyt(f, [doc])| == 1 && MapNyt(f, [doc])[0].imageUrl.None?
  {
    assert [doc][0].multimedia.None?;
  }

  /** Mapped NewsAPI articles have distinct ids when the urls are distinct. */
  lemma MapNewsApiDistinctIds(f: Filters, docs: seq<NewsApiArticle>)
    requires |f.categories| > 0
    requires forall i, j :: 0 <= i < j < |docs| ==> docs[i].url != docs[j].url
    ensures DistinctIds(MapNewsApi(f, docs))
  {
    var r := MapNewsApi(f, docs);
    forall i, j | 0 <= i < j < |r| ensures r[i].id != r[j].id {
      PrefixCancels(IdPrefix(NewsApi), docs[i].url, docs[j].url);
    }
  }

  /** Mapped Guardian articles have distinct ids when the results' ids are. */
  lemma MapGuardianDistinctIds(f: Filters, docs: seq<GuardianArticle>)
    requires |f.categories| > 0
    requires forall i, j :: 0 <= i < j < |docs| ==> docs[i].id != docs[j].id
    ensures DistinctIds(MapGuardian(f, docs))
  {
    var r := MapGuardian(f, docs);
    forall i, j | 0 <= i < j < |r| ensures r[i].id != r[j].id {
      PrefixCancels(IdPrefix(Guardian), docs[i].id, docs[j].id);
    }
  }

  /** Mapped NYT articles have distinct ids when the kept documents' ids are. */
  lemma MapNytDistinctIds(f: Filters, docs: seq<NytArticle>)
    requires |f.categories| > 0
    requires forall i, j :: 0 <= i < j < |docs| ==> docs[i].id != docs[j].id
    ensures DistinctIds(MapNyt(f, docs))
  {
    var r := MapNyt(f, docs);
    forall i, j | 0 <= i < j < |r| ensures r[i].id != r[j].id {
      PrefixCancels(IdPrefix(NyTimes), docs[i].id, docs[j].id);
    }
  }

  /** Every id a vendor mapper builds gives back the vendor's own key. */
  lemma IdsDecode(f: Filters, a: seq<NewsApiArticle>, g: seq<GuardianArticle>, n: seq<NytArticle>)
    requires |f.categories| > 0
    ensures forall i :: 0 <= i < |a| ==> StripPrefix(MapNewsApi(f, a)[i].id, IdPrefix(NewsApi)) == Some(a[i].url)
    ensures forall i :: 0 <= i < |g| ==> StripPrefix(MapGuardian(f, g)[i].id, IdPrefix(Guardian)) == Some(g[i].id)
    ensures forall i :: 0 <= i < Min(NytMaxDocs, |n|) ==>
              StripPrefix(MapNyt(f, n)[i].id, IdPrefix(NyTimes)) == Some(n[i].id)
  {
    forall i | 0 <= i < |a| ensures StripPrefix(MapNewsApi(f, a)[i].id, IdPrefix(NewsApi)) == Some(a[i].url) {
      StripPrefixRoundTrip(IdPrefix(NewsApi), a[i].url);
    }
    forall i | 0 <= i < |g| ensures StripPrefix(MapGuardian(f, g)[i].id, IdPrefix(Guardian)) == Some(g[i].id) {
      StripPrefixRoundTrip(IdPrefix(Guardian), g[i].id);
    }
    forall i | 0 <= i < Min(NytMaxDocs, |n|) ensures StripPrefix(MapNyt(f, n)[i].id, IdPrefix(NyTimes)) == Some(n[i].id) {
      StripPrefixRoundTrip(IdPrefix(NyTimes), n[i].id);
    }
  }

  /** Ids built by two different vendors never coincide. */
  lemma VendorIdsNeverCollide(s: NewsSource, t: NewsSource, x: string, y: string)
    requires s != t && StartsWith(x, IdPrefix(s)) && StartsWith(y, IdPrefix(t))
    ensures x != y
  {
    var i := if (s == NewsApi && t == NyTimes) || (s == NyTimes && t == NewsApi) then 1 else 0;
    PrefixesSeparate(x, y, IdPrefix(s), IdPrefix(t), i);
  }

  lemma PrefixCancels(p: string, u: string, v: string)
    requires u != v
    ensures p + u != p + v
  {
    assert (p + u)[|p|..] == u && (p + v)[|p|..] == v;
  }
}
