/** `NewsPage`: one category's articles, narrowed by the search query and optionally by
    tone, shown three cards at a time. */
module NewsPageModel {
  import opened Wrappers
  import opened Seqs
  import opened Articles

  /** The fetch's category filter. */
  function CategoryArticles(data: seq<Article>, category: string): (r: seq<Article>)
    ensures forall a :: a in r <==> a in data && SameCategory(a, category)
  {
    Filter(data, (a: Article) => SameCategory(a, category))
  }

  /** The search filter. */
  function SearchResults(arts: seq<Article>, query: string): (r: seq<Article>)
    ensures forall a :: a in r <==> a in arts && HeadlineMatches(a, query)
  {
    Filter(arts, (a: Article) => HeadlineMatches(a, query))
  }

  /** `filterBySentiment(t)` for a tone: the tone filter, then the search filter. */
  function SentimentResults(arts: seq<Article>, t: Tone, query: string): (r: seq<Article>)
    ensures forall a :: a in r <==> a in arts && MatchesTone(a, t) && HeadlineMatches(a, query)
  {
    Filter(Filter(arts, (a: Article) => MatchesTone(a, t)), (a: Article) => HeadlineMatches(a, query))
  }

  /** The two filters in a row are one filter by both tests, so the result keeps the
      order of the articles, and holds each matching article as often as they do. */
  lemma SentimentResultsInOrder(arts: seq<Article>, t: Tone, query: string)
    ensures SentimentResults(arts, t, query) == Filter(arts, (a: Article) => MatchesTone(a, t) && HeadlineMatches(a, query))
    ensures IsSubsequence(SentimentResults(arts, t, query), arts)
    ensures IsSubsequence(SentimentResults(arts, t, query), SearchResults(arts, query))
  {
    var tone := (a: Article) => MatchesTone(a, t);
    var search := (a: Article) => HeadlineMatches(a, query);
    var both := (a: Article) => MatchesTone(a, t) && HeadlineMatches(a, query);
    var bothSwapped := (a: Article) => HeadlineMatches(a, query) && MatchesTone(a, t);
    FilterFilter(arts, tone, search, both);
    FilterIsSubsequence(arts, both);
    FilterFilter(arts, search, tone, bothSwapped);
    FilterSameTest(arts, both, bothSwapped);
    FilterIsSubsequence(SearchResults(arts, query), tone);
  }

  /** JavaScript's `slice` index: a negative value counts from the end, and the result
      is clamped to `[0, n]`. */
  function SliceIndex(k: int, n: nat): (r: nat)
    ensures r <= n
    ensures 0 <= k <= n ==> r == k
    ensures k < 0 && n + k >= 0 ==> r == n + k
  {
    if k < 0 then (if n + k < 0 then 0 else n + k)
    else if k > n then n
    else k
  }

  /** `xs.slice(start, end)`. */
  function Slice<T>(xs: seq<T>, start: int, end: int): (r: seq<T>)
    ensures |r| <= |xs|
  {
    var s := SliceIndex(start, |xs|);
    var e := SliceIndex(end, |xs|);
    if s < e then xs[s..e] else []
  }

  /** The cards on screen: `filteredArticles.slice(currentIndex, currentIndex + 3)`. */
  function Window<T>(xs: seq<T>, i: int): (r: seq<T>)
    ensures |r| <= 3
  {
    Slice(xs, i, i + 3)
  }

  /** From a non-negative index the cards are the articles from that index on, three
      of them when enough remain. */
  lemma WindowShape<T>(xs: seq<T>, i: int)
    ensures 0 <= i <= |xs| ==> Window(xs, i) == xs[i..if i + 3 <= |xs| then i + 3 else |xs|]
    ensures 0 <= i && i + 3 <= |xs| ==> |Window(xs, i)| == 3
  {
  }

  /** `Math.min(prev + 3, filteredArticles.length - 3)`. */
  function NextIndex(i: int, n: nat): (r: int)
    ensures r <= n - 3 && r <= i + 3
    ensures r == i + 3 || r == n - 3
    ensures i + 3 <= n - 3 ==> r == i + 3
  {
    if i + 3 < n - 3 then i + 3 else n - 3
  }

  /** `Math.max(prev - 3, 0)`. */
  function PrevIndex(i: int): (r: int)
    ensures r >= 0 && r >= i - 3
    ensures r == i - 3 || r == 0
    ensures i >= 3 ==> r == i - 3
    ensures i < 3 ==> r == 0
  {
    if i - 3 > 0 then i - 3 else 0
  }

  /** Next shows the three cards after the current ones while three more remain, and
      otherwise the last three. */
  lemma NextShowsFollowingCards<T>(xs: seq<T>, i: int)
    requires 0 <= i && 3 <= |xs|
    ensures i + 6 <= |xs| ==> Window(xs, NextIndex(i, |xs|)) == xs[i + 3..i + 6]
    ensures i + 6 > |xs| ==> Window(xs, NextIndex(i, |xs|)) == xs[|xs| - 3..]
  {
    WindowShape(xs, NextIndex(i, |xs|));
  }

  /** With three articles or more, paging from a full window keeps a full window. */
  lemma PagingKeepsFullWindow(n: nat, i: int)
    requires 3 <= n && 0 <= i <= n - 3
    ensures 0 <= NextIndex(i, n) <= n - 3
    ensures 0 <= PrevIndex(i) <= n - 3
  {
  }

  /** With fewer than three articles, Next leaves a negative index, and with two of them
      the window then starts from the end and shows only the last article. */
  lemma NextWithFewArticles<T>(xs: seq<T>, i: int)
    requires |xs| < 3
    ensures NextIndex(i, |xs|) < 0
    ensures |xs| == 2 && i >= 0 ==> Window(xs, NextIndex(i, |xs|)) == [xs[1]]
  {
  }

  class NewsPage {
    var articles: seq<Article>
    var filteredArticles: seq<Article>
    var currentIndex: int
    var sentimentFilter: Option<Tone>
    var loading: bool
    var category: string
    var searchQuery: string

    /** The list holds articles of the page's category, and what is shown is an
        order-keeping part of it. */
    ghost predicate Valid()
      reads this
    {
      && (forall a :: a in articles ==> SameCategory(a, category))
      && IsSubsequence(filteredArticles, articles)
    }

    constructor (category: string, searchQuery: string)
      ensures Valid()
      ensures articles == [] && filteredArticles == [] && currentIndex == 0
      ensures sentimentFilter == None && loading
      ensures this.category == category && this.searchQuery == searchQuery
    {
      articles := [];
      filteredArticles := [];
      currentIndex := 0;
      sentimentFilter := None;
      loading := true;
      this.category := category;
      this.searchQuery := searchQuery;
    }

    /** The fetch effect, run on mount and whenever the category or query changes.
        `resp` is `None` when the request fails or is not ok, and also when a served
        article has a null `category`, or a category match has a null `headline`: the
        filters then throw inside the `try`, which `Article` cannot hold. The index and the tone
        filter are left as they were, so a tone chosen earlier no longer narrows the list. */
    method Fetch(resp: Option<seq<Article>>)
      modifies this`articles, this`filteredArticles, this`loading
      ensures Valid() && !loading
      ensures resp.Some? ==> articles == CategoryArticles(resp.value, category)
      ensures resp.Some? ==> filteredArticles == SearchResults(articles, searchQuery)
      ensures resp.None? ==> articles == [] && filteredArticles == []
    {
      loading := true;
      if resp.Some? {
        var query := searchQuery;
        articles := CategoryArticles(resp.value, category);
        filteredArticles := SearchResults(articles, query);
        FilterIsSubsequence(articles, (a: Article) => HeadlineMatches(a, query));
      } else {
        articles := [];
        filteredArticles := [];
      }
      loading := false;
    }

    /** New `category` and `searchQuery` props, followed by the fetch they trigger. */
    method ChangeProps(newCategory: string, newQuery: string, resp: Option<seq<Article>>)
      modifies this`articles, this`filteredArticles, this`loading, this`category, this`searchQuery
      ensures Valid() && !loading && category == newCategory && searchQuery == newQuery
      ensures resp.Some? ==> articles == CategoryArticles(resp.value, newCategory)
      ensures resp.Some? ==> filteredArticles == SearchResults(articles, newQuery)
      ensures resp.None? ==> articles == [] && filteredArticles == []
    {
      category := newCategory;
      searchQuery := newQuery;
      Fetch(resp);
    }

    /** `filterBySentiment`: the index goes back to 0; no tone means the search alone. */
    method FilterBySentiment(tone: Option<Tone>)
      requires Valid()
      modifies this`filteredArticles, this`currentIndex, this`sentimentFilter
      ensures Valid()
      ensures currentIndex == 0 && sentimentFilter == tone
      ensures tone.None? ==> filteredArticles == SearchResults(articles, searchQuery)
      ensures tone.Some? ==> filteredArticles == SentimentResults(articles, tone.value, searchQuery)
    {
      sentimentFilter := tone;
      currentIndex := 0;
      if tone.None? {
        var query := searchQuery;
        filteredArticles := SearchResults(articles, query);
        FilterIsSubsequence(articles, (a: Article) => HeadlineMatches(a, query));
      } else {
        filteredArticles := SentimentResults(articles, tone.value, searchQuery);
        SentimentResultsInOrder(articles, tone.value, searchQuery);
      }
    }

    /** `nextArticle`. */
    method NextArticle()
      requires Valid()
      modifies this`currentIndex
      ensures Valid()
      ensures currentIndex == NextIndex(old(currentIndex), |filteredArticles|)
    {
      currentIndex := NextIndex(currentIndex, |filteredArticles|);
    }

    /** `prevArticle`. */
    method PrevArticle()
      requires Valid()
      modifies this`currentIndex
      ensures Valid()
      ensures currentIndex == PrevIndex(old(currentIndex)) && currentIndex >= 0
    {
      currentIndex := PrevIndex(currentIndex);
    }

    /** The cards rendered. */
    method Cards() returns (cards: seq<Article>)
      ensures cards == Window(filteredArticles, currentIndex)
      ensures |cards| <= 3
    {
      cards := Window(filteredArticles, currentIndex);
      WindowShape(filteredArticles, currentIndex);
    }
  }

  /** Two matching articles: after Next only the second one is on screen. */
  method TwoArticleNext(first: Article, second: Article) returns (cards: seq<Article>)
    requires SameCategory(first, "tech") && SameCategory(second, "tech")
    ensures cards == [second]
  {
    var page := new NewsPage("tech", "");
    EmptyQueryMatches(first);
    EmptyQueryMatches(second);
    FilterKeepsAll([first, second], (a: Article) => SameCategory(a, "tech"));
    page.Fetch(Some([first, second]));
    assert page.articles == [first, second];
    FilterKeepsAll(page.articles, (a: Article) => HeadlineMatches(a, ""));
    page.NextArticle();
    cards := page.Cards();
    NextWithFewArticles(page.filteredArticles, 0);
  }
}
