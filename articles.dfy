/** News articles as the two article views see them, and the predicates they filter
    by: category and headline matching, and the tone of the headline's compound
    sentiment score. */
module Articles {
  import opened Wrappers
  import opened Text

  /** An article from `/api/news`. `compound` is `sentiment.headline.compound`, absent
      when any part of that path is missing. Other fields are only displayed. */
  datatype Article = Article(category: string, headline: string, compound: Option<real>)

  /** The three tones the views bucket articles into. */
  datatype Tone = Positive | Negative | Neutral

  /** `article.sentiment?.headline?.compound || 0`. */
  function Score(a: Article): (s: real)
    ensures a.compound.None? ==> s == 0.0
    ensures a.compound.Some? ==> s == a.compound.value
  {
    if a.compound.Some? then a.compound.value else 0.0
  }

  /** The bucket of the sentiment chart's reduce: tried positive, then negative. */
  function ToneOf(a: Article): (t: Tone)
    ensures t == Positive <==> Score(a) >= 0.05
    ensures t == Negative <==> Score(a) <= -0.05
    ensures t == Neutral <==> -0.05 < Score(a) < 0.05
  {
    var c := Score(a);
    if c >= 0.05 then Positive
    else if c <= -0.05 then Negative
    else Neutral
  }

  /** The article list's sentiment test for one button. */
  function MatchesTone(a: Article, t: Tone): (b: bool)
    ensures b ==> ToneOf(a) == t
  {
    var c := Score(a);
    match t
    case Positive => c >= 0.05
    case Negative => c <= -0.05
    case Neutral => c > -0.05 && c < 0.05
  }

  /** The article list's three tests are disjoint, cover every article, and place each
      article in the bucket the sentiment chart counts it in. */
  lemma ToneAgrees(a: Article, t: Tone)
    ensures MatchesTone(a, t) <==> ToneOf(a) == t
  {
  }

  /** An article without a score is neutral. */
  lemma MissingScoreIsNeutral(a: Article)
    requires a.compound.None?
    ensures ToneOf(a) == Neutral && MatchesTone(a, Neutral)
  {
  }

  /** `article.category.toLowerCase() === category.toLowerCase()`. */
  function SameCategory(a: Article, category: string): (b: bool)
    ensures b ==> |a.category| == |category|
    ensures a.category == category ==> b
  {
    Lower(a.category) == Lower(category)
  }

  /** `article.headline.toLowerCase().includes(query.toLowerCase())`. */
  function HeadlineMatches(a: Article, query: string): (b: bool)
    ensures b ==> |query| <= |a.headline|
  {
    Contains(Lower(a.headline), Lower(query))
  }

  /** Category matching ignores case. */
  lemma SameCategoryIgnoresCase(a: Article, category: string)
    ensures SameCategory(a, category) <==> SameCategory(a, Lower(category))
    ensures SameCategory(a, category) <==> SameCategory(a.(category := Lower(a.category)), category)
  {
    LowerIdempotent(category);
    LowerIdempotent(a.category);
  }

  /** An empty search matches every headline. */
  lemma EmptyQueryMatches(a: Article)
    ensures HeadlineMatches(a, "")
  {
    ContainsEmpty(Lower(a.headline));
  }
}
