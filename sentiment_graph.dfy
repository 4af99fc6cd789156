/** `SentimentGraph`: counts the tones of one category's articles (or of all of them)
    and states which tone, if any, holds a strict majority. */
module SentimentGraphModel {
  import opened Wrappers
  import opened Seqs
  import opened Articles

  /** `category === 'all' || article.category.toLowerCase() === category.toLowerCase()`. */
  predicate InChart(a: Article, category: string)
  {
    category == "all" || SameCategory(a, category)
  }

  /** The articles the chart counts. */
  function ChartArticles(data: seq<Article>, category: string): (r: seq<Article>)
    ensures forall a :: a in r <==> a in data && InChart(a, category)
  {
    Filter(data, (a: Article) => InChart(a, category))
  }

  /** The category `'all'` keeps every article, in order. */
  lemma AllKeepsEverything(data: seq<Article>)
    ensures ChartArticles(data, "all") == data
  {
    FilterKeepsAll(data, (a: Article) => InChart(a, "all"));
  }

  /** The articles of one tone. */
  function OfTone(arts: seq<Article>, t: Tone): seq<Article>
  {
    Filter(arts, (a: Article) => ToneOf(a) == t)
  }

  /** The reduce's accumulator `{ positive, neutral, negative }`. */
  datatype Totals = Totals(positive: nat, neutral: nat, negative: nat)

  /** The reduce over the filtered articles: each article adds one to its tone's count. */
  method CountTones(arts: seq<Article>) returns (acc: Totals)
    ensures acc.positive == |OfTone(arts, Positive)|
    ensures acc.negative == |OfTone(arts, Negative)|
    ensures acc.neutral == |OfTone(arts, Neutral)|
  {
    acc := Totals(0, 0, 0);
    var i := 0;
    while i < |arts|
      invariant 0 <= i <= |arts|
      invariant acc.positive == |OfTone(arts[..i], Positive)|
      invariant acc.negative == |OfTone(arts[..i], Negative)|
      invariant acc.neutral == |OfTone(arts[..i], Neutral)|
    {
      var a := arts[i];
      assert arts[..i + 1] == arts[..i] + [a];
      OfToneAppend(arts[..i], a, Positive);
      OfToneAppend(arts[..i], a, Negative);
      OfToneAppend(arts[..i], a, Neutral);
      var c := Score(a);
      if c >= 0.05 {
        acc := acc.(positive := acc.positive + 1);
      } else if c <= -0.05 {
        acc := acc.(negative := acc.negative + 1);
      } else {
        acc := acc.(neutral := acc.neutral + 1);
      }
      i := i + 1;
    }
    assert arts[..i] == arts;
  }

  /** One more article adds one to the count of its own tone only. */
  lemma OfToneAppend(xs: seq<Article>, a: Article, t: Tone)
    ensures |OfTone(xs + [a], t)| == |OfTone(xs, t)| + (if ToneOf(a) == t then 1 else 0)
  {
    FilterConcat(xs, [a], (x: Article) => ToneOf(x) == t);
    assert [a][1..] == [];
  }

  /** Every article is counted exactly once. */
  lemma {:induction false} CountsCoverAll(arts: seq<Article>)
    ensures |OfTone(arts, Positive)| + |OfTone(arts, Neutral)| + |OfTone(arts, Negative)| == |arts|
    decreases |arts|
  {
    if arts != [] {
      CountsCoverAll(arts[1..]);
    }
  }

  /** The insight line under the chart. */
  datatype Insight = MostlyPositive | MostlyNegative | Balanced

  function InsightOf(t: Totals): (i: Insight)
    ensures i == MostlyPositive <==> t.positive > t.negative + t.neutral
    ensures i == MostlyNegative <==> t.negative > t.positive + t.neutral
    ensures i == Balanced <==> t.positive <= t.negative + t.neutral && t.negative <= t.positive + t.neutral
  {
    if t.positive > t.negative + t.neutral then MostlyPositive
    else if t.negative > t.positive + t.neutral then MostlyNegative
    else Balanced
  }

  /** A positive and a negative majority cannot both hold, so the order in which the
      insight tests them does not matter. */
  lemma MajoritiesExclusive(t: Totals)
    ensures !(t.positive > t.negative + t.neutral && t.negative > t.positive + t.neutral)
  {
  }

  /** The text of each insight. */
  function InsightText(i: Insight): (s: string)
    ensures s != []
  {
    match i
    case MostlyPositive => "Most articles have a positive tone!"
    case MostlyNegative => "Most articles have a negative tone."
    case Balanced => "Articles show a balanced sentiment distribution."
  }

  /** Each insight has its own text, so the text tells which one holds. */
  lemma InsightTextsDistinct(i: Insight, j: Insight)
    ensures InsightText(i) == InsightText(j) <==> i == j
  {
    if i != j {
      assert InsightText(i)[0] != InsightText(j)[0] || InsightText(i)[21] != InsightText(j)[21];
    }
  }

  /** `getPercentage(count)` before `toFixed(1)`: 0 when nothing was counted. */
  function Percentage(count: nat, total: nat): (p: real)
    ensures total == 0 ==> p == 0.0
    ensures count <= total ==> 0.0 <= p <= 100.0
    ensures total > 0 && count == total ==> p == 100.0
  {
    if total == 0 then 0.0 else (count as real / total as real) * 100.0
  }

  /** The chart's state: the totals, the loading flag and the number of articles. */
  class SentimentGraph {
    var sentiments: Totals
    var loading: bool
    var totalArticles: nat
    const category: string

    constructor (category: string)
      ensures sentiments == Totals(0, 0, 0) && loading && totalArticles == 0
      ensures this.category == category
    {
      sentiments := Totals(0, 0, 0);
      loading := true;
      totalArticles := 0;
      this.category := category;
    }

    /** The fetch effect: an ok response replaces the totals; a failed one keeps them.
        `resp` is `None` when the request fails or is not ok, and also when the category
        is not `'all'` and a served article has a null `category`: the filter then throws
        inside the `try`, which `Article` cannot hold. */
    method Load(resp: Option<seq<Article>>)
      modifies this`sentiments, this`loading, this`totalArticles
      ensures !loading
      ensures resp.Some? ==>
                totalArticles == |ChartArticles(resp.value, category)|
                && sentiments.positive + sentiments.neutral + sentiments.negative == totalArticles
                && sentiments.positive == |OfTone(ChartArticles(resp.value, category), Positive)|
                && sentiments.negative == |OfTone(ChartArticles(resp.value, category), Negative)|
      ensures resp.None? ==> sentiments == old(sentiments) && totalArticles == old(totalArticles)
    {
      if resp.Some? {
        var arts := ChartArticles(resp.value, category);
        sentiments := CountTones(arts);
        totalArticles := |arts|;
        CountsCoverAll(arts);
      }
      loading := false;
    }
  }
}
