/** The single-article carousel of the early front end (`brightfeed/src/App.js`): one
    article at a time, with Next and Previous wrapping around the list. */
module Carousel {
  import opened Wrappers

  /** JavaScript's `a % n`: the remainder takes the sign of `a` (truncating division). */
  function JsRem(a: int, n: int): (r: int)
    requires n != 0
    ensures a >= 0 ==> 0 <= r < (if n > 0 then n else -n)
    ensures a < 0 ==> (if n > 0 then -n else n) < r <= 0
  {
    var m := if n > 0 then n else -n;
    if a >= 0 then a % m else -((-a) % m)
  }

  /** For a non-negative dividend the JavaScript remainder is the mathematical one. */
  lemma JsRemNonNegative(a: int, n: int)
    requires a >= 0 && n > 0
    ensures JsRem(a, n) == a % n
  {
  }

  /** `(prevIndex + 1) % articles.length`. */
  function NextIndex(i: int, n: int): (r: int)
    requires n != 0
    ensures n > 0 && i >= -1 ==> 0 <= r < n
  {
    JsRem(i + 1, n)
  }

  /** `(prevIndex - 1 + articles.length) % articles.length`. */
  function PreviousIndex(i: int, n: int): (r: int)
    requires n != 0
    ensures n > 0 && i >= 1 - n ==> 0 <= r < n
  {
    JsRem(i - 1 + n, n)
  }

  /** Division with remainder is unique: whatever writes `a` as `q * n + r` with
      `0 <= r < n` gives the remainder and quotient. */
  lemma ModUnique(a: int, n: int, q: int, r: int)
    requires n > 0 && 0 <= r < n && a == q * n + r
    ensures a % n == r && a / n == q
  {
    var q0 := a / n;
    var r0 := a % n;
    assert (q - q0) * n == r0 - r;
    if q > q0 {
      MulAtLeast(q - q0, n);
    } else if q < q0 {
      MulAtLeast(q0 - q, n);
    }
  }

  lemma MulAtLeast(x: int, n: int)
    requires x >= 1 && n > 0
    ensures x * n >= n
  {
    assert x * n == (x - 1) * n + n;
  }

  /** Next moves one place forward and wraps from the last index to the first. */
  lemma NextStep(i: int, n: int)
    requires 0 <= i < n
    ensures NextIndex(i, n) == (if i == n - 1 then 0 else i + 1)
  {
    if i == n - 1 {
      ModUnique(i + 1, n, 1, 0);
    } else {
      ModUnique(i + 1, n, 0, i + 1);
    }
  }

  /** Previous moves one place back and wraps from the first index to the last. */
  lemma PreviousStep(i: int, n: int)
    requires 0 <= i < n
    ensures PreviousIndex(i, n) == (if i == 0 then n - 1 else i - 1)
  {
    if i == 0 {
      ModUnique(i - 1 + n, n, 0, n - 1);
    } else {
      ModUnique(i - 1 + n, n, 1, i - 1);
    }
  }

  /** Both steps stay in range, and each undoes the other. */
  lemma StepsInRange(i: int, n: int)
    requires 0 <= i < n
    ensures 0 <= NextIndex(i, n) < n && 0 <= PreviousIndex(i, n) < n
    ensures PreviousIndex(NextIndex(i, n), n) == i
    ensures NextIndex(PreviousIndex(i, n), n) == i
  {
    NextStep(i, n);
    PreviousStep(i, n);
    PreviousStep(NextIndex(i, n), n);
    NextStep(PreviousIndex(i, n), n);
  }

  /** `k` presses of Next from index `i`. */
  function NextTimes(i: int, n: int, k: nat): int
    requires n > 0
  {
    if k == 0 then i else NextIndex(NextTimes(i, n, k - 1), n)
  }

  /** `k` presses of Next move `k` places round the circle. */
  lemma {:induction false} NextTimesMoves(i: int, n: int, k: nat)
    requires 0 <= i < n
    ensures NextTimes(i, n, k) == (i + k) % n
  {
    if k == 0 {
      ModUnique(i, n, 0, i);
    } else {
      NextTimesMoves(i, n, k - 1);
      NextStep(NextTimes(i, n, k - 1), n);
      ModSucc(i + k - 1, n);
    }
  }

  /** Adding one to a number moves its remainder one place round the circle. */
  lemma ModSucc(a: int, n: int)
    requires a >= 0 && n > 0
    ensures (a + 1) % n == (if a % n == n - 1 then 0 else a % n + 1)
  {
    var q := a / n;
    var r := a % n;
    if r == n - 1 {
      ModUnique(a + 1, n, q + 1, 0);
    } else {
      ModUnique(a + 1, n, q, r + 1);
    }
  }

  /** `n` presses of Next return to where they started. */
  lemma NextFullCircle(i: int, n: int)
    requires 0 <= i < n
    ensures NextTimes(i, n, n) == i
  {
    NextTimesMoves(i, n, n);
    ModUnique(i + n, n, 1, i);
  }

  /** The component's state. */
  class App<T> {
    var articles: seq<T>
    var currentIndex: int

    /** The index names an article whenever there is one to show. */
    ghost predicate Valid()
      reads this
    {
      articles == [] || 0 <= currentIndex < |articles|
    }

    constructor ()
      ensures Valid() && articles == [] && currentIndex == 0
    {
      articles := [];
      currentIndex := 0;
    }

    /** The mount fetch: an ok response replaces the list; a failure leaves it. The index
        stays 0. */
    method Load(resp: Option<seq<T>>)
      requires Valid() && articles == [] && currentIndex == 0
      modifies this`articles
      ensures Valid() && currentIndex == 0
      ensures resp.Some? ==> articles == resp.value
      ensures resp.None? ==> articles == []
    {
      if resp.Some? {
        articles := resp.value;
      }
    }

    /** `nextArticle`; the Next button exists only while the list is non-empty. */
    method Next()
      requires Valid() && articles != []
      modifies this`currentIndex
      ensures Valid()
      ensures currentIndex == NextIndex(old(currentIndex), |articles|)
      ensures currentIndex == (if old(currentIndex) == |articles| - 1 then 0 else old(currentIndex) + 1)
    {
      NextStep(currentIndex, |articles|);
      currentIndex := JsRem(currentIndex + 1, |articles|);
    }

    /** `previousArticle`. */
    method Previous()
      requires Valid() && articles != []
      modifies this`currentIndex
      ensures Valid()
      ensures currentIndex == PreviousIndex(old(currentIndex), |articles|)
      ensures currentIndex == (if old(currentIndex) == 0 then |articles| - 1 else old(currentIndex) - 1)
    {
      PreviousStep(currentIndex, |articles|);
      currentIndex := JsRem(currentIndex - 1 + |articles|, |articles|);
    }

    /** What is rendered: the current article, or the loading text for an empty list. */
    method Shown() returns (article: Option<T>)
      requires Valid()
      ensures articles == [] ==> article == None
      ensures articles != [] ==> article == Some(articles[currentIndex])
    {
      if |articles| > 0 {
        article := Some(articles[currentIndex]);
      } else {
        article := None;
      }
    }
  }
}
