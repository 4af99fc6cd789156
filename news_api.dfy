/** `get_news` of the front-end's API server (`server.py`): every stored document
    becomes a record with nine fields, with fallbacks for renamed and missing fields.
    A document whose processing raises is skipped; a failing cursor fails the request. */
module NewsApi {
  import opened Documents

  /** The fields of every served record. */
  function RecordKeys(): set<string>
  {
    {"category", "source", "headline", "summary", "description", "image", "sourceLink", "date", "sentiment"}
  }

  /** `article.get("sourceLink") or article.get("url") or ""`. */
  function SourceLink(d: Doc): (v: Value)
    ensures "sourceLink" in d && Truthy(d["sourceLink"]) ==> v == d["sourceLink"]
    ensures !("sourceLink" in d && Truthy(d["sourceLink"])) && "url" in d && Truthy(d["url"]) ==> v == d["url"]
    ensures !("sourceLink" in d && Truthy(d["sourceLink"])) && !("url" in d && Truthy(d["url"])) ==> v == Str("")
  {
    Or(Or(Get(d, "sourceLink", Null), Get(d, "url", Null)), Str(""))
  }

  /** `article.get("image") or ""`. */
  function Image(d: Doc): (v: Value)
    ensures "image" in d && Truthy(d["image"]) ==> v == d["image"]
    ensures !("image" in d && Truthy(d["image"])) ==> v == Str("")
  {
    Or(Get(d, "image", Null), Str(""))
  }

  /** `article.get("date") or article.get("timestamp", "")`: a timestamp stored as null
      is served as null. */
  function DateField(d: Doc): (v: Value)
    ensures "date" in d && Truthy(d["date"]) ==> v == d["date"]
    ensures !("date" in d && Truthy(d["date"])) && "timestamp" in d ==> v == d["timestamp"]
    ensures !("date" in d && Truthy(d["date"])) && "timestamp" !in d ==> v == Str("")
  {
    Or(Get(d, "date", Null), Get(d, "timestamp", Str("")))
  }

  /** `article_data` for one stored document. */
  function Normalize(d: Doc): (r: Doc)
    ensures r.Keys == RecordKeys()
  {
    map[
      "category" := Get(d, "category", Str("")),
      "source" := Get(d, "source", Str("")),
      "headline" := Get(d, "headline", Str("")),
      "summary" := Get(d, "summary", Str("")),
      "description" := Get(d, "description", Str("")),
      "image" := Image(d),
      "sourceLink" := SourceLink(d),
      "date" := DateField(d),
      "sentiment" := Get(d, "sentiment", Obj(map[]))
    ]
  }

  /** The fallbacks of a record, field by field: the text fields default to `""` and
      the sentiment to `{}`; the other three take their fallback chains. */
  lemma NormalizeFields(d: Doc)
    ensures Normalize(d)["headline"] == (if "headline" in d then d["headline"] else Str(""))
    ensures Normalize(d)["category"] == (if "category" in d then d["category"] else Str(""))
    ensures Normalize(d)["source"] == (if "source" in d then d["source"] else Str(""))
    ensures Normalize(d)["summary"] == (if "summary" in d then d["summary"] else Str(""))
    ensures Normalize(d)["description"] == (if "description" in d then d["description"] else Str(""))
    ensures Normalize(d)["sentiment"] == (if "sentiment" in d then d["sentiment"] else Obj(map[]))
    ensures Normalize(d)["sourceLink"] == SourceLink(d)
    ensures Normalize(d)["image"] == Image(d)
    ensures Normalize(d)["date"] == DateField(d)
  {
    var r := Normalize(d);
    assert "headline" in r && "category" in r && "sentiment" in r;
    assert "source" in r && "summary" in r && "description" in r;
    assert "sourceLink" in r && "image" in r && "date" in r;
  }

  /** The documents of the cursor, in order, leaving out the items that are not mappings. */
  function Docs(cursor: seq<CursorItem>): (ds: seq<Doc>)
    ensures |ds| <= |cursor|
  {
    if cursor == [] then []
    else
      var last := cursor[|cursor| - 1];
      Docs(cursor[..|cursor| - 1]) + (if last.Mapping? then [last.doc] else [])
  }

  /** The records the loop appends for the items of `cursor`. */
  function Records(cursor: seq<CursorItem>): (rs: seq<Doc>)
    ensures |rs| <= |cursor|
  {
    if cursor == [] then []
    else
      var last := cursor[|cursor| - 1];
      Records(cursor[..|cursor| - 1]) + (if last.Mapping? then [Normalize(last.doc)] else [])
  }

  /** What `get_news` serves: an error when the cursor fails, otherwise the records. */
  function Served(cursor: seq<CursorItem>): NewsResponse
  {
    if ReadFailure in cursor then ServerError else Articles(Records(cursor))
  }

  /** The route: a loop over the cursor with a `try`/`continue` around each document. */
  method GetNews(cursor: seq<CursorItem>) returns (resp: NewsResponse)
    ensures resp == Served(cursor)
  {
    var articlesList: seq<Doc> := [];
    var i := 0;
    while i < |cursor|
      invariant 0 <= i <= |cursor|
      invariant articlesList == Records(cursor[..i])
      invariant ReadFailure !in cursor[..i]
    {
      assert cursor[..i + 1][..i] == cursor[..i];
      match cursor[i] {
        case ReadFailure =>
          assert ReadFailure in cursor;
          return ServerError;
        case NotAMapping =>
        case Mapping(d) =>
          articlesList := articlesList + [Normalize(d)];
      }
      i := i + 1;
    }
    assert cursor[..i] == cursor;
    resp := Articles(articlesList);
  }

  /** The records are the documents, normalised one by one in the same order: one record
      per document, and each with exactly the nine fields. */
  lemma {:induction false} RecordsFollowDocs(cursor: seq<CursorItem>)
    ensures |Records(cursor)| == |Docs(cursor)|
    ensures forall k :: 0 <= k < |Docs(cursor)| ==> Records(cursor)[k] == Normalize(Docs(cursor)[k])
    ensures forall k :: 0 <= k < |Records(cursor)| ==> Records(cursor)[k].Keys == RecordKeys()
    decreases |cursor|
  {
    if cursor != [] {
      RecordsFollowDocs(cursor[..|cursor| - 1]);
    }
  }

  /** When every item is a document, there is one document per item, in cursor order. */
  lemma {:induction false} AllMappingsKept(cursor: seq<CursorItem>)
    requires forall k :: 0 <= k < |cursor| ==> cursor[k].Mapping?
    ensures |Docs(cursor)| == |cursor|
    ensures forall k :: 0 <= k < |cursor| ==> Docs(cursor)[k] == cursor[k].doc
    decreases |cursor|
  {
    if cursor != [] {
      AllMappingsKept(cursor[..|cursor| - 1]);
    }
  }

  /** An item that is not a mapping is skipped: the rest are served as if it were absent. */
  lemma SkipsNonMapping(before: seq<CursorItem>, after: seq<CursorItem>)
    ensures Served(before + [NotAMapping] + after) == Served(before + after)
  {
    RecordsSplit(before, [NotAMapping]);
    RecordsSplit(before + [NotAMapping], after);
    RecordsSplit(before, after);
    assert Records([NotAMapping]) == [] by {
      assert [NotAMapping][..0] == [];
    }
    assert ReadFailure in before + [NotAMapping] + after <==> ReadFailure in before + after;
  }

  /** The records of two cursor parts are the records of each part. */
  lemma {:induction false} RecordsSplit(a: seq<CursorItem>, b: seq<CursorItem>)
    ensures Records(a + b) == Records(a) + Records(b)
    decreases |b|
  {
    if b == [] {
      assert a + b == a;
    } else {
      var ab := a + b;
      var front := b[..|b| - 1];
      var last := b[|b| - 1];
      var tail := if last.Mapping? then [Normalize(last.doc)] else [];
      assert ab[..|ab| - 1] == a + front && ab[|ab| - 1] == last;
      assert Records(ab) == Records(a + front) + tail;
      assert Records(b) == Records(front) + tail;
      RecordsSplit(a, front);
    }
  }
}
