/** `get_news` of the scraper's back end (`backend/server.py`): one list comprehension
    over the cursor inside a single `try`, so one bad document fails the whole request. */
module BackendApi {
  import opened Wrappers
  import opened Documents

  /** The fields every stored document must have. */
  function RequiredKeys(): set<string>
  {
    {"category", "source", "headline", "summary", "description", "image", "url", "timestamp"}
  }

  /** The fields of every served record: no `date` and no `sentiment`. */
  function RecordKeys(): set<string>
  {
    {"category", "source", "headline", "summary", "description", "image", "sourceLink", "timestamp"}
  }

  /** One element of the comprehension. `article[key]` raises for a missing key, and
      `.isoformat()` raises unless the timestamp is a date; the isoformat text itself is
      not modelled, so the record carries the date value. */
  function Convert(d: Doc): (r: Option<Doc>)
    ensures r.Some? <==> RequiredKeys() <= d.Keys && d["timestamp"].Date?
    ensures r.Some? ==> r.value.Keys == RecordKeys()
  {
    if RequiredKeys() <= d.Keys && d["timestamp"].Date? then
      Some(map[
        "category" := d["category"],
        "source" := d["source"],
        "headline" := d["headline"],
        "summary" := d["summary"],
        "description" := d["description"],
        "image" := d["image"],
        "sourceLink" := d["url"],
        "timestamp" := d["timestamp"]
      ])
    else None
  }

  /** The fields of a converted record: `sourceLink` is the stored `url`, the other
      seven are copied under their own names. */
  lemma ConvertFields(d: Doc)
    requires Convert(d).Some?
    ensures Convert(d).value["sourceLink"] == d["url"]
    ensures forall k :: k in RecordKeys() && k != "sourceLink" ==> Convert(d).value[k] == d[k]
    ensures "date" !in Convert(d).value && "sentiment" !in Convert(d).value
  {
    var r := Convert(d).value;
    assert "sourceLink" in r;
  }

  /** The item can be converted: it is a document with every required field. */
  predicate Convertible(item: CursorItem)
  {
    item.Mapping? && Convert(item.doc).Some?
  }

  /** The route's outcome: the records of all documents, or the error when any item
      cannot be read or converted. */
  function Served(cursor: seq<CursorItem>): (r: NewsResponse)
    ensures r.Articles? <==> forall k :: 0 <= k < |cursor| ==> Convertible(cursor[k])
    ensures r.Articles? ==> |r.records| == |cursor|
    ensures r.Articles? ==> forall k :: 0 <= k < |cursor| ==> r.records[k] == Convert(cursor[k].doc).value
    decreases |cursor|
  {
    if cursor == [] then Articles([])
    else if !Convertible(cursor[0]) then ServerError
    else
      match Served(cursor[1..])
      case ServerError => ServerError
      case Articles(rest) => Articles([Convert(cursor[0].doc).value] + rest)
  }

  /** No partial list: a single bad item anywhere turns the whole response into the error. */
  lemma AllOrNothing(before: seq<CursorItem>, bad: CursorItem, after: seq<CursorItem>)
    requires !Convertible(bad)
    ensures Served(before + [bad] + after) == ServerError
  {
    assert (before + [bad] + after)[|before|] == bad;
  }
}
