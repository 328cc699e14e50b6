/** The Baidu engine: a fixed JSON API request built from the stripped query and the
    page number, and a response that checks that `feed` is present and has an `entry`
    member, iterates that member as it is, and maps every entry with a title and a url
    to a record. */
module Baidu {
  import opened Wrappers
  import opened Strings
  import opened JsonValues
  import opened Sequences
  import FormEncoding
  import opened Requests

  /** The search endpoint the query parameters are appended to. */
  const BaseUrl: string := "https://www.baidu.com/s"

  /** The page size the engine declares to the host. */
  const ResultsPerPage: int := 10

  // ---------------------------------------------------------------------------
  // request
  // ---------------------------------------------------------------------------

  /** The query parameters, in the order the dict literal lists them. The number of
      results asked for is 20 (not the declared page size), and the page number is
      passed as it is, not as an offset. */
  function QueryParams(query: string, pageno: int): seq<(string, string)>
  {
    [("wd", Strip(query)), ("rn", "20"), ("pn", IntToString(pageno)), ("tn", "json")]
  }

  /** The request URL; `quote` stands for urllib's `quote_plus`. */
  function RequestUrl(query: string, pageno: int, quote: string -> string): string
  {
    BaseUrl + "?" + FormEncoding.UrlEncode(QueryParams(query, pageno), quote)
  }

  /** `request`: sets the URL and nothing else. */
  method Request(query: string, params: RequestParams, quote: string -> string)
    modifies params`url
    ensures params.url == RequestUrl(query, old(params.pageno), quote)
    ensures params.pageno == old(params.pageno) && params.cookies == old(params.cookies)
    ensures params.headers == old(params.headers) && params.httpMethod == old(params.httpMethod)
    ensures params.data == old(params.data)
  {
    var pageno := params.pageno;
    params.url := RequestUrl(query, pageno, quote);
  }

  /** The parameter values: the keyword is the query with its surrounding whitespace
      removed, 20 results are asked for, `pn` reads back as the page number itself, and
      the output format is JSON. */
  lemma QueryParamValues(query: string, pageno: int)
    ensures var ps := QueryParams(query, pageno);
            |ps| == 4
            && ps[0] == ("wd", Strip(query))
            && (Strip(query) == [] || (!IsSpace(Strip(query)[0]) && !IsSpace(Strip(query)[|Strip(query)| - 1])))
            && ps[1] == ("rn", "20") && ps[1].1 != IntToString(ResultsPerPage)
            && ps[2] == ("pn", IntToString(pageno)) && ParseInt(IntToString(pageno)) == pageno
            && ps[3] == ("tn", "json")
  {
    ParseIntToString(pageno);
    assert IntToString(ResultsPerPage) == "10";
  }

  /** The URL is the endpoint, `?`, and then, when escaping never produces `&`, exactly
      one field per query parameter, in the order `wd`, `rn`, `pn`, `tn`
      (QueryParamValues gives their values). */
  lemma RequestUrlFields(query: string, pageno: int, quote: string -> string)
    requires forall s :: '&' !in quote(s)
    ensures var url, n := RequestUrl(query, pageno, quote), |BaseUrl| + 1;
            n <= |url| && url[..n] == BaseUrl + "?"
            && Split(url[n..], '&') == FormEncoding.Fields(QueryParams(query, pageno), quote)
  {
    var ps := QueryParams(query, pageno);
    var encoded := FormEncoding.UrlEncode(ps, quote);
    var url := RequestUrl(query, pageno, quote);
    var n := |BaseUrl| + 1;
    assert url == (BaseUrl + "?") + encoded;
    assert url[..n] == BaseUrl + "?" && url[n..] == encoded;
    FormEncoding.FieldsOfUrlEncode(ps, quote);
  }

  // ---------------------------------------------------------------------------
  // response
  // ---------------------------------------------------------------------------

  /** One result: the entry's title, url and abstract as found, and its date. */
  datatype Record<D> = Record(title: Json, url: Json, content: Json, publishedDate: Option<D>)

  /** The value `x.get(key)` returned is truthy (None is not). */
  predicate Present(v: Option<Json>)
  {
    v.Some? && Truthy(v.value)
  }

  /** The seconds `datetime.fromtimestamp` reads from a JSON value: a number (a boolean
      counts as 0 or 1); None where it raises TypeError. */
  function Seconds(t: Json): (r: Option<real>)
    ensures r.Some? <==> t.JInt? || t.JFloat? || t.JBool?
  {
    match t
    case JInt(i) => Some(i as real)
    case JFloat(x) => Some(x)
    case JBool(b) => Some(if b then 1.0 else 0.0)
    case _ => None
  }

  /** The publication date of an entry whose `time` lookup gave `time`;
      `fromTimestamp` stands for `datetime.fromtimestamp` (None: it raised ValueError). */
  function PublishedDate<D>(time: Option<Json>, fromTimestamp: real -> Option<D>): (r: Option<D>)
    ensures time.None? ==> r.None?
    ensures time in {Some(JInt(0)), Some(JFloat(0.0)), Some(JBool(false)), Some(JNull), Some(JString(""))}
            ==> r.None?
    ensures time.Some? && !(time.value.JInt? || time.value.JFloat? || time.value.JBool?) ==> r.None?
    ensures time.Some? && time.value.JInt? && time.value.i != 0 ==> r == fromTimestamp(time.value.i as real)
    ensures time.Some? && time.value.JFloat? && time.value.r != 0.0 ==> r == fromTimestamp(time.value.r)
    ensures time == Some(JBool(true)) ==> r == fromTimestamp(1.0)
  {
    if !Present(time) then None
    else
      match Seconds(time.value)
      case None => None
      case Some(s) => fromTimestamp(s)
  }

  /** The abstract of an entry, `""` when it has none (`entry.get("abs", "")`). */
  function Content(members: seq<(string, Json)>): Json
  {
    match Lookup(members, "abs")
    case Some(c) => c
    case None => JString("")
  }

  /** One pass of the loop: AttributeError when the entry is not a dict, nothing when its
      title or url is missing or falsy, its record otherwise. */
  function EntryRecord<D>(entry: Json, fromTimestamp: real -> Option<D>): Result<Option<Record<D>>, PyError>
  {
    match Get(entry, "title")
    case Failure(e) => Failure(e)
    case Success(title) =>
      if !Present(title) then Success(None)
      else
        match Get(entry, "url")
        case Failure(e) => Failure(e)
        case Success(url) =>
          if !Present(url) then Success(None)
          else
            Success(Some(Record(title.value, url.value, Content(entry.members),
                                PublishedDate(Lookup(entry.members, "time"), fromTimestamp))))
  }

  function EntryStep<D>(fromTimestamp: real -> Option<D>): Json -> Result<Option<Record<D>>, PyError>
  {
    entry => EntryRecord(entry, fromTimestamp)
  }

  /** The message of the error raised for a body that does not decode. */
  function DecodeMessage(cause: string): (m: string)
    ensures |m| >= 18 && m[..18] == "Invalid response: " && m[18..] == cause
    ensures m != ShapeMessage
  {
    "Invalid response: " + cause
  }

  /** The message of the error raised for a document without `feed.entry`. */
  const ShapeMessage: string := "Invalid response"

  /** The entries `data["feed"]["entry"]` iterates over, after the shape check:
      ApiError when `feed` or `entry` is missing, TypeError where `in`, `[]` or the
      iteration does not apply to the value found. */
  function FeedEntries(data: Json): Result<seq<Json>, PyError>
  {
    match Contains(data, "feed")
    case Failure(e) => Failure(e)
    case Success(hasFeed) =>
      if !hasFeed then Failure(ApiError(ShapeMessage))
      else
        match GetItem(data, "feed")
        case Failure(e) => Failure(e)
        case Success(feed) =>
          match Contains(feed, "entry")
          case Failure(e) => Failure(e)
          case Success(hasEntry) =>
            if !hasEntry then Failure(ApiError(ShapeMessage))
            else
              match GetItem(feed, "entry")
              case Failure(e) => Failure(e)
              case Success(entries) => Elements(entries)
  }

  /** The outcome of `response`, given what `resp.json()` gave (Failure: the message of
      the decode error). */
  function Outcome<D>(decoded: Result<Json, string>, fromTimestamp: real -> Option<D>)
    : Result<seq<Record<D>>, PyError>
  {
    match decoded
    case Failure(cause) => Failure(ApiError(DecodeMessage(cause)))
    case Success(data) =>
      match FeedEntries(data)
      case Failure(e) => Failure(e)
      case Success(entries) => Scan(entries, EntryStep(fromTimestamp))
  }

  /** `response`. */
  method Response<D>(decoded: Result<Json, string>, fromTimestamp: real -> Option<D>)
    returns (r: Result<seq<Record<D>>, PyError>)
    ensures r == Outcome(decoded, fromTimestamp)
  {
    if decoded.Failure? {
      return Failure(ApiError(DecodeMessage(decoded.error)));
    }
    var data := decoded.value;
    var entries := FeedEntries(data);
    if entries.Failure? {
      return Failure(entries.error);
    }
    r := EntryLoop(entries.value, fromTimestamp);
  }

  /** The loop over the entries. */
  method EntryLoop<D>(entries: seq<Json>, fromTimestamp: real -> Option<D>)
    returns (r: Result<seq<Record<D>>, PyError>)
    ensures r == Scan(entries, EntryStep(fromTimestamp))
  {
    ghost var step := EntryStep(fromTimestamp);
    var results := [];
    var i := 0;
    while i < |entries|
      invariant 0 <= i <= |entries|
      invariant Scan(entries[..i], step) == Success(results)
    {
      var entry := entries[i];
      assert entries[..i + 1][..i] == entries[..i];
      var title := Get(entry, "title");
      if title.Failure? {
        ScanFailureStays(entries, i + 1, step);
        return Failure(title.error);
      }
      if Present(title.value) {
        var url := Get(entry, "url");
        if Present(url.value) {
          var publishedDate: Option<D> := None;
          var time := Get(entry, "time");
          if Present(time.value) {
            var seconds := Seconds(time.value.value);
            if seconds.Some? {
              publishedDate := fromTimestamp(seconds.value);
            }
          }
          var content := Get(entry, "abs");
          var c := if content.value.Some? then content.value.value else JString("");
          results := results + [Record(title.value.value, url.value.value, c, publishedDate)];
        }
      }
      i := i + 1;
    }
    assert entries[..i] == entries;
    return Success(results);
  }

  // ---------------------------------------------------------------------------
  // Properties of response
  // ---------------------------------------------------------------------------

  /** A body that does not decode raises an API error whose message starts with
      `Invalid response: ` and carries the decoder's message. */
  lemma DecodeFailure<D>(cause: string, fromTimestamp: real -> Option<D>)
    ensures var r := Outcome(Failure(cause), fromTimestamp);
            r.Failure? && r.error.ApiError?
            && |r.error.message| >= 18 && r.error.message[..18] == "Invalid response: "
            && r.error.message[18..] == cause
  {
  }

  /** A decoded dict without `feed`, or whose `feed` dict has no `entry`, raises the
      shape error, and that error is never one a decode failure raises. */
  lemma MissingFeed<D>(data: Json, fromTimestamp: real -> Option<D>, cause: string)
    requires data.JObject?
    requires var feed := Lookup(data.members, "feed");
             feed.None? || (feed.value.JObject? && Lookup(feed.value.members, "entry").None?)
    ensures Outcome(Success(data), fromTimestamp) == Failure(ApiError(ShapeMessage))
    ensures Outcome(Success(data), fromTimestamp) != Outcome(Failure(cause), fromTimestamp)
  {
    assert |DecodeMessage(cause)| > |ShapeMessage|;
  }

  /** An entry that is not a dict makes the whole response fail with AttributeError. */
  lemma NonDictEntry<D>(entries: seq<Json>, fromTimestamp: real -> Option<D>, j: nat)
    requires j < |entries| && !entries[j].JObject?
    ensures Scan(entries, EntryStep(fromTimestamp)).Failure?
    ensures Scan(entries, EntryStep(fromTimestamp)).error == AttributeError
  {
    ScanSucceeds(entries, EntryStep(fromTimestamp));
    ScanFails(entries, EntryStep(fromTimestamp));
  }

  /** When all entries are dicts the loop succeeds; it keeps exactly the entries with a
      truthy title and url, in their order, never more records than entries, and each
      record holds its entry's title, url, abstract (or `""`) and date. */
  lemma EntriesKept<D>(entries: seq<Json>, fromTimestamp: real -> Option<D>)
    requires forall j :: 0 <= j < |entries| ==> entries[j].JObject?
    ensures var step := EntryStep(fromTimestamp);
            Scan(entries, step).Success?
            && var out, ks := Scan(entries, step).value, Kept(entries, step);
               |out| == |ks| <= |entries|
               && (forall k, l :: 0 <= k < l < |ks| ==> ks[k] < ks[l])
               && (forall j :: 0 <= j < |entries| ==>
                     (j in ks <==> Present(Lookup(entries[j].members, "title"))
                                   && Present(Lookup(entries[j].members, "url"))))
               && (forall k :: 0 <= k < |out| ==>
                     var m := entries[ks[k]].members;
                     out[k] == Record(Lookup(m, "title").value, Lookup(m, "url").value, Content(m),
                                      PublishedDate(Lookup(m, "time"), fromTimestamp)))
  {
    var step := EntryStep(fromTimestamp);
    ScanSucceeds(entries, step);
    ScanKeeps(entries, step);
  }

}
