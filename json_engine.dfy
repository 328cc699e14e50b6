/** The generic JSON engine: a request built from a URL template and an optional body
    template, and a response whose records are picked out of the decoded JSON by the
    configured path queries. */
module JsonEngine {
  import opened Wrappers
  import opened Strings
  import opened JsonValues
  import opened JsonQuery
  import opened Sequences
  import FormEncoding
  import opened Requests

  /** A value substituted into a template field by `str.format`. */
  datatype FormatArg = Text(s: string) | Number(n: int)

  /** The engine's settings, one field per configuration variable. */
  datatype Config = Config(
    searchUrl: string,
    httpMethod: string,
    requestBody: string,
    cookies: map<string, string>,
    headers: map<string, string>,
    paging: bool,
    pageSize: int,
    firstPageNum: int,
    resultsQuery: string,
    urlQuery: Option<string>,
    urlPrefix: string,
    titleQuery: Option<string>,
    contentQuery: Option<string>,
    suggestionQuery: string,
    titleHtmlToText: bool,
    contentHtmlToText: bool)

  // ---------------------------------------------------------------------------
  // request
  // ---------------------------------------------------------------------------

  /** The page number sent to the site, when paging is on and the URL template has a
      `{pageno}` field. */
  function PageArgument(cfg: Config, pageno: int): (r: Option<int>)
    ensures r.Some? <==> cfg.paging && Find(cfg.searchUrl, "{pageno}") >= 0
  {
    if cfg.paging && Find(cfg.searchUrl, "{pageno}") >= 0
    then Some((pageno - 1) * cfg.pageSize + cfg.firstPageNum)
    else None
  }

  /** The first page is sent as `first_page_num`. */
  lemma FirstPage(cfg: Config)
    requires PageArgument(cfg, 1).Some?
    ensures PageArgument(cfg, 1) == Some(cfg.firstPageNum)
  {
  }

  /** Consecutive pages are sent `page_size` apart. */
  lemma NextPage(cfg: Config, pageno: int)
    requires PageArgument(cfg, pageno).Some?
    ensures PageArgument(cfg, pageno + 1) == Some(PageArgument(cfg, pageno).value + cfg.pageSize)
  {
    assert pageno * cfg.pageSize == (pageno - 1) * cfg.pageSize + cfg.pageSize;
  }

  /** Python's `s[n:]`. */
  function Drop(s: string, n: nat): string
  {
    if |s| <= n then "" else s[n..]
  }

  /** `urlencode({'q': query})[2:]`: the query as it goes into the URL. */
  function EncodedQuery(query: string, quote: string -> string): string
  {
    Drop(FormEncoding.UrlEncode([("q", query)], quote), 2)
  }

  /** Since escaping leaves the name `q` alone, what goes into the URL is the escaped
      query, without the `q=` the slice cuts off. */
  lemma EncodedQueryIsEscapedQuery(query: string, quote: string -> string)
    requires quote("q") == "q"
    ensures EncodedQuery(query, quote) == quote(query)
  {
    var fields := FormEncoding.Fields([("q", query)], quote);
    assert fields == [FormEncoding.Field("q", query, quote)];
    var encoded := FormEncoding.UrlEncode([("q", query)], quote);
    assert encoded == "q=" + quote(query);
    assert encoded[2..] == quote(query);
  }

  /** The fields the URL template is formatted with. */
  function UrlArgs(cfg: Config, query: string, pageno: int, quote: string -> string): (fp: map<string, FormatArg>)
    ensures fp.Keys <= {"query", "pageno"}
    ensures "query" in fp && fp["query"] == Text(EncodedQuery(query, quote))
    ensures "pageno" in fp <==> PageArgument(cfg, pageno).Some?
    ensures "pageno" in fp ==> fp["pageno"] == Number((pageno - 1) * cfg.pageSize + cfg.firstPageNum)
  {
    var fp := map["query" := Text(EncodedQuery(query, quote))];
    match PageArgument(cfg, pageno)
    case Some(n) => fp["pageno" := Number(n)]
    case None => fp
  }

  /** The fields the body template is formatted with: the same, except that the query is
      the raw one, not escaped. */
  function BodyArgs(cfg: Config, query: string, pageno: int, quote: string -> string): (fp: map<string, FormatArg>)
    ensures fp.Keys == UrlArgs(cfg, query, pageno, quote).Keys
    ensures fp["query"] == Text(query)
    ensures forall k :: k in fp && k != "query" ==> fp[k] == UrlArgs(cfg, query, pageno, quote)[k]
  {
    UrlArgs(cfg, query, pageno, quote)["query" := Text(query)]
  }

  /** `request`: merges the configured cookies and headers into the parameters, then
      formats the URL (and the body, when a body template is set) and sets the method.
      `quote` stands for urllib's `quote_plus`, `format` for `str.format` (None: it raised). */
  method Request(cfg: Config, query: string, params: RequestParams, quote: string -> string,
                 format: (string, map<string, FormatArg>) -> Option<string>)
    returns (err: Option<PyError>)
    modifies params
    ensures params.pageno == old(params.pageno)
    ensures params.cookies == old(params.cookies) + cfg.cookies
    ensures params.headers == old(params.headers) + cfg.headers
    ensures var url := format(cfg.searchUrl, UrlArgs(cfg, query, old(params.pageno), quote));
            var body := format(cfg.requestBody, BodyArgs(cfg, query, old(params.pageno), quote));
            if url.None? then
              err == Some(FormatError) && params.url == old(params.url)
              && params.httpMethod == old(params.httpMethod) && params.data == old(params.data)
            else
              params.url == url.value && params.httpMethod == cfg.httpMethod
              && (if cfg.requestBody == "" then err == None && params.data == old(params.data)
                  else if body.None? then err == Some(FormatError) && params.data == old(params.data)
                  else err == None && params.data == Some(body.value))
  {
    var pageno := params.pageno;
    var fp := UrlArgs(cfg, query, pageno, quote);
    params.cookies := params.cookies + cfg.cookies;
    params.headers := params.headers + cfg.headers;
    var url := format(cfg.searchUrl, fp);
    if url.None? {
      return Some(FormatError);
    }
    params.url := url.value;
    params.httpMethod := cfg.httpMethod;
    if cfg.requestBody != "" {
      var body := format(cfg.requestBody, BodyArgs(cfg, query, pageno, quote));
      if body.None? {
        return Some(FormatError);
      }
      params.data := Some(body.value);
    }
    return None;
  }

  // ---------------------------------------------------------------------------
  // response
  // ---------------------------------------------------------------------------

  /** One entry of the engine's result list. */
  datatype Output =
    | Record(url: string, title: string, content: string)
    | Suggestion(suggestion: Json)

  /** `identity`, the text filter used when HTML extraction is off. */
  function Identity(arg: string): string
  {
    arg
  }

  /** The filter applied to a title or content: `html_to_text` when enabled, else `identity`. */
  function TextFilter(enabled: bool, htmlToText: string -> string): (f: string -> string)
    ensures enabled ==> forall s :: f(s) == htmlToText(s)
    ensures !enabled ==> forall s :: f(s) == s
  {
    if enabled then htmlToText else Identity
  }

  /** `query(data, path)[0]`: AttributeError when no query is configured (`None`),
      TypeError when `data` cannot be iterated, IndexError when nothing matched. */
  function FirstMatch(data: Json, path: Option<string>): Result<Json, PyError>
  {
    match path
    case None => Failure(AttributeError)
    case Some(p) =>
      match Evaluate(data, p)
      case None => Failure(TypeError)
      case Some(vs) => if vs == [] then Failure(IndexError) else Success(vs[0])
  }

  /** `query(data, path)[0]`, evaluated. */
  method QueryFirst(data: Json, path: Option<string>) returns (r: Result<Json, PyError>)
    ensures r == FirstMatch(data, path)
  {
    if path.None? {
      return Failure(AttributeError);
    }
    var vs := Query(data, path.value);
    if vs.None? {
      return Failure(TypeError);
    }
    if vs.value == [] {
      return Failure(IndexError);
    }
    return Success(vs.value[0]);
  }

  /** The record built from the values found for url, title and content. */
  function MakeRecord(cfg: Config, toString: Json -> string, htmlToText: string -> string,
                      url: Json, title: Json, content: Json): Output
  {
    Record(cfg.urlPrefix + toString(url),
           TextFilter(cfg.titleHtmlToText, htmlToText)(toString(title)),
           TextFilter(cfg.contentHtmlToText, htmlToText)(toString(content)))
  }

  /** The content value of an item, `""` when its query fails. */
  function ContentOrEmpty(cfg: Config, item: Json): Json
  {
    match FirstMatch(item, cfg.contentQuery)
    case Success(c) => c
    case Failure(_) => JString("")
  }

  /** One item with `results_query` set: skipped when its url or title query fails. */
  function TolerantStep(cfg: Config, toString: Json -> string, htmlToText: string -> string)
    : Json -> Result<Option<Output>, PyError>
  {
    item =>
      match FirstMatch(item, cfg.urlQuery)
      case Failure(_) => Success(None)
      case Success(url) =>
        match FirstMatch(item, cfg.titleQuery)
        case Failure(_) => Success(None)
        case Success(title) =>
          Success(Some(MakeRecord(cfg, toString, htmlToText, url, title, ContentOrEmpty(cfg, item))))
  }

  /** One item without `results_query`: any failing query raises. */
  function StrictStep(cfg: Config, toString: Json -> string, htmlToText: string -> string)
    : Json -> Result<Option<Output>, PyError>
  {
    item =>
      match FirstMatch(item, cfg.urlQuery)
      case Failure(e) => Failure(e)
      case Success(url) =>
        match FirstMatch(item, cfg.titleQuery)
        case Failure(e) => Failure(e)
        case Success(title) =>
          match FirstMatch(item, cfg.contentQuery)
          case Failure(e) => Failure(e)
          case Success(content) => Success(Some(MakeRecord(cfg, toString, htmlToText, url, title, content)))
  }

  function Suggestions(vs: seq<Json>): (r: seq<Output>)
    ensures |r| == |vs| && forall i :: 0 <= i < |vs| ==> r[i] == Suggestion(vs[i])
  {
    seq(|vs|, i requires 0 <= i < |vs| => Suggestion(vs[i]))
  }

  /** The records followed by the suggestions `suggestion_query` finds, when it is set. */
  function WithSuggestions(cfg: Config, json: Json, records: Result<seq<Output>, PyError>): Result<seq<Output>, PyError>
  {
    match records
    case Failure(e) => Failure(e)
    case Success(out) =>
      if cfg.suggestionQuery == "" then Success(out)
      else
        match Evaluate(json, cfg.suggestionQuery)
        case None => Failure(TypeError)
        case Some(ss) => Success(out + Suggestions(ss))
  }

  /** The outcome of `response` for a body `text`; `decode` stands for `json.loads`
      (Failure: the message of the decode error). */
  function Outcome(cfg: Config, text: string, decode: string -> Result<Json, string>,
                   toString: Json -> string, htmlToText: string -> string): Result<seq<Output>, PyError>
  {
    if text == "" then Success([])
    else
      match decode(text)
      case Failure(cause) => Failure(DecodeError(cause))
      case Success(json) =>
        if cfg.resultsQuery != "" then
          match Evaluate(json, cfg.resultsQuery)
          case None => Failure(TypeError)
          case Some(rs) =>
            if rs == [] then Success([])
            else
              match Elements(rs[0])
              case Failure(e) => Failure(e)
              case Success(items) => WithSuggestions(cfg, json, Scan(items, TolerantStep(cfg, toString, htmlToText)))
        else
          match Elements(json)
          case Failure(e) => Failure(e)
          case Success(items) => WithSuggestions(cfg, json, Scan(items, StrictStep(cfg, toString, htmlToText)))
  }

  /** `response`: scrape the records, then append the suggestions. */
  method Response(cfg: Config, text: string, decode: string -> Result<Json, string>,
                  toString: Json -> string, htmlToText: string -> string)
    returns (r: Result<seq<Output>, PyError>)
    ensures r == Outcome(cfg, text, decode, toString, htmlToText)
    ensures text == "" ==> r == Success([])
  {
    if text == "" {
      return Success([]);
    }
    var decoded := decode(text);
    if decoded.Failure? {
      return Failure(DecodeError(decoded.error));
    }
    var json := decoded.value;
    var results: seq<Output> := [];
    if cfg.resultsQuery != "" {
      var rs := Query(json, cfg.resultsQuery);
      if rs.None? {
        return Failure(TypeError);
      }
      if rs.value == [] {
        return Success(results);
      }
      var items := Elements(rs.value[0]);
      if items.Failure? {
        return Failure(items.error);
      }
      results := TolerantLoop(cfg, items.value, toString, htmlToText);
    } else {
      var items := Elements(json);
      if items.Failure? {
        return Failure(items.error);
      }
      var scanned := StrictLoop(cfg, items.value, toString, htmlToText);
      if scanned.Failure? {
        return Failure(scanned.error);
      }
      results := scanned.value;
    }
    r := Suggest(cfg, json, results);
  }

  /** The suggestion step of `response`: the records, then one suggestion per value found. */
  method Suggest(cfg: Config, json: Json, records: seq<Output>) returns (r: Result<seq<Output>, PyError>)
    ensures r == WithSuggestions(cfg, json, Success(records))
  {
    if cfg.suggestionQuery == "" {
      return Success(records);
    }
    var suggestions := Query(json, cfg.suggestionQuery);
    if suggestions.None? {
      return Failure(TypeError);
    }
    var results := records;
    var j := 0;
    while j < |suggestions.value|
      invariant 0 <= j <= |suggestions.value|
      invariant results == records + Suggestions(suggestions.value[..j])
    {
      results := results + [Suggestion(suggestions.value[j])];
      j := j + 1;
    }
    assert suggestions.value[..j] == suggestions.value;
    return Success(results);
  }

  /** The loop over the items when `results_query` is set. */
  method TolerantLoop(cfg: Config, items: seq<Json>, toString: Json -> string, htmlToText: string -> string)
    returns (results: seq<Output>)
    ensures Scan(items, TolerantStep(cfg, toString, htmlToText)) == Success(results)
  {
    ghost var step := TolerantStep(cfg, toString, htmlToText);
    results := [];
    var i := 0;
    while i < |items|
      invariant 0 <= i <= |items|
      invariant Scan(items[..i], step) == Success(results)
    {
      var item := items[i];
      assert items[..i + 1][..i] == items[..i];
      var url := QueryFirst(item, cfg.urlQuery);
      if url.Success? {
        var title := QueryFirst(item, cfg.titleQuery);
        if title.Success? {
          var content := QueryFirst(item, cfg.contentQuery);
          var c := if content.Success? then content.value else JString("");
          results := results + [MakeRecord(cfg, toString, htmlToText, url.value, title.value, c)];
        }
      }
      i := i + 1;
    }
    assert items[..i] == items;
  }

  /** The loop over the items when `results_query` is not set. */
  method StrictLoop(cfg: Config, items: seq<Json>, toString: Json -> string, htmlToText: string -> string)
    returns (r: Result<seq<Output>, PyError>)
    ensures r == Scan(items, StrictStep(cfg, toString, htmlToText))
  {
    ghost var step := StrictStep(cfg, toString, htmlToText);
    var results := [];
    var i := 0;
    while i < |items|
      invariant 0 <= i <= |items|
      invariant Scan(items[..i], step) == Success(results)
    {
      var item := items[i];
      assert items[..i + 1][..i] == items[..i];
      var url := QueryFirst(item, cfg.urlQuery);
      var title := Failure(AttributeError);
      var content := Failure(AttributeError);
      if url.Success? {
        title := QueryFirst(item, cfg.titleQuery);
        if title.Success? {
          content := QueryFirst(item, cfg.contentQuery);
        }
      }
      if url.Failure? || title.Failure? || content.Failure? {
        var e := if url.Failure? then url.error else if title.Failure? then title.error else content.error;
        ScanFailureStays(items, i + 1, step);
        return Failure(e);
      }
      results := results + [MakeRecord(cfg, toString, htmlToText, url.value, title.value, content.value)];
      i := i + 1;
    }
    assert items[..i] == items;
    return Success(results);
  }

  // ---------------------------------------------------------------------------
  // Properties of response
  // ---------------------------------------------------------------------------

  /** With `results_query` set the loop never raises; it keeps exactly the items whose url
      and title queries succeed, in order, and a failing content query gives `""`. */
  lemma TolerantKeeps(cfg: Config, items: seq<Json>, toString: Json -> string, htmlToText: string -> string)
    ensures var step := TolerantStep(cfg, toString, htmlToText);
            Scan(items, step).Success?
            && var out, ks := Scan(items, step).value, Kept(items, step);
               |out| == |ks| <= |items|
               && (forall j :: 0 <= j < |items| ==>
                     (j in ks <==> FirstMatch(items[j], cfg.urlQuery).Success?
                                   && FirstMatch(items[j], cfg.titleQuery).Success?))
               && (forall k :: 0 <= k < |out| ==>
                     out[k] == MakeRecord(cfg, toString, htmlToText,
                                          FirstMatch(items[ks[k]], cfg.urlQuery).value,
                                          FirstMatch(items[ks[k]], cfg.titleQuery).value,
                                          ContentOrEmpty(cfg, items[ks[k]])))
  {
    var step := TolerantStep(cfg, toString, htmlToText);
    ScanSucceeds(items, step);
    ScanKeeps(items, step);
  }

  /** Without `results_query`, one item whose url, title or content query fails makes the
      whole response fail. */
  lemma StrictFails(cfg: Config, items: seq<Json>, toString: Json -> string, htmlToText: string -> string, j: nat)
    requires j < |items|
    requires FirstMatch(items[j], cfg.urlQuery).Failure? || FirstMatch(items[j], cfg.titleQuery).Failure?
             || FirstMatch(items[j], cfg.contentQuery).Failure?
    ensures Scan(items, StrictStep(cfg, toString, htmlToText)).Failure?
  {
    ScanSucceeds(items, StrictStep(cfg, toString, htmlToText));
  }

  /** `o` is a record whose url starts with `prefix`. */
  predicate PrefixedRecord(o: Output, prefix: string)
  {
    o.Record? && |prefix| <= |o.url| && o.url[..|prefix|] == prefix
  }

  lemma ScannedRecords(items: seq<Json>, step: Json -> Result<Option<Output>, PyError>, prefix: string)
    requires Scan(items, step).Success?
    requires forall x :: Keeps(step, x) ==> PrefixedRecord(step(x).value.value, prefix)
    ensures forall i :: 0 <= i < |Scan(items, step).value| ==> PrefixedRecord(Scan(items, step).value[i], prefix)
  {
    ScanKeeps(items, step);
  }

  lemma SuggestedAfter(cfg: Config, json: Json, records: Result<seq<Output>, PyError>)
    requires WithSuggestions(cfg, json, records).Success?
    requires forall i :: 0 <= i < |records.value| ==> PrefixedRecord(records.value[i], cfg.urlPrefix)
    ensures var out := WithSuggestions(cfg, json, records).value;
            (forall i :: 0 <= i < |out| && out[i].Record? ==> PrefixedRecord(out[i], cfg.urlPrefix))
            && (forall i, j :: 0 <= i < j < |out| && out[i].Suggestion? ==> out[j].Suggestion?)
  {
  }

  /** Every record's url starts with `url_prefix`, and no record follows a suggestion. */
  lemma ResponseShape(cfg: Config, text: string, decode: string -> Result<Json, string>,
                      toString: Json -> string, htmlToText: string -> string)
    requires Outcome(cfg, text, decode, toString, htmlToText).Success?
    ensures var out := Outcome(cfg, text, decode, toString, htmlToText).value;
            (forall i :: 0 <= i < |out| && out[i].Record? ==> PrefixedRecord(out[i], cfg.urlPrefix))
            && (forall i, j :: 0 <= i < j < |out| && out[i].Suggestion? ==> out[j].Suggestion?)
  {
    if text != "" && decode(text).Success? {
      var json := decode(text).value;
      if cfg.resultsQuery != "" {
        var rs := Evaluate(json, cfg.resultsQuery).value;
        if rs != [] {
          var items := Elements(rs[0]).value;
          var step := TolerantStep(cfg, toString, htmlToText);
          ScanSucceeds(items, step);
          ScannedRecords(items, step, cfg.urlPrefix);
          SuggestedAfter(cfg, json, Scan(items, step));
        }
      } else {
        var items := Elements(json).value;
        var step := StrictStep(cfg, toString, htmlToText);
        ScannedRecords(items, step, cfg.urlPrefix);
        SuggestedAfter(cfg, json, Scan(items, step));
      }
    }
  }
}
