# SearXNG JSON engines, modelled in Dafny

This project models two search-engine adapters of the SearXNG metasearch engine.

- **The generic JSON engine** (`searx/engines/json_engine.py`):
  - Its `request` builds an outgoing HTTP request from a URL template and an optional body template.
  - Its `response` decodes the site's JSON answer and picks records out of it with slash-separated path queries (`results_query`, `url_query`, …).
  - The path query language is `parse`, `do_query`, `query`, `iterate` and `is_iterable`. It is modelled on a JSON value type and proved against an independent reference definition: every (path, value) pair of the document in depth-first order, filtered by a path-matching predicate.
- **The Baidu engine** (`searx/engines/baidu.py`):
  - Its `request` builds a fixed query string from the stripped query and the page number.
  - Its `response` checks that `feed` is present and has an `entry` member; the value of `entry` is then iterated as it is. It keeps the entries that have a truthy `title` and `url`, and maps each kept entry to a record with its content and publication date.

Files:

- `wrappers.dfy`: `Option` and `Result`.
- `strings.dfy`: the parts of Python's `str` that the engines use. These are `split`/`join` on one character, `find`, `strip` with Python's whitespace set, and `str(n)`/`int(s)` for integers.
- `json_values.dfy`: the decoded JSON value and the Python exceptions the code raises. It models Python's truthiness, `in`, `x[key]`, `x.get(key)` and `for y in x` on JSON values.
- `sequences.dfy`: `Scan`, a loop that fails, skips or keeps each element, and its properties. Every `response` loop (`JsonEngine.TolerantLoop`, `JsonEngine.StrictLoop`, `Baidu.EntryLoop`) is an instance of it.
- `form_encoding.dfy`: `urlencode` over an ordered parameter list, with the escaping function as a parameter.
- `requests.dfy`: the host's `params` dict, as a class whose fields `request` updates in place.
- `json_query.dfy`: `iterate`, `is_iterable`, `parse`, `do_query`, `query`, and the reference definition with the proofs that connect them.
- `json_engine.dfy`: the JSON engine's configuration, `request`, `identity` and `response`.
- `baidu.dfy`: the Baidu engine's `request` and `response`.

Python's exceptions are values of type `PyError`. A function that can raise returns a `Result` or an `Option`, and `None` or `Failure` stands for the exception. Code outside the two files is passed in as a function parameter:

| parameter | stands for |
|---|---|
| `quote` | `quote_plus` |
| `format` | `str.format` (`None`: it raised) |
| `decode` / `decoded` | `json.loads` / `resp.json()` |
| `toString` | `searx.utils.to_string` |
| `htmlToText` | `searx.utils.html_to_text` |
| `fromTimestamp` | `datetime.fromtimestamp` (`None`: it raised ValueError) |

## Model

| member | source | states |
|---|---|---|
| JsonQuery.Iterate | searx/engines/json_engine.py:153-160 | `iterate` raises (None) exactly on null, booleans and numbers; dicts, lists and strings yield their entries |
| JsonQuery.IterateEntries | searx/engines/json_engine.py:153-160 | a dict yields its members in insertion order; a list yields its items in order, each keyed by `str(index)`, with distinct positions getting distinct keys that read back as the index; a string yields its characters as one-character strings, each keyed by `str(index)` |
| JsonQuery.IsIterable | searx/engines/json_engine.py:163-166 | `is_iterable` holds exactly for the values `iterate` accepts, minus strings |
| JsonQuery.Parse | searx/engines/json_engine.py:169-175 | `parse` returns the `/`-separated parts without the empty ones, in order; no returned key is empty or contains `/` |
| JsonQuery.SegmentsKeepCharacters | searx/engines/json_engine.py:169-175 | concatenating the parsed keys gives the query string without its slashes: nothing is lost or reordered |
| JsonQuery.SegmentsOfJoin | searx/engines/json_engine.py:169-175 | parsing a path written as non-empty, slash-free keys joined by `/` gives the keys back, the empty path included |
| JsonQuery.DoQuery | searx/engines/json_engine.py:178-199 | `do_query` returns the outcome that AnswerSelects characterises |
| JsonQuery.CollectLoop | searx/engines/json_engine.py:185-199 | the loop over the entries collects, entry by entry, the concatenation of what each entry contributes |
| JsonQuery.Visit | searx/engines/json_engine.py:187-198 | one entry contributes itself when it is under the single key; otherwise a container child is searched with `q[1:]` under the first key and with the whole path under any other key; scalar and string children are skipped on longer paths |
| JsonQuery.AnswerSelects | searx/engines/json_engine.py:178-199 | the empty path gives `[]`; a TypeError is raised exactly when the path is non-empty and `data` is a null, boolean or number; otherwise the result is the values at all matching paths of the document, in depth-first document order |
| JsonQuery.CollectSelects | searx/engines/json_engine.py:178-199 | the recursive collection equals the reference selection over all (path, value) pairs |
| JsonQuery.CollectFromSelects | searx/engines/json_engine.py:185-199 | the suffix of the loop from entry `i` on equals the selection over those entries' paths |
| JsonQuery.EntrySelects | searx/engines/json_engine.py:187-198 | the contribution of one entry equals the selection over the paths through it |
| JsonQuery.MatchesOneKey | searx/engines/json_engine.py:187-191 | with a one-key path, a path matches exactly when it ends at the key and passes no earlier occurrence of it: a matched value is not searched further |
| JsonQuery.MatchesLongerPath | searx/engines/json_engine.py:193-198 | with a longer path, a path matches exactly when it passes the first key and the rest after the first occurrence matches the rest of the query |
| JsonQuery.OneKeyQuery | searx/engines/json_engine.py:187-191 | a value is returned for `[k]` exactly when it is stored under `k` at the end of a path with no earlier `k` |
| JsonQuery.ScalarListIndex | searx/engines/json_engine.py:153-160 | on a list of scalars, the key `str(n)` returns exactly item `n`: list positions are compared as `str(index)` |
| JsonQuery.SelectAppend | searx/engines/json_engine.py:179-199 | selection distributes over concatenation, which is why results come out in traversal order |
| JsonQuery.SelectPrefixed | searx/engines/json_engine.py:193-198 | selecting below a key: the whole path for another key, the rest of the path for the first key, nothing for the last key |
| JsonQuery.Query | searx/engines/json_engine.py:202-205 | `query` parses the string and runs `do_query` on the result |
| JsonEngine.PageArgument | searx/engines/json_engine.py:212-213 | a page number is sent exactly when paging is on and the URL template contains `{pageno}` |
| JsonEngine.FirstPage | searx/engines/json_engine.py:212-213 | page 1 is sent as `first_page_num` |
| JsonEngine.NextPage | searx/engines/json_engine.py:212-213 | consecutive pages are sent `page_size` apart |
| JsonEngine.EncodedQueryIsEscapedQuery | searx/engines/json_engine.py:210 | `urlencode({'q': query})[2:]` is the escaped query alone |
| JsonEngine.UrlArgs | searx/engines/json_engine.py:210-213 | the URL fields are `query` (escaped) and, when a page number is sent, `pageno` with its value |
| JsonEngine.BodyArgs | searx/engines/json_engine.py:221-223 | the body fields are the URL fields except that `query` is the raw query |
| JsonEngine.Request | searx/engines/json_engine.py:208-226 | cookies and headers are merged into `params`, and the page number is left alone; a failing URL format raises with url, method and body unchanged; otherwise the URL is set from the escaped query and the method from the configuration; the body is formatted from the raw query only when a body template is set |
| JsonEngine.TextFilter | searx/engines/json_engine.py:242-243 | the title and content filters are `html_to_text` when enabled and otherwise `identity` (lines 229-230), which returns its argument unchanged |
| JsonEngine.QueryFirst | searx/engines/json_engine.py:251-252 | `query(result, path)[0]`: AttributeError for an unset path, TypeError when `result` cannot be iterated, IndexError when nothing matched, else the first match |
| JsonEngine.Response | searx/engines/json_engine.py:233-284 | `response` returns the outcome of its two branches plus the suggestions; an empty body gives `[]` |
| JsonEngine.TolerantLoop | searx/engines/json_engine.py:249-265 | the `results_query` loop never raises and produces the scan of the items with the skipping step |
| JsonEngine.StrictLoop | searx/engines/json_engine.py:267-278 | the loop without `results_query` produces the scan with the raising step, stopping at the first failing item |
| JsonEngine.Suggest | searx/engines/json_engine.py:280-284 | no suggestion query leaves the records as they are; otherwise one suggestion follows the records for each value found, and a query that cannot iterate the document raises |
| JsonEngine.TolerantKeeps | searx/engines/json_engine.py:249-265 | with `results_query`, exactly the items whose url and title queries succeed are kept, in order, never more than the items; each record is built from its item, and a failing content query gives `""` |
| JsonEngine.StrictFails | searx/engines/json_engine.py:267-270 | without `results_query`, one item whose url, title or content query fails makes the whole response fail |
| JsonEngine.ResponseShape | searx/engines/json_engine.py:259-284 | every record's url starts with `url_prefix`, and no record follows a suggestion |
| Baidu.Request | searx/engines/baidu.py:31-38 | the URL is set from the stripped query and the page number, and nothing else in `params` changes |
| Baidu.QueryParamValues | searx/engines/baidu.py:33-35 | `wd` is the query without surrounding whitespace; `rn` is 20, not the declared page size of 10; `pn` reads back as the page number itself; `tn` is `json` |
| Baidu.RequestUrlFields | searx/engines/baidu.py:37 | the URL is the endpoint, `?`, then exactly one field per parameter in the order `wd`, `rn`, `pn`, `tn` (when escaping never yields `&`) |
| Baidu.DecodeMessage | searx/engines/baidu.py:42-45 | the decode error's message is `Invalid response: ` followed by the decoder's message, and never equals the shape error's message |
| Baidu.DecodeFailure | searx/engines/baidu.py:42-45 | an undecodable body raises an API error whose message starts with `Invalid response: ` |
| Baidu.MissingFeed | searx/engines/baidu.py:48-49 | a dict without `feed`, or with a `feed` dict lacking `entry`, raises `Invalid response`, distinct from every decode error |
| Baidu.Response | searx/engines/baidu.py:41-72 | `response` returns the decode error, the shape error or the scan of the entries |
| Baidu.EntryLoop | searx/engines/baidu.py:51-72 | the loop over the entries produces the scan of the entries with the filtering step |
| Baidu.NonDictEntry | searx/engines/baidu.py:52 | an entry that is not a dict makes the response fail with AttributeError |
| Baidu.EntriesKept | searx/engines/baidu.py:51-70 | exactly the entries with a truthy title and url are kept, in their order, never more records than entries; each record holds its entry's title and url, its `abs` or `""`, and its date |
| Baidu.PublishedDate | searx/engines/baidu.py:55-60 | no date when `time` is missing or falsy (0 included) or not a number; otherwise the converted timestamp (booleans count as 0 and 1) |
| JsonValues.Contains | searx/engines/baidu.py:48 | `key in x`: key membership for a dict, element membership for a list, substring for a string; TypeError otherwise |
| JsonValues.GetItem | searx/engines/baidu.py:51 | `x[key]`: the bound value of a dict, KeyError when missing, TypeError for other values |
| JsonValues.Get | searx/engines/baidu.py:52-66 | `x.get(key)`: the bound value or None for a dict, AttributeError for other values |
| JsonValues.Elements | searx/engines/json_engine.py:249 | `for y in x` visits a list's items, a dict's keys, a string's characters; TypeError otherwise |
| Sequences.ScanKeeps | searx/engines/json_engine.py:249-265 | a successful loop keeps exactly the kept elements' outputs, in order, never more than the input |
| Sequences.ScanFails | searx/engines/json_engine.py:267-278 | a failed loop fails with the error of some failing element |
| FormEncoding.FieldsOfUrlEncode | searx/engines/baidu.py:37 | the encoded query splits back at `&` into one field per parameter, in order (when escaping never yields `&`) |
| Strings.StripSlice | searx/engines/baidu.py:33 | `strip` removes exactly the leading and the trailing whitespace, and what remains is a slice of the input |
| Strings.StripIdempotent | searx/engines/baidu.py:33 | stripping twice is stripping once |
| Strings.ParseIntToString | searx/engines/baidu.py:35 | `int(str(n)) == n` for every integer |

## Left out

- Decoding JSON (`loads`, `resp.json()`), `quote_plus`, `str.format`, `to_string`, `html_to_text` and `datetime.fromtimestamp` are parameters of the model, not modelled. For `str.format` the model records only which fields it is given and whether it raises.
- JsonEngine.Request: `search_url` left as None is not modelled; the template is a string. In the source it raises AttributeError, at `.find` when paging is on and at `.format` otherwise.
- Baidu.PublishedDate: `fromtimestamp` raising OverflowError or OSError is not modelled. Those exceptions escape the `try` in the source; the model's conversion reports only success or ValueError.
- Floating point is modelled as exact reals, so NaN and infinities, which Python's decoder accepts, are not represented.
- JsonValues.Lookup: a JSON object with repeated keys binds the first occurrence, whereas Python's decoder keeps the last. Objects are taken to have distinct keys.
- The host framework, the HTTP transport, the `resp` object and the engines' module-level settings loading are not part of this model. Settings become the fields of `JsonEngine.Config`, and the Baidu constants are constants.
- `SearxEngineAPIException` is the `ApiError` value carrying its message. Its class hierarchy is not part of this model.
- JsonEngine.Request: `params['cookies']` and `params['headers']` are modelled as maps, so the insertion order the source's dicts keep after `update` is not modelled; only the transport, which is not part of this model, sees it.
- `iterate` is a generator. The model gives the whole sequence of entries at once. Laziness makes no difference here, since `do_query` consumes all of it.
- `Baidu.ResultsPerPage` (`results_per_page = 10`) is only compared with the `rn` sent. It drives pagination in the host, which is not part of this model.
