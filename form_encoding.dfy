/** `application/x-www-form-urlencoded` query strings as `urllib.parse.urlencode` builds
    them from an ordered list of parameters. The per-component escaping (`quote_plus`)
    is a parameter. */
module FormEncoding {
  import opened Strings

  /** One `name=value` field, each side escaped by `quote`. */
  function Field(name: string, value: string, quote: string -> string): string
  {
    quote(name) + "=" + quote(value)
  }

  /** The fields of the parameters, in their order. */
  function Fields(params: seq<(string, string)>, quote: string -> string): (r: seq<string>)
    ensures |r| == |params|
    ensures forall i :: 0 <= i < |params| ==> r[i] == Field(params[i].0, params[i].1, quote)
  {
    seq(|params|, i requires 0 <= i < |params| => Field(params[i].0, params[i].1, quote))
  }

  /** `urlencode(params)`: the fields joined by `&`. */
  function UrlEncode(params: seq<(string, string)>, quote: string -> string): string
  {
    Join(Fields(params, quote), '&')
  }

  /** When escaping never produces `&`, the encoded string splits back at `&` into
      exactly one field per parameter, in the parameters' order. */
  lemma FieldsOfUrlEncode(params: seq<(string, string)>, quote: string -> string)
    requires |params| >= 1
    requires forall s :: '&' !in quote(s)
    ensures Split(UrlEncode(params, quote), '&') == Fields(params, quote)
  {
    var fields := Fields(params, quote);
    forall i | 0 <= i < |fields|
      ensures '&' !in fields[i]
    {
      var f := fields[i];
      assert f == quote(params[i].0) + "=" + quote(params[i].1);
      assert '&' !in quote(params[i].0) && '&' !in quote(params[i].1);
    }
    SplitJoin(fields, '&');
  }
}
