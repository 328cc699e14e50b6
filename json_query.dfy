/** The JSON engine's path queries: a query string is a `/`-separated list of keys,
    and evaluating it collects, in document order, every value stored under the
    path's keys anywhere in the document. */
module JsonQuery {
  import opened Wrappers
  import opened Strings
  import opened JsonValues

  // ---------------------------------------------------------------------------
  // iterate and is_iterable
  // ---------------------------------------------------------------------------

  /** The (key, value) pairs `iterate` yields: a dict's members in order; a list's
      items keyed `str(index)`; a string's characters keyed `str(index)`. */
  function Entries(data: Json): seq<(string, Json)>
  {
    match data
    case JArray(items) => seq(|items|, i requires 0 <= i < |items| => (NatToString(i), items[i]))
    case JObject(members) => members
    case JString(s) => seq(|s|, i requires 0 <= i < |s| => (NatToString(i), JString([s[i]])))
    case _ => []
  }

  /** `iterate(data)`, or None where iterating raises TypeError (null, booleans, numbers). */
  function Iterate(data: Json): (r: Option<seq<(string, Json)>>)
    ensures r.None? <==> data.JNull? || data.JBool? || data.JInt? || data.JFloat?
  {
    if data.JArray? || data.JObject? || data.JString? then Some(Entries(data)) else None
  }

  /** A dict's entries are its members in order; a list's are its items keyed `str(index)`,
      so distinct positions get distinct keys; a string's are its characters, each as a
      one-character string, keyed `str(index)`. */
  lemma IterateEntries(data: Json)
    requires Iterate(data).Some?
    ensures var r := Iterate(data).value;
            (data.JObject? ==> r == data.members)
            && (data.JArray? ==>
                  |r| == |data.items|
                  && (forall i :: 0 <= i < |r| ==> r[i] == (NatToString(i), data.items[i]) && ParseNat(r[i].0) == i)
                  && (forall i, j :: 0 <= i < j < |r| ==> r[i].0 != r[j].0))
            && (data.JString? ==>
                  |r| == |data.s|
                  && forall i :: 0 <= i < |r| ==> r[i] == (NatToString(i), JString([data.s[i]])))
  {
    var r := Iterate(data).value;
    if data.JArray? {
      forall i | 0 <= i < |r| ensures ParseNat(r[i].0) == i {
        ParseNatToString(i);
      }
      forall i, j | 0 <= i < j < |r| ensures r[i].0 != r[j].0 {
        NatToStringInjective(i, j);
      }
    }
  }

  /** `is_iterable`: iterable in Python's sense, but not a string. */
  predicate IsIterable(data: Json)
    ensures IsIterable(data) <==> Iterate(data).Some? && !data.JString?
  {
    data.JArray? || data.JObject?
  }

  // ---------------------------------------------------------------------------
  // parse
  // ---------------------------------------------------------------------------

  /** The keys of a query string: its `/`-separated parts without the empty ones. */
  function Segments(query: string): seq<string>
  {
    NonEmpty(Split(query, '/'))
  }

  /** `parse`: split the query string at `/` and keep the non-empty parts, in order. */
  method Parse(query: string) returns (q: seq<string>)
    ensures q == Segments(query)
    ensures forall i :: 0 <= i < |q| ==> q[i] != "" && '/' !in q[i]
  {
    var parts := Split(query, '/');
    q := [];
    var i := 0;
    while i < |parts|
      invariant 0 <= i <= |parts|
      invariant q == NonEmpty(parts[..i])
    {
      assert parts[..i + 1][..i] == parts[..i];
      if parts[i] != "" {
        q := q + [parts[i]];
      }
      i := i + 1;
    }
    assert parts[..|parts|] == parts;
    assert forall i :: 0 <= i < |q| ==> q[i] in parts;
  }

  /** The keys of a query keep every character of it except the slashes. */
  lemma SegmentsKeepCharacters(query: string)
    ensures Flatten(Segments(query)) == Without(query, '/')
  {
    FlattenNonEmpty(Split(query, '/'));
    FlattenSplit(query, '/');
  }

  lemma {:induction false} NonEmptyKeepsAll(parts: seq<string>)
    requires forall i :: 0 <= i < |parts| ==> parts[i] != ""
    ensures NonEmpty(parts) == parts
  {
    if parts != [] {
      var init := parts[..|parts| - 1];
      NonEmptyKeepsAll(init);
      assert parts == init + [parts[|parts| - 1]];
    }
  }

  /** Parsing inverts writing a path of non-empty, slash-free keys joined by `/`. */
  lemma SegmentsOfJoin(keys: seq<string>)
    requires forall i :: 0 <= i < |keys| ==> keys[i] != "" && '/' !in keys[i]
    ensures Segments(Join(keys, '/')) == keys
  {
    if keys == [] {
      assert Split(Join(keys, '/'), '/') == [""];
      assert NonEmpty([""]) == NonEmpty([]) == [];
    } else {
      SplitJoin(keys, '/');
      NonEmptyKeepsAll(keys);
    }
  }

  // ---------------------------------------------------------------------------
  // do_query
  // ---------------------------------------------------------------------------

  /** What `do_query(data, q)` collects when `data` can be iterated. */
  function Collect(data: Json, q: seq<string>): seq<Json>
    decreases data, 1
  {
    if q == [] then [] else CollectFrom(data, q, 0)
  }

  /** What the loop of `do_query` collects from the entries of `data` at position `i` on. */
  function CollectFrom(data: Json, q: seq<string>, i: nat): seq<Json>
    requires q != [] && i <= |Entries(data)|
    decreases data, 0, |Entries(data)| - i
  {
    if i == |Entries(data)| then []
    else
      var (key, value) := Entries(data)[i];
      var here :=
        if |q| == 1 then
          (if key == q[0] then [value] else if IsIterable(value) then Collect(value, q) else [])
        else if !IsIterable(value) then []
        else if key == q[0] then Collect(value, q[1..])
        else Collect(value, q);
      here + CollectFrom(data, q, i + 1)
  }

  /** The outcome of `do_query`: the empty path gives the empty list without looking at
      `data`; otherwise iterating raises TypeError on null, booleans and numbers. */
  function Answer(data: Json, q: seq<string>): Option<seq<Json>>
  {
    if q == [] then Some([])
    else if Iterate(data).None? then None
    else Some(Collect(data, q))
  }

  /** `do_query`: the empty path gives the empty list; otherwise the values at the paths
      that match `q`, in document order (AnswerSelects). */
  method DoQuery(data: Json, q: seq<string>) returns (r: Option<seq<Json>>)
    ensures r == Answer(data, q)
    decreases data, 2
  {
    if q == [] {
      return Some([]);
    }
    var it := Iterate(data);
    if it.None? {
      return None;
    }
    var ret := CollectLoop(data, q);
    return Some(ret);
  }

  /** The loop of `do_query` over the entries of `data`. */
  method CollectLoop(data: Json, q: seq<string>) returns (ret: seq<Json>)
    requires q != []
    ensures ret == Collect(data, q)
    decreases data, 1
  {
    ret := [];
    var i := 0;
    while i < |Entries(data)|
      invariant 0 <= i <= |Entries(data)|
      invariant ret + CollectFrom(data, q, i) == CollectFrom(data, q, 0)
    {
      var found := Visit(data, q, i);
      ConcatStep(ret, found, CollectFrom(data, q, i + 1));
      ret := ret + found;
      i := i + 1;
    }
    assert ret + [] == ret;
  }

  lemma ConcatStep(a: seq<Json>, b: seq<Json>, c: seq<Json>)
    ensures (a + b) + c == a + (b + c)
  {
  }

  /** One round of the loop of `do_query`: what entry `i` of `data` contributes. */
  method Visit(data: Json, q: seq<string>, i: nat) returns (found: seq<Json>)
    requires q != [] && i < |Entries(data)|
    ensures found + CollectFrom(data, q, i + 1) == CollectFrom(data, q, i)
    decreases data, 0
  {
    var (key, value) := Entries(data)[i];
    found := [];
    if |q| == 1 {
      if key == q[0] {
        found := [value];
      } else if IsIterable(value) {
        var sub := DoQuery(value, q);
        found := sub.value;
      }
    } else if IsIterable(value) {
      var sub := DoQuery(value, if key == q[0] then q[1..] else q);
      found := sub.value;
    }
  }

  // ---------------------------------------------------------------------------
  // query
  // ---------------------------------------------------------------------------

  /** The outcome of `query(data, query_string)`. */
  function Evaluate(data: Json, query: string): Option<seq<Json>>
  {
    Answer(data, Segments(query))
  }

  /** `query`: parse the query string, then run the path query. */
  method Query(data: Json, query: string) returns (r: Option<seq<Json>>)
    ensures r == Evaluate(data, query)
  {
    var q := Parse(query);
    r := DoQuery(data, q);
  }

  // ---------------------------------------------------------------------------
  // A reference definition: paths in document order
  // ---------------------------------------------------------------------------

  /** A path is the list of keys leading from the document to one of its values. */
  ghost function Prefixed(key: string, ps: seq<(seq<string>, Json)>): (r: seq<(seq<string>, Json)>)
    ensures |r| == |ps|
    ensures forall j :: 0 <= j < |ps| ==> r[j] == ([key] + ps[j].0, ps[j].1)
  {
    seq(|ps|, j requires 0 <= j < |ps| => ([key] + ps[j].0, ps[j].1))
  }

  /** Every (path, value) pair below `data`, depth-first in document order; the search
      descends into dicts and lists, never into strings below the top. */
  ghost function Enumerate(data: Json): (ps: seq<(seq<string>, Json)>)
    ensures forall j :: 0 <= j < |ps| ==> ps[j].0 != []
    decreases data, 1
  {
    EnumerateFrom(data, 0)
  }

  ghost function EnumerateFrom(data: Json, i: nat): (ps: seq<(seq<string>, Json)>)
    requires i <= |Entries(data)|
    ensures forall j :: 0 <= j < |ps| ==> ps[j].0 != []
    decreases data, 0, |Entries(data)| - i
  {
    if i == |Entries(data)| then []
    else
      var (key, value) := Entries(data)[i];
      [([key], value)]
      + (if IsIterable(value) then Prefixed(key, Enumerate(value)) else [])
      + EnumerateFrom(data, i + 1)
  }

  /** Whether a path is one `do_query` reports for `q`: the keys of `q` occur along the
      path, each at the first place after the previous one, and the path ends at the
      last of them. */
  ghost predicate Matches(p: seq<string>, q: seq<string>)
  {
    if p == [] || q == [] then false
    else if |q| == 1 then (if p[0] == q[0] then |p| == 1 else Matches(p[1..], q))
    else if p[0] == q[0] then Matches(p[1..], q[1..])
    else Matches(p[1..], q)
  }

  /** The values of the pairs whose path matches `q`, in order. */
  ghost function Select(ps: seq<(seq<string>, Json)>, q: seq<string>): seq<Json>
  {
    if ps == [] then []
    else (if Matches(ps[0].0, q) then [ps[0].1] else []) + Select(ps[1..], q)
  }

  lemma MatchesOneStep(key: string, q: seq<string>)
    requires q != []
    ensures Matches([key], q) <==> q == [key]
  {
    assert [key][1..] == [];
    if |q| == 1 {
      assert q == [q[0]];
    }
  }

  lemma {:induction false} SelectEmptyPath(ps: seq<(seq<string>, Json)>)
    ensures Select(ps, []) == []
  {
    if ps != [] {
      SelectEmptyPath(ps[1..]);
    }
  }

  lemma {:induction false} SelectAppend(a: seq<(seq<string>, Json)>, b: seq<(seq<string>, Json)>, q: seq<string>)
    ensures Select(a + b, q) == Select(a, q) + Select(b, q)
  {
    if a == [] {
      assert a + b == b;
    } else {
      assert (a + b)[0] == a[0];
      assert (a + b)[1..] == a[1..] + b;
      SelectAppend(a[1..], b, q);
      assert Select(a + b, q) == (if Matches(a[0].0, q) then [a[0].1] else []) + Select(a[1..] + b, q);
    }
  }

  lemma {:induction false} SelectPrefixed(key: string, ps: seq<(seq<string>, Json)>, q: seq<string>)
    requires q != []
    requires forall j :: 0 <= j < |ps| ==> ps[j].0 != []
    ensures Select(Prefixed(key, ps), q) ==
              if key != q[0] then Select(ps, q)
              else if |q| == 1 then []
              else Select(ps, q[1..])
  {
    if ps != [] {
      var p := [key] + ps[0].0;
      assert p[1..] == ps[0].0;
      assert Prefixed(key, ps)[1..] == Prefixed(key, ps[1..]);
      SelectPrefixed(key, ps[1..], q);
    }
  }

  /** The outcome of `do_query`: the empty path gives `[]`; iterating a null, boolean or
      number raises; otherwise the values at the matching paths, in document order. */
  lemma AnswerSelects(data: Json, q: seq<string>)
    ensures q == [] ==> Answer(data, q) == Some([])
    ensures Answer(data, q).None? <==> q != [] && Iterate(data).None?
    ensures Answer(data, q).Some? ==> Answer(data, q).value == Select(Enumerate(data), q)
  {
    CollectSelects(data, q);
  }

  /** `do_query` as defined recursively collects exactly the values at matching paths,
      in document order. */
  lemma {:induction false} CollectSelects(data: Json, q: seq<string>)
    ensures Collect(data, q) == Select(Enumerate(data), q)
    decreases data, 1
  {
    if q == [] {
      SelectEmptyPath(Enumerate(data));
    } else {
      CollectFromSelects(data, q, 0);
    }
  }

  lemma {:induction false} CollectFromSelects(data: Json, q: seq<string>, i: nat)
    requires q != [] && i <= |Entries(data)|
    ensures CollectFrom(data, q, i) == Select(EnumerateFrom(data, i), q)
    decreases data, 0, |Entries(data)| - i, 1
  {
    if i < |Entries(data)| {
      var head := EntryPaths(data, i);
      SelectAppend(head, EnumerateFrom(data, i + 1), q);
      EntrySelects(data, q, i);
      CollectFromSelects(data, q, i + 1);
    }
  }

  /** The paths through entry `i` of `data`: its own, then those below it. */
  ghost function EntryPaths(data: Json, i: nat): (ps: seq<(seq<string>, Json)>)
    requires i < |Entries(data)|
    ensures EnumerateFrom(data, i) == ps + EnumerateFrom(data, i + 1)
  {
    var (key, value) := Entries(data)[i];
    [([key], value)] + (if IsIterable(value) then Prefixed(key, Enumerate(value)) else [])
  }

  /** What entry `i` of `data` contributes to `do_query` is what its paths contribute. */
  lemma {:induction false} EntrySelects(data: Json, q: seq<string>, i: nat)
    requires q != [] && i < |Entries(data)|
    ensures var (key, value) := Entries(data)[i];
            Select(EntryPaths(data, i), q)
            == if |q| == 1 then
                 (if key == q[0] then [value] else if IsIterable(value) then Collect(value, q) else [])
               else if !IsIterable(value) then []
               else if key == q[0] then Collect(value, q[1..])
               else Collect(value, q)
    decreases data, 0, |Entries(data)| - i, 0
  {
    var (key, value) := Entries(data)[i];
    var sub := if IsIterable(value) then Prefixed(key, Enumerate(value)) else [];
    var single := [([key], value)];
    SelectAppend(single, sub, q);
    assert Select(single, q) == if q == [key] then [value] else [] by {
      assert single[1..] == [];
      MatchesOneStep(key, q);
    }
    if IsIterable(value) {
      SelectPrefixed(key, Enumerate(value), q);
      if key != q[0] {
        CollectSelects(value, q);
      } else if |q| > 1 {
        CollectSelects(value, q[1..]);
      }
    }
  }

  // ---------------------------------------------------------------------------
  // Consequences
  // ---------------------------------------------------------------------------

  /** With a one-key path, a path matches exactly when it ends at that key and passes it
      nowhere before: a matched value is not searched further. */
  lemma {:induction false} MatchesOneKey(p: seq<string>, k: string)
    ensures Matches(p, [k]) <==> |p| >= 1 && p[|p| - 1] == k && k !in p[..|p| - 1]
  {
    if p != [] && p[0] != k {
      MatchesOneKey(p[1..], k);
      if |p| >= 2 {
        assert p[1..][..|p| - 2] == p[1..|p| - 1];
        assert p[..|p| - 1] == [p[0]] + p[1..|p| - 1];
      }
    }
  }

  /** The position of the first `k` in `p`, or `|p|` when there is none. */
  function FirstIndex(p: seq<string>, k: string): (j: nat)
    ensures j <= |p| && k !in p[..j]
    ensures j < |p| ==> p[j] == k
  {
    if p == [] then 0
    else if p[0] == k then 0
    else
      var j := FirstIndex(p[1..], k) + 1;
      assert p[..j] == [p[0]] + p[1..][..j - 1];
      j
  }

  /** With a longer path, a path matches exactly when it passes the first key, and the
      rest of the path after the first place it does matches the rest of the query. */
  lemma {:induction false} MatchesLongerPath(p: seq<string>, q: seq<string>)
    requires |q| >= 2
    ensures Matches(p, q) <==>
              var j := FirstIndex(p, q[0]); j < |p| && Matches(p[j + 1..], q[1..])
  {
    if p != [] && p[0] != q[0] {
      MatchesLongerPath(p[1..], q);
      var j := FirstIndex(p[1..], q[0]);
      if j < |p[1..]| {
        assert p[1..][j + 1..] == p[j + 2..];
      }
    }
  }

  lemma {:induction false} SelectMembers(ps: seq<(seq<string>, Json)>, q: seq<string>, v: Json)
    ensures v in Select(ps, q) <==> exists j :: 0 <= j < |ps| && ps[j].1 == v && Matches(ps[j].0, q)
  {
    if ps != [] {
      SelectMembers(ps[1..], q, v);
      if exists j :: 0 <= j < |ps| && ps[j].1 == v && Matches(ps[j].0, q) {
        var j :| 0 <= j < |ps| && ps[j].1 == v && Matches(ps[j].0, q);
        if j > 0 {
          assert ps[1..][j - 1] == ps[j];
        }
      }
    }
  }

  lemma SelectOneKey(ps: seq<(seq<string>, Json)>, k: string, v: Json)
    ensures v in Select(ps, [k]) <==>
              exists j :: 0 <= j < |ps| && ps[j].1 == v && |ps[j].0| >= 1
                          && ps[j].0[|ps[j].0| - 1] == k && k !in ps[j].0[..|ps[j].0| - 1]
  {
    SelectMembers(ps, [k], v);
    forall j | 0 <= j < |ps| {
      MatchesOneKey(ps[j].0, k);
    }
  }

  /** With a one-key path `[k]`, a value is returned exactly when it is stored under `k`
      at the end of a path that passes no earlier `k`. */
  lemma OneKeyQuery(data: Json, k: string, v: Json)
    ensures var ps := Enumerate(data);
            v in Collect(data, [k]) <==>
              exists j :: 0 <= j < |ps| && ps[j].1 == v && |ps[j].0| >= 1
                          && ps[j].0[|ps[j].0| - 1] == k && k !in ps[j].0[..|ps[j].0| - 1]
  {
    CollectSelects(data, [k]);
    SelectOneKey(Enumerate(data), k, v);
  }

  lemma {:induction false} ScalarListFrom(items: seq<Json>, n: nat, i: nat)
    requires forall j :: 0 <= j < |items| ==> !IsIterable(items[j])
    requires n < |items| && i <= |items|
    ensures CollectFrom(JArray(items), [NatToString(n)], i) == if i <= n then [items[n]] else []
    decreases |items| - i
  {
    if i < |items| {
      var data := JArray(items);
      assert Entries(data)[i] == (NatToString(i), items[i]);
      NatToStringInjective(i, n);
      ScalarListFrom(items, n, i + 1);
      assert CollectFrom(data, [NatToString(n)], i)
          == (if i == n then [items[i]] else []) + CollectFrom(data, [NatToString(n)], i + 1);
    }
  }

  /** On a list of scalars, the one-key path `str(n)` picks out exactly item `n`. */
  lemma ScalarListIndex(items: seq<Json>, n: nat)
    requires forall j :: 0 <= j < |items| ==> !IsIterable(items[j])
    requires n < |items|
    ensures Answer(JArray(items), [NatToString(n)]) == Some([items[n]])
  {
    ScalarListFrom(items, n, 0);
  }
}
