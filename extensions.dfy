/** String helpers used to build the ledger request and to search strings (Extension.swift). */
module Extensions {
  import opened Wrappers

  // ----- Query strings -----

  /**
   * `order` is an iteration order of the dictionary `params`: every key
   * exactly once. Swift's dictionary order is unspecified, so callers pass it.
   */
  predicate IsIterationOrder(order: seq<string>, params: map<string, string>) {
    && (forall i, j :: 0 <= i < j < |order| ==> order[i] != order[j])
    && (forall i :: 0 <= i < |order| ==> order[i] in params)
    && (forall k :: k in params ==> k in order)
  }

  /** One `key=value` part, both sides percent-encoded by `enc` (Foundation's `addingPercentEncoding`). */
  function Part(enc: string -> string, key: string, value: string): string {
    enc(key) + "=" + enc(value)
  }

  /** The parts in iteration order. */
  function Parts(params: map<string, string>, order: seq<string>, enc: string -> string): (parts: seq<string>)
    requires forall i :: 0 <= i < |order| ==> order[i] in params
  {
    seq(|order|, i requires 0 <= i < |order| => Part(enc, order[i], params[order[i]]))
  }

  /** `joined(separator:)` with a one-character separator. */
  function Join(parts: seq<string>, sep: char): string {
    if |parts| == 0 then ""
    else if |parts| == 1 then parts[0]
    else parts[0] + [sep] + Join(parts[1..], sep)
  }

  /** The inverse of `Join` on parts that do not contain the separator. */
  function Split(s: string, sep: char): (parts: seq<string>)
    ensures |parts| > 0
  {
    if |s| == 0 then [""]
    else
      var rest := Split(s[1..], sep);
      if s[0] == sep then [""] + rest else [[s[0]] + rest[0]] + rest[1..]
  }

  /** The query string of `params` iterated in `order`. */
  function QueryString(params: map<string, string>, order: seq<string>, enc: string -> string): (q: string)
    requires IsIterationOrder(order, params)
    ensures |params| == 0 ==> q == ""
  {
    OrderCoversParams(order, params);
    Join(Parts(params, order, enc), '&')
  }

  /** `Dictionary.queryParameters`: the loop collecting `key=value` parts, then the join. */
  method QueryParameters(params: map<string, string>, order: seq<string>, enc: string -> string) returns (q: string)
    requires IsIterationOrder(order, params)
    ensures q == QueryString(params, order, enc)
    ensures |params| == 0 ==> q == ""
  {
    var parts: seq<string> := [];
    var i := 0;
    while i < |order|
      invariant 0 <= i <= |order|
      invariant |parts| == i
      invariant forall j :: 0 <= j < i ==> parts[j] == Part(enc, order[j], params[order[j]])
    {
      var key := enc(order[i]);
      var value := enc(params[order[i]]);
      parts := parts + [key + "=" + value];
      i := i + 1;
    }
    assert parts == Parts(params, order, enc);
    OrderCoversParams(order, params);
    q := Join(parts, '&');
  }

  lemma {:induction false} SplitWithoutSeparator(p: string, sep: char)
    requires sep !in p
    ensures Split(p, sep) == [p]
  {
    if |p| > 0 {
      SplitWithoutSeparator(p[1..], sep);
      assert [p[0]] + p[1..] == p;
    }
  }

  lemma {:induction false} SplitAfterPart(p: string, sep: char, rest: string)
    requires sep !in p
    ensures Split(p + [sep] + rest, sep) == [p] + Split(rest, sep)
  {
    if |p| == 0 {
      assert p + [sep] + rest == [sep] + rest;
      assert ([sep] + rest)[1..] == rest;
    } else {
      SplitAfterPart(p[1..], sep, rest);
      assert (p + [sep] + rest)[1..] == p[1..] + [sep] + rest;
      assert [p[0]] + p[1..] == p;
    }
  }

  /** Splitting a join at the separator gives back the parts, provided no part contains the separator. */
  lemma {:induction false} SplitJoin(parts: seq<string>, sep: char)
    requires |parts| > 0
    requires forall i :: 0 <= i < |parts| ==> sep !in parts[i]
    ensures Split(Join(parts, sep), sep) == parts
  {
    if |parts| == 1 {
      SplitWithoutSeparator(parts[0], sep);
    } else {
      SplitJoin(parts[1..], sep);
      SplitAfterPart(parts[0], sep, Join(parts[1..], sep));
      assert [parts[0]] + parts[1..] == parts;
    }
  }

  /**
   * The query string holds exactly one `enc(key)=enc(value)` part per entry,
   * in iteration order, whenever the encoder leaves no `&` in keys or values
   * (`.urlQueryAllowed` does not escape `&`, so this is an assumption on the data).
   */
  lemma QueryStringParts(params: map<string, string>, order: seq<string>, enc: string -> string)
    requires IsIterationOrder(order, params)
    requires |params| > 0
    requires forall k :: k in params ==> '&' !in enc(k) && '&' !in enc(params[k])
    ensures var parts := Split(QueryString(params, order, enc), '&');
            && |parts| == |order| == |params|
            && forall i :: 0 <= i < |order| ==> parts[i] == enc(order[i]) + "=" + enc(params[order[i]])
  {
    var parts := Parts(params, order, enc);
    assert order != [] by {
      var k :| k in params;
      assert k in order;
    }
    forall i | 0 <= i < |parts|
      ensures '&' !in parts[i]
    {
      assert parts[i] == enc(order[i]) + "=" + enc(params[order[i]]);
    }
    SplitJoin(parts, '&');
    OrderCoversParams(order, params);
  }

  /** An iteration order is as long as the dictionary has entries. */
  lemma OrderCoversParams(order: seq<string>, params: map<string, string>)
    requires IsIterationOrder(order, params)
    ensures |order| == |params|
  {
    var keys := set i | 0 <= i < |order| :: order[i];
    assert keys == params.Keys;
    DistinctSeqSize(order, keys);
  }

  lemma {:induction false} DistinctSeqSize(s: seq<string>, keys: set<string>)
    requires forall i, j :: 0 <= i < j < |s| ==> s[i] != s[j]
    requires keys == set i | 0 <= i < |s| :: s[i]
    ensures |keys| == |s|
  {
    if |s| > 0 {
      var last := s[|s| - 1];
      var init := s[..|s| - 1];
      var rest := set i | 0 <= i < |init| :: init[i];
      assert keys == rest + {last};
      assert last !in rest;
      DistinctSeqSize(init, rest);
    }
  }

  /**
   * `URL.appendingQueryParameters`, on the URL's string: the absolute
   * string, a `?`, then the query string; the `?` is there even when there
   * are no parameters.
   */
  function AppendingQueryParameters(absoluteString: string, params: map<string, string>,
                                    order: seq<string>, enc: string -> string): (url: string)
    requires IsIterationOrder(order, params)
    ensures |url| == |absoluteString| + 1 + |QueryString(params, order, enc)|
    ensures url[..|absoluteString|] == absoluteString && url[|absoluteString|] == '?'
    ensures url[|absoluteString| + 1..] == QueryString(params, order, enc)
    ensures |params| == 0 ==> url == absoluteString + "?"
  {
    absoluteString + "?" + QueryString(params, order, enc)
  }

  // ----- Searching -----

  /** `target` occurs in `s` starting at index `i`. */
  predicate OccursAt(s: string, target: string, i: nat) {
    i + |target| <= |s| && s[i..i + |target|] == target
  }

  /** The last start position at or below `i` where `target` occurs. */
  function LastOccurrenceFrom(s: string, target: string, i: nat): (r: Option<nat>)
    requires i + |target| <= |s|
    ensures r.None? <==> forall j: nat :: j <= i ==> !OccursAt(s, target, j)
    ensures r.Some? ==> r.value <= i && OccursAt(s, target, r.value)
    ensures r.Some? ==> forall j: nat :: r.value < j <= i ==> !OccursAt(s, target, j)
    decreases i
  {
    if OccursAt(s, target, i) then Some(i)
    else if i == 0 then None
    else LastOccurrenceFrom(s, target, i - 1)
  }

  /**
   * `String.lastIndexOf(target:)`: the start of the last occurrence of
   * `target`, or nil. As with Foundation's `range(of:options:)`, an empty
   * target is never found.
   */
  function LastIndexOf(s: string, target: string): (r: Option<nat>)
    ensures r.None? <==> |target| == 0 || forall j: nat :: !OccursAt(s, target, j)
    ensures r.Some? ==> OccursAt(s, target, r.value)
    ensures r.Some? ==> forall j: nat :: r.value < j ==> !OccursAt(s, target, j)
  {
    if |target| == 0 || |target| > |s| then None
    else LastOccurrenceFrom(s, target, |s| - |target|)
  }
}
