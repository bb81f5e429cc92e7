/**
 * Query strings (lexware/client.go): how a parameter map becomes the text
 * that follows '?' in a request target (buildQueryString, which hands the
 * non-empty pairs to url.Values.Encode), how page and size enter that map
 * (addPagination), and a reader for request targets that serves as the
 * independent account of which pairs a target carries.
 */
module Query {
  import opened Text

  /** A Go map[string]string of query parameters. */
  type Params = map<string, string>

  /** types.ListOptions; the client receives it as a pointer, so it may be absent. */
  datatype ListOptions = ListOptions(page: int, size: int)

  // ---------------------------------------------------------------------
  // url.QueryEscape
  // ---------------------------------------------------------------------

  /** Characters QueryEscape leaves alone. */
  predicate Unreserved(c: char)
  {
    || 'A' <= c <= 'Z' || 'a' <= c <= 'z' || '0' <= c <= '9'
    || c == '-' || c == '_' || c == '.' || c == '~'
  }

  predicate Plain(s: string) { forall i :: 0 <= i < |s| ==> Unreserved(s[i]) }

  /** Every character QueryEscape can emit. */
  predicate Escaped(c: char) { Unreserved(c) || c == '+' || c == '%' }

  function HexDigit(d: nat): (c: char)
    requires d < 16
    ensures Unreserved(c)
  {
    "0123456789ABCDEF"[d]
  }

  /** The UTF-8 encoding of one code point. */
  function Utf8(c: char): (b: seq<nat>)
    ensures 1 <= |b| <= 4 && forall i :: 0 <= i < |b| ==> b[i] < 256
    ensures c as int < 0x80 ==> b == [c as int]
  {
    var n := c as int;
    if n < 0x80 then [n]
    else if n < 0x800 then [0xC0 + n / 64, 0x80 + n % 64]
    else if n < 0x10000 then [0xE0 + n / 4096, 0x80 + (n / 64) % 64, 0x80 + n % 64]
    else [0xF0 + n / 262144, 0x80 + (n / 4096) % 64, 0x80 + (n / 64) % 64, 0x80 + n % 64]
  }

  function PercentBytes(b: seq<nat>): (r: string)
    requires forall i :: 0 <= i < |b| ==> b[i] < 256
    ensures |r| == 3 * |b|
    ensures forall i :: 0 <= i < |r| ==> Escaped(r[i])
  {
    if b == [] then "" else ['%', HexDigit(b[0] / 16), HexDigit(b[0] % 16)] + PercentBytes(b[1..])
  }

  function EscapeChar(c: char): (r: string)
    ensures |r| >= 1 && forall i :: 0 <= i < |r| ==> Escaped(r[i])
    ensures Unreserved(c) ==> r == [c]
  {
    if Unreserved(c) then [c] else if c == ' ' then "+" else PercentBytes(Utf8(c))
  }

  /**
   * url.QueryEscape: unreserved characters stay, a space becomes '+', and
   * every other character becomes %XX for each byte of its UTF-8 encoding.
   * The result never holds '&', '=', '?' or '#', so it cannot split a query.
   */
  function QueryEscape(s: string): (r: string)
    ensures forall i :: 0 <= i < |r| ==> Escaped(r[i])
    ensures Plain(s) ==> r == s
    ensures |r| >= |s|
  {
    if s == "" then "" else EscapeChar(s[0]) + QueryEscape(s[1..])
  }

  lemma EscapedHasNo(s: string, c: char)
    requires !Escaped(c)
    ensures c !in QueryEscape(s)
  {
  }

  // ---------------------------------------------------------------------
  // url.Values.Encode
  // ---------------------------------------------------------------------

  /** "key=value" with both halves escaped. */
  function PairText(k: string, v: string): string
  {
    QueryEscape(k) + "=" + QueryEscape(v)
  }

  function PairTexts(keys: seq<string>, values: Params): (r: seq<string>)
    requires forall i :: 0 <= i < |keys| ==> keys[i] in values
    ensures |r| == |keys|
    ensures forall i :: 0 <= i < |r| ==> '&' !in r[i] && '=' in r[i] && '#' !in r[i]
  {
    if keys == [] then []
    else
      var p := PairText(keys[0], values[keys[0]]);
      EscapedHasNo(keys[0], '&');
      EscapedHasNo(values[keys[0]], '&');
      EscapedHasNo(keys[0], '#');
      EscapedHasNo(values[keys[0]], '#');
      assert p[|QueryEscape(keys[0])|] == '=';
      [p] + PairTexts(keys[1..], values)
  }

  /**
   * url.Values.Encode for single-valued keys: the pairs in increasing key
   * order, joined by '&'. It is empty exactly when there are no keys.
   */
  function Encode(values: Params): (r: string)
    ensures r == "" <==> values == map[]
    ensures '#' !in r
  {
    var keys := SortedKeys(values.Keys);
    var parts := PairTexts(keys, values);
    JoinHasNo(parts, '&', '#');
    if values == map[] then
      assert keys == [];
      Join(parts, '&')
    else
      assert |keys| >= 1 by { var k :| k in values.Keys; assert k in keys; }
      JoinEmpty(parts, '&');
      Join(parts, '&')
  }

  // ---------------------------------------------------------------------
  // buildQueryString
  // ---------------------------------------------------------------------

  /** The pairs buildQueryString keeps: those whose value is not "". */
  function NonEmpty(params: Params): (m: Params)
    ensures forall k :: k in m <==> k in params && params[k] != ""
    ensures forall k :: k in m ==> m[k] == params[k]
  {
    map k | k in params && params[k] != "" :: params[k]
  }

  /**
   * What buildQueryString returns: "" for an empty map and for a map whose
   * values are all "", and otherwise '?' followed by the encoded non-empty
   * pairs. It depends only on those pairs, never on map iteration order.
   */
  function QueryString(params: Params): (q: string)
    ensures q == "" <==> forall k :: k in params ==> params[k] == ""
    ensures q != "" ==> q[0] == '?' && q[1..] == Encode(NonEmpty(params))
    ensures '#' !in q
  {
    if |params| == 0 then ""
    else
      var qs := Encode(NonEmpty(params));
      if qs != "" then "?" + qs else ""
  }

  /** buildQueryString (lexware/client.go:200-214). */
  method BuildQueryString(params: Params) returns (q: string)
    ensures q == QueryString(params)
  {
    if |params| == 0 {
      return "";
    }
    var values: Params := map[];
    var todo := params.Keys;
    while todo != {}
      invariant todo <= params.Keys
      invariant forall k :: k in values <==> k in params && k !in todo && params[k] != ""
      invariant forall k :: k in values ==> values[k] == params[k]
      decreases |todo|
    {
      var k :| k in todo;
      if params[k] != "" {
        values := values[k := params[k]];
      }
      todo := todo - {k};
    }
    assert values == NonEmpty(params);
    var qs := Encode(values);
    if qs != "" {
      return "?" + qs;
    }
    return "";
  }

  // ---------------------------------------------------------------------
  // addPagination
  // ---------------------------------------------------------------------

  /** Key k is absent from both maps or maps to the same value in both. */
  predicate SameAt(a: Params, b: Params, k: string)
  {
    (k in a <==> k in b) && (k in a ==> a[k] == b[k])
  }

  /**
   * The map addPagination leaves behind: absent options change nothing;
   * otherwise "page" is set to the decimal page number iff it is positive,
   * "size" likewise, and every other key is untouched.
   */
  function Paginate(params: Params, opts: Option<ListOptions>): (r: Params)
    ensures opts.None? ==> r == params
    ensures forall k :: k != "page" && k != "size" ==> SameAt(r, params, k)
    ensures opts.Some? && opts.value.page > 0 ==> "page" in r && r["page"] == Itoa(opts.value.page)
    ensures !(opts.Some? && opts.value.page > 0) ==> SameAt(r, params, "page")
    ensures opts.Some? && opts.value.size > 0 ==> "size" in r && r["size"] == Itoa(opts.value.size)
    ensures !(opts.Some? && opts.value.size > 0) ==> SameAt(r, params, "size")
  {
    match opts
    case None => params
    case Some(o) =>
      var withPage := if o.page > 0 then params["page" := Itoa(o.page)] else params;
      if o.size > 0 then withPage["size" := Itoa(o.size)] else withPage
  }

  /** A Go map[string]string: a reference that callees fill in place. */
  class ParamMap {
    var entries: Params

    constructor ()
      ensures entries == map[]
    {
      entries := map[];
    }

    /** params[key] = value */
    method Set(key: string, value: string)
      modifies this
      ensures entries == old(entries)[key := value]
    {
      entries := entries[key := value];
    }

    /** The guard of every string filter: `if value != "" { params[key] = value }`. */
    method SetIfNotEmpty(key: string, value: string)
      modifies this
      ensures entries == PutIf(old(entries), value != "", key, value)
    {
      if value != "" {
        entries := entries[key := value];
      }
    }
  }

  /** addPagination (lexware/client.go:216-226): fills the caller's map in place. */
  method AddPagination(params: ParamMap, opts: Option<ListOptions>)
    modifies params
    ensures params.entries == Paginate(old(params.entries), opts)
  {
    if opts.None? {
      return;
    }
    if opts.value.page > 0 {
      params.Set("page", Itoa(opts.value.page));
    }
    if opts.value.size > 0 {
      params.Set("size", Itoa(opts.value.size));
    }
  }

  /** One conditional insert of a List method: key := value when cond holds. */
  function PutIf(params: Params, cond: bool, key: string, value: string): Params
  {
    if cond then params[key := value] else params
  }

  /**
   * The filter parameters a List method inserts, given each filter key with
   * the text it would insert: the keys whose text is not "".
   */
  function Filled(texts: map<string, string>): Params
  {
    map k | k in texts && texts[k] != "" :: texts[k]
  }

  /** One more conditional insert, of a key not yet considered, extends Filled by that key. */
  lemma FilledStep(base: Params, texts: map<string, string>, k: string, v: string)
    requires k !in texts
    ensures PutIf(base + Filled(texts), v != "", k, v) == base + Filled(texts[k := v])
  {
  }

  /**
   * The parameters a List method hands to buildQueryString: a fresh map,
   * addPagination, then one conditional insert per filter key. Each filter
   * key is present exactly when its text is not "", with that text; page
   * and size are as addPagination sets them; there is no other key and no
   * empty value.
   */
  function ListQuery(opts: Option<ListOptions>, texts: map<string, string>): (r: Params)
    requires "page" !in texts && "size" !in texts
    ensures forall k :: k in texts ==> (k in r <==> texts[k] != "")
    ensures forall k :: k in texts && k in r ==> r[k] == texts[k]
    ensures r.Keys <= texts.Keys + {"page", "size"}
    ensures forall k :: k in r ==> r[k] != ""
    ensures SameAt(r, Paginate(map[], opts), "page") && SameAt(r, Paginate(map[], opts), "size")
    ensures texts == map[] ==> r == Paginate(map[], opts)
  {
    Paginate(map[], opts) + Filled(texts)
  }

  /**
   * The partner of ListQuery: the server reads back the list path and
   * exactly the parameters ListQuery holds, values escaped.
   */
  lemma ListQueryReadsBack(path: string, opts: Option<ListOptions>, texts: map<string, string>)
    requires '?' !in path && '#' !in path
    requires "page" !in texts && "size" !in texts
    requires forall k :: k in texts ==> Plain(k)
    ensures TargetPath(path + QueryString(ListQuery(opts, texts))) == path
    ensures TargetParams(path + QueryString(ListQuery(opts, texts))) == EscapeValues(ListQuery(opts, texts))
  {
    assert Plain("page") && Plain("size");
    TargetCarries(path, ListQuery(opts, texts));
  }

  // ---------------------------------------------------------------------
  // Reading a request target back
  // ---------------------------------------------------------------------

  /** Each '&'-separated segment of a query, cut at its first '='. */
  function ParsePairs(segments: seq<string>): (r: seq<(string, string)>)
    ensures |r| == |segments|
    ensures forall i :: 0 <= i < |r| ==> r[i] == Cut(segments[i], '=')
  {
    if segments == [] then [] else [Cut(segments[0], '=')] + ParsePairs(segments[1..])
  }

  /** The key/value pairs of a query, in order; values stay escaped. */
  function ParseQuery(q: string): seq<(string, string)>
  {
    if q == "" then [] else ParsePairs(Split(q, '&'))
  }

  /**
   * What of a target goes on the wire: url.Parse, inside
   * http.NewRequestWithContext, splits a fragment off at the first '#',
   * and the fragment is never sent.
   */
  function Sent(target: string): (s: string)
    ensures '#' !in s
    ensures '#' !in target ==> s == target
    ensures '#' in target ==> |s| < |target| && target[..|s|] == s && target[|s|] == '#'
  {
    var (before, after) := Cut(target, '#');
    assert '#' in target ==> target == before + ['#'] + after;
    before
  }

  /** The path of a target: what is sent, up to the first '?'. */
  function TargetPath(target: string): string
  {
    Cut(Sent(target), '?').0
  }

  /** The pairs of a target's query: what is sent after the first '?'. */
  function TargetQuery(target: string): seq<(string, string)>
  {
    ParseQuery(Cut(Sent(target), '?').1)
  }

  /** Pairs as a lookup table; the first occurrence of a key wins, as url.Values.Get does. */
  function PairsToMap(pairs: seq<(string, string)>): Params
  {
    if pairs == [] then map[] else PairsToMap(pairs[1..])[pairs[0].0 := pairs[0].1]
  }

  /** The parameters a target carries, as the server reads them (values still escaped). */
  function TargetParams(target: string): Params
  {
    PairsToMap(TargetQuery(target))
  }

  /** The escaped form of every value. */
  function EscapeValues(m: Params): (r: Params)
    ensures r.Keys == m.Keys
    ensures forall k :: k in r ==> r[k] == QueryEscape(m[k])
  {
    map k | k in m :: QueryEscape(m[k])
  }

  /** The pairs Encode writes, read as (escaped key, escaped value). */
  function EscapedPairs(keys: seq<string>, values: Params): (r: seq<(string, string)>)
    requires forall i :: 0 <= i < |keys| ==> keys[i] in values
    ensures |r| == |keys|
    ensures forall i :: 0 <= i < |r| ==> r[i] == (QueryEscape(keys[i]), QueryEscape(values[keys[i]]))
  {
    if keys == [] then [] else [(QueryEscape(keys[0]), QueryEscape(values[keys[0]]))] + EscapedPairs(keys[1..], values)
  }

  lemma {:induction false} ParsePairTexts(keys: seq<string>, values: Params)
    requires forall i :: 0 <= i < |keys| ==> keys[i] in values
    ensures ParsePairs(PairTexts(keys, values)) == EscapedPairs(keys, values)
  {
    if keys != [] {
      var k := keys[0];
      EscapedHasNo(k, '=');
      CutAt(QueryEscape(k), QueryEscape(values[k]), '=');
      ParsePairTexts(keys[1..], values);
    }
  }

  /** Reading an encoded query gives back every pair, in key order. */
  lemma EncodeParses(values: Params)
    ensures ParseQuery(Encode(values)) == EscapedPairs(SortedKeys(values.Keys), values)
  {
    var keys := SortedKeys(values.Keys);
    var parts := PairTexts(keys, values);
    if values == map[] {
      assert keys == [];
    } else {
      assert |keys| >= 1 by { var k :| k in values.Keys; assert k in keys; }
      SplitJoin(parts, '&');
      ParsePairTexts(keys, values);
    }
  }

  lemma HeadTail(keys: seq<string>)
    requires keys != []
    ensures forall k :: k in keys <==> k == keys[0] || k in keys[1..]
  {
    assert keys == [keys[0]] + keys[1..];
  }

  lemma {:induction false} EscapedPairsToMap(keys: seq<string>, values: Params)
    requires forall i :: 0 <= i < |keys| ==> keys[i] in values && Plain(keys[i])
    ensures forall k :: k in PairsToMap(EscapedPairs(keys, values)) <==> k in keys
    ensures forall k :: k in keys ==> PairsToMap(EscapedPairs(keys, values))[k] == QueryEscape(values[k])
  {
    if keys != [] {
      var k0 := keys[0];
      EscapedPairsToMap(keys[1..], values);
      assert EscapedPairs(keys, values)[1..] == EscapedPairs(keys[1..], values);
      HeadTail(keys);
    }
  }

  /**
   * The partner of QueryString: reading back path + QueryString(params)
   * yields the path unchanged and exactly the non-empty parameters, with
   * their values escaped, as long as the path has no '?' or '#' and every
   * key is plain text (as every key this client uses is).
   */
  lemma TargetParses(path: string, params: Params)
    requires '?' !in path && '#' !in path
    requires forall k :: k in params ==> Plain(k)
    ensures TargetPath(path + QueryString(params)) == path
    ensures TargetParams(path + QueryString(params)) == EscapeValues(NonEmpty(params))
  {
    var q := QueryString(params);
    var m := NonEmpty(params);
    assert Sent(path + q) == path + q;
    if q == "" {
      assert path + q == path;
      assert m == map[];
    } else {
      var enc := Encode(m);
      assert path + q == path + ['?'] + enc;
      CutAt(path, enc, '?');
      assert TargetParams(path + q) == PairsToMap(ParseQuery(enc));
      EncodeParses(m);
      EncodedMap(m);
    }
  }

  /** Read as a lookup table, the pairs Encode writes are the escaped map itself. */
  lemma EncodedMap(m: Params)
    requires forall k :: k in m ==> Plain(k)
    ensures PairsToMap(EscapedPairs(SortedKeys(m.Keys), m)) == EscapeValues(m)
  {
    var keys := SortedKeys(m.Keys);
    assert forall i :: 0 <= i < |keys| ==> keys[i] in m && Plain(keys[i]);
    KeysMap(keys, m);
  }

  /** Pairs written for every key of m, each once or more, read back as the escaped map. */
  lemma KeysMap(keys: seq<string>, m: Params)
    requires forall i :: 0 <= i < |keys| ==> keys[i] in m && Plain(keys[i])
    requires forall k :: k in m ==> k in keys
    ensures PairsToMap(EscapedPairs(keys, m)) == EscapeValues(m)
  {
    EscapedPairsToMap(keys, m);
    var read := PairsToMap(EscapedPairs(keys, m));
    var escaped := EscapeValues(m);
    assert read.Keys == escaped.Keys;
    assert forall k :: k in read ==> read[k] == escaped[k];
    SameEntries(read, escaped);
  }

  lemma SameEntries(a: Params, b: Params)
    requires a.Keys == b.Keys
    requires forall k :: k in a ==> a[k] == b[k]
    ensures a == b
  {
  }

  /** Only the non-empty pairs matter: dropping the empty ones first changes nothing. */
  lemma QueryIgnoresEmpty(params: Params)
    ensures QueryString(NonEmpty(params)) == QueryString(params)
  {
    var m := NonEmpty(params);
    assert NonEmpty(m) == m;
    var a, b := QueryString(m), QueryString(params);
    assert a == "" <==> b == "";
    if a != "" {
      assert a == [a[0]] + a[1..] && b == [b[0]] + b[1..];
    }
  }

  /**
   * An item path, collection + "/" + id as every resource builds it: for an
   * id without '?' the server reads the path up to the id's first '#' (the
   * whole path when there is none), with no parameters.
   */
  lemma ItemReadsBack(collection: string, id: string)
    requires '?' !in collection && '#' !in collection
    ensures '?' !in id ==> TargetPath(collection + "/" + id) == collection + "/" + Cut(id, '#').0
    ensures '?' !in id ==> TargetParams(collection + "/" + id) == map[]
    ensures '?' !in id && '#' !in id ==> TargetPath(collection + "/" + id) == collection + "/" + id
  {
    if '?' !in id {
      var head := collection + "/";
      CutPast(head, id, '#');
      PlainTarget(head + Cut(id, '#').0);
    }
  }

  /** A head free of '#' is sent whole, and the cut falls in what follows. */
  lemma SentPast(head: string, rest: string)
    requires '#' !in head
    ensures Sent(head + rest) == head + Sent(rest)
  {
    CutPast(head, rest, '#');
  }

  /** Once a '#' occurs, nothing after it is sent. */
  lemma SentBefore(a: string, b: string)
    requires '#' in a
    ensures Sent(a + b) == Sent(a)
  {
    CutBefore(a, b, '#');
  }

  /** The server reads only what is sent: the fragment takes no part. */
  lemma SentOnly(target: string)
    ensures TargetPath(target) == TargetPath(Sent(target))
    ensures TargetParams(target) == TargetParams(Sent(target))
  {
  }

  /** A target without '?' or '#' is all path: no parameters reach the server. */
  lemma PlainTarget(path: string)
    requires '?' !in path && '#' !in path
    ensures TargetPath(path) == path
    ensures TargetParams(path) == map[]
  {
  }

  /** When every value is non-empty, the server reads back every pair, escaped. */
  lemma TargetCarries(path: string, params: Params)
    requires '?' !in path && '#' !in path
    requires forall k :: k in params ==> Plain(k) && params[k] != ""
    ensures TargetPath(path + QueryString(params)) == path
    ensures TargetParams(path + QueryString(params)) == EscapeValues(params)
  {
    NonEmptyKeepsFull(params);
    TargetParses(path, params);
  }

  lemma NonEmptyKeepsFull(params: Params)
    requires forall k :: k in params ==> params[k] != ""
    ensures NonEmpty(params) == params
  {
  }

  /** A page or size written by addPagination reads back as the same number. */
  lemma NumberReadsBack(n: int)
    ensures QueryEscape(Itoa(n)) == Itoa(n)
    ensures ParseDecimal(QueryEscape(Itoa(n))) == Some(n)
  {
    var s := Itoa(n);
    assert Plain(s);
    ItoaRoundTrip(n);
  }

  /** A boolean filter's text, "true" or "false", reads back unchanged. */
  lemma BoolTextsReadBack()
    ensures QueryEscape("true") == "true" && QueryEscape("false") == "false"
  {
    assert Plain("true") && Plain("false");
  }

  /** A target written as path, '?', query: the server reads the path and the query's pairs. */
  lemma TargetOfQuery(path: string, q: string)
    requires '?' !in path && '#' !in path && '#' !in q
    ensures TargetPath(path + "?" + q) == path
    ensures TargetQuery(path + "?" + q) == ParseQuery(q)
  {
    assert path + "?" + q == path + ['?'] + q;
    CutAt(path, q, '?');
  }

  /** A plain key has none of the characters that delimit a target or a query. */
  lemma PlainDelimitsNothing(k: string)
    requires Plain(k)
    ensures '=' !in k && '&' !in k && '?' !in k
  {
  }

  /** A query of one pair written by hand reads back as that pair. */
  lemma ParseOnePair(k: string, v: string)
    requires Plain(k) && '&' !in v
    ensures ParseQuery(k + "=" + v) == [(k, v)]
  {
    PlainDelimitsNothing(k);
    var s := k + "=" + v;
    assert s == k + ['='] + v;
    assert '&' !in s;
    SplitJoin([s], '&');
    CutAt(k, v, '=');
  }

  /** A query of two pairs written by hand reads back as those pairs, in order. */
  lemma ParseTwoPairs(k1: string, v1: string, k2: string, v2: string)
    requires Plain(k1) && '&' !in v1
    requires Plain(k2) && '&' !in v2
    ensures ParseQuery(k1 + "=" + v1 + "&" + k2 + "=" + v2) == [(k1, v1), (k2, v2)]
  {
    PlainDelimitsNothing(k1);
    PlainDelimitsNothing(k2);
    var a := k1 + "=" + v1;
    var b := k2 + "=" + v2;
    var q := k1 + "=" + v1 + "&" + k2 + "=" + v2;
    assert q == a + ['&'] + b;
    assert a == k1 + ['='] + v1 && b == k2 + ['='] + v2;
    assert '&' !in a && '&' !in b;
    assert Join([a, b], '&') == a + ['&'] + Join([b], '&');
    SplitJoin([a, b], '&');
    assert Split(q, '&') == [a, b];
    CutAt(k1, v1, '=');
    CutAt(k2, v2, '=');
    assert ParsePairs([a, b]) == [Cut(a, '=')] + ParsePairs([b]);
    assert ParsePairs([b]) == [Cut(b, '=')] + ParsePairs([]);
  }

  /** The table of one or two pairs, as the server reads it. */
  lemma PairsToMapShort(a: (string, string), b: (string, string))
    ensures PairsToMap([a]) == map[a.0 := a.1]
    ensures PairsToMap([a, b]) == map[b.0 := b.1][a.0 := a.1]
  {
    assert [a][1..] == [];
    assert [a, b][1..] == [b];
    assert [b][1..] == [];
  }
}
