/**
 * `extractInfoFromCurl`: the fields pulled out of a pasted `curl` command. Each single field
 * is the capture of the leftmost match of its pattern, or `''`; the headers are every
 * `-H 'Name: value'` in order, gathered into an object where a later value for a name
 * replaces the earlier one but keeps its position.
 */
module CurlInfo {
  import opened Options
  import opened Scanner

  /** A plain JavaScript object with string values, as its entries in insertion order. */
  type Headers = seq<(string, string)>

  datatype Info = Info(url: string, referer: string, userAgent: string, cookies: string, headers: Headers)

  const UrlPattern: Pattern := Quoted("curl '")
  const RefererPattern: Pattern := Quoted("-H 'Referer: ")
  const UserAgentPattern: Pattern := Quoted("-H 'User-Agent: ")
  const CookiePattern: Pattern := Quoted("-b '")

  /** `s.match(re)?.[1] || ''` for one of the quoted patterns. */
  function Capture(s: string, pat: Pattern): (v: string)
    requires pat.Quoted?
    ensures v == "" <==> NoMatchIn(s, pat, 0, |s| + 1)
    ensures v != "" ==> Excludes(v, '\'')
    ensures v != "" ==>
      exists i | 0 <= i <= |s| :: NoMatchIn(s, pat, 0, i) && MatchAt(s, pat, i).Some? && MatchAt(s, pat, i).value.groups == [v]
  {
    match Search(s, pat, 0)
    case None => ""
    case Some((_, m)) => m.groups[0]
  }

  /** The names of an object's entries, in order. */
  function Keys(h: Headers): (ks: seq<string>)
    ensures |ks| == |h| && forall i | 0 <= i < |h| :: ks[i] == h[i].0
  {
    if h == [] then [] else [h[0].0] + Keys(h[1..])
  }

  /** `h[k]`: the value stored under `k`, if any. */
  function Lookup(h: Headers, k: string): (r: Option<string>)
    ensures r.Some? <==> k in Keys(h)
    ensures r.Some? ==> (k, r.value) in h
  {
    if h == [] then None else if h[0].0 == k then Some(h[0].1) else Lookup(h[1..], k)
  }

  /** No name occurs twice. */
  predicate Distinct(ks: seq<string>) {
    forall i, j | 0 <= i < j < |ks| :: ks[i] != ks[j]
  }

  /** `h[k] = v`: a new name is appended; an existing one keeps its place and takes the new value. */
  function Put(h: Headers, k: string, v: string): (r: Headers)
    ensures forall e | e in r :: e in h || e == (k, v)
  {
    if h == [] then [(k, v)]
    else if h[0].0 == k then [(k, v)] + h[1..]
    else [h[0]] + Put(h[1..], k, v)
  }

  /** Assigning a name appends it only when it is new; the other names keep their order. */
  lemma {:induction false} PutKeys(h: Headers, k: string, v: string)
    ensures Keys(Put(h, k, v)) == if k in Keys(h) then Keys(h) else Keys(h) + [k]
  {
    if h != [] && h[0].0 != k {
      PutKeys(h[1..], k, v);
      assert Keys(h) == [h[0].0] + Keys(h[1..]);
    }
  }

  /** After `h[k] = v`, `h[k]` is `v` and every other name reads as before. */
  lemma {:induction false} PutLookup(h: Headers, k: string, v: string, k': string)
    ensures Lookup(Put(h, k, v), k') == if k' == k then Some(v) else Lookup(h, k')
  {
    if h != [] && h[0].0 != k {
      PutLookup(h[1..], k, v, k');
    }
  }

  /** The object a `forEach` over `pairs` builds with `headers[key] = value`, starting from `{}`. */
  function HeadersOf(pairs: seq<(string, string)>): (h: Headers)
    ensures forall e | e in h :: e in pairs
  {
    if pairs == [] then []
    else
      var last := pairs[|pairs| - 1];
      Put(HeadersOf(pairs[..|pairs| - 1]), last.0, last.1)
  }

  /** The `[, key, value]` of one header-line match. */
  function PairOf(m: Match): (string, string)
    requires KeyValue(m)
  {
    (m.groups[0], m.groups[1])
  }

  /** The (key, value) captures of a list of header-line matches. */
  function Pairs(ms: seq<(nat, Match)>): (ps: seq<(string, string)>)
    requires forall k | 0 <= k < |ms| :: KeyValue(ms[k].1)
    ensures |ps| == |ms|
    ensures forall k | 0 <= k < |ms| :: ps[k] == PairOf(ms[k].1)
  {
    if ms == [] then [] else [PairOf(ms[0].1)] + Pairs(ms[1..])
  }

  /** Every `-H 'Name: value'` of `curl`, in order. */
  function HeaderPairs(curl: string): (ps: seq<(string, string)>)
    ensures forall e | e in ps :: e.0 != [] && Excludes(e.0, ':') && e.1 != [] && Excludes(e.1, '\'')
  {
    var ms := MatchAll(curl, HeaderLine, 0);
    Pairs(ms)
  }

  /** `extractInfoFromCurl(curl)`. */
  function Extract(curl: string): (info: Info)
    ensures forall e | e in info.headers ::
      e in HeaderPairs(curl) && e.0 != [] && Excludes(e.0, ':') && e.1 != [] && Excludes(e.1, '\'')
  {
    Info(Capture(curl, UrlPattern), Capture(curl, RefererPattern), Capture(curl, UserAgentPattern),
         Capture(curl, CookiePattern), HeadersOf(HeaderPairs(curl)))
  }

  /** An empty text yields four empty fields and no headers. */
  lemma ExtractEmpty()
    ensures Extract("") == Info("", "", "", "", [])
  {
    assert HeaderPairs("") == [];
  }

  /** The value of the last pair named `k`: what a later assignment leaves behind. */
  function LastValue(pairs: seq<(string, string)>, k: string): Option<string> {
    if pairs == [] then None
    else if pairs[|pairs| - 1].0 == k then Some(pairs[|pairs| - 1].1)
    else LastValue(pairs[..|pairs| - 1], k)
  }

  /** The names in order of first occurrence, each once. */
  function FirstOccurrences(ks: seq<string>): (r: seq<string>)
    ensures forall x :: x in r <==> x in ks
  {
    if ks == [] then []
    else
      var init := FirstOccurrences(ks[..|ks| - 1]);
      var x := ks[|ks| - 1];
      assert ks == ks[..|ks| - 1] + [x];
      if x in init then init else init + [x]
  }

  /** Every name the headers object holds, it holds once. */
  lemma {:induction false} HeadersDistinct(pairs: seq<(string, string)>)
    ensures Distinct(Keys(HeadersOf(pairs)))
  {
    if pairs != [] {
      var init := pairs[..|pairs| - 1];
      var last := pairs[|pairs| - 1];
      HeadersDistinct(init);
      PutKeys(HeadersOf(init), last.0, last.1);
    }
  }

  /** For a repeated name the last occurrence's value wins. */
  lemma {:induction false} HeadersLookup(pairs: seq<(string, string)>, k: string)
    ensures Lookup(HeadersOf(pairs), k) == LastValue(pairs, k)
  {
    if pairs != [] {
      var init := pairs[..|pairs| - 1];
      var last := pairs[|pairs| - 1];
      HeadersLookup(init, k);
      PutLookup(HeadersOf(init), last.0, last.1, k);
    }
  }

  /** The names stand in the order in which each first occurred. */
  lemma {:induction false} HeadersOrder(pairs: seq<(string, string)>)
    ensures Keys(HeadersOf(pairs)) == FirstOccurrences(Keys(pairs))
  {
    if pairs != [] {
      var init := pairs[..|pairs| - 1];
      var last := pairs[|pairs| - 1];
      HeadersOrder(init);
      PutKeys(HeadersOf(init), last.0, last.1);
      assert Keys(pairs)[..|pairs| - 1] == Keys(init);
    }
  }

  /** The `forEach` that fills `headers`. */
  method CollectHeaders(pairs: seq<(string, string)>) returns (headers: Headers)
    ensures headers == HeadersOf(pairs)
  {
    headers := [];
    for i := 0 to |pairs|
      invariant headers == HeadersOf(pairs[..i])
    {
      var (key, value) := pairs[i];
      assert pairs[..i + 1][..i] == pairs[..i];
      headers := Put(headers, key, value);
    }
    assert pairs[..|pairs|] == pairs;
  }
}
