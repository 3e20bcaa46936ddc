/**
 * The five regular expressions the curl parser uses, each as a hand-written scanner that
 * finds the leftmost match, together with a ghost description of the language each
 * expression accepts and the proof that the scanner finds exactly that.
 *
 *   /curl '([^']+)'/   /-H 'Referer: ([^']+)'/   /-H 'User-Agent: ([^']+)'/   /-b '([^']+)'/
 * are all `Quoted(prefix)`: a literal prefix, a non-empty run without `'`, then `'`.
 *   /-H '([^:]+): ([^']+)'/g
 * is `HeaderLine`: `-H '`, a non-empty run without `:`, `: `, a non-empty run without `'`, `'`.
 */
module Scanner {
  import opened Options

  datatype Pattern = Quoted(prefix: string) | HeaderLine

  /** One match: the captured groups (1 or 2) and the index just past the closing quote. */
  datatype Match = Match(groups: seq<string>, end: nat)

  /** No character of `t` is `c`. */
  predicate Excludes(t: string, c: char) {
    forall k | 0 <= k < |t| :: t[k] != c
  }

  /** `p` occurs in `s` at index `i`. */
  predicate StartsWithAt(s: string, i: nat, p: string) {
    i + |p| <= |s| && s[i..i + |p|] == p
  }

  /** The length of the longest run of characters other than `stop` starting at `i`. */
  function RunLength(s: string, i: nat, stop: char): (n: nat)
    requires i <= |s|
    ensures i + n <= |s|
    ensures forall k | i <= k < i + n :: s[k] != stop
    ensures i + n == |s| || s[i + n] == stop
    decreases |s| - i
  {
    if i == |s| || s[i] == stop then 0 else 1 + RunLength(s, i + 1, stop)
  }

  /** The captures of a well-formed match: non-empty, and without the character that ends them. */
  predicate WellFormed(pat: Pattern, m: Match) {
    match pat
    case Quoted(_) => |m.groups| == 1 && m.groups[0] != [] && Excludes(m.groups[0], '\'')
    case HeaderLine => KeyValue(m)
  }

  /** The captures of a header line: a name without `:` and a value without `'`, both non-empty. */
  predicate KeyValue(m: Match) {
    && |m.groups| == 2
    && m.groups[0] != [] && Excludes(m.groups[0], ':')
    && m.groups[1] != [] && Excludes(m.groups[1], '\'')
  }

  /** The match of `pat` that starts exactly at index `i`, if there is one. */
  function MatchAt(s: string, pat: Pattern, i: nat): (r: Option<Match>)
    requires i <= |s|
    ensures r.Some? ==> i < r.value.end <= |s| && WellFormed(pat, r.value)
  {
    match pat
    case Quoted(prefix) =>
      if !StartsWithAt(s, i, prefix) then None
      else
        var start := i + |prefix|;
        var n := RunLength(s, start, '\'');
        if n == 0 || start + n == |s| then None
        else Some(Match([s[start..start + n]], start + n + 1))
    case HeaderLine =>
      if !StartsWithAt(s, i, "-H '") then None
      else
        var keyStart := i + 4;
        var kn := RunLength(s, keyStart, ':');
        if kn == 0 || !StartsWithAt(s, keyStart + kn, ": ") then None
        else
          var valueStart := keyStart + kn + 2;
          var vn := RunLength(s, valueStart, '\'');
          if vn == 0 || valueStart + vn == |s| then None
          else Some(Match([s[keyStart..keyStart + kn], s[valueStart..valueStart + vn]], valueStart + vn + 1))
  }

  /**
   * The language of each expression, written out independently of the scanner: the text
   * `s[i..m.end]` spells the pattern with the groups of `m` filled in.
   */
  ghost predicate Spells(s: string, pat: Pattern, i: nat, m: Match) {
    && WellFormed(pat, m)
    && i <= m.end <= |s|
    && match pat
       case Quoted(prefix) => s[i..m.end] == prefix + m.groups[0] + "'"
       case HeaderLine => s[i..m.end] == "-H '" + m.groups[0] + ": " + m.groups[1] + "'"
  }

  /** A run that excludes `stop` and is followed by `stop` is the longest such run. */
  lemma {:induction false} RunLengthExact(s: string, i: nat, stop: char, n: nat)
    requires i + n < |s| && s[i + n] == stop
    requires forall k | i <= k < i + n :: s[k] != stop
    ensures RunLength(s, i, stop) == n
    decreases n
  {
    if n > 0 {
      RunLengthExact(s, i + 1, stop, n - 1);
    }
  }

  /** A slice that spells `a + b` splits into a slice that spells `a` and one that spells `b`. */
  lemma SplitSlice(s: string, i: nat, e: nat, a: string, b: string)
    requires i <= e <= |s| && s[i..e] == a + b
    ensures i + |a| <= e && s[i..i + |a|] == a && s[i + |a|..e] == b
  {
    assert s[i..i + |a|] == (a + b)[..|a|];
    assert s[i + |a|..e] == (a + b)[|a|..];
  }

  /** Two adjacent slices make up the slice that covers both. */
  lemma JoinSlice(s: string, i: nat, j: nat, e: nat)
    requires i <= j <= e <= |s|
    ensures s[i..e] == s[i..j] + s[j..e]
  {
  }

  lemma QuotedSound(s: string, prefix: string, i: nat)
    requires i <= |s| && MatchAt(s, Quoted(prefix), i).Some?
    ensures Spells(s, Quoted(prefix), i, MatchAt(s, Quoted(prefix), i).value)
  {
    var m := MatchAt(s, Quoted(prefix), i).value;
    var start := i + |prefix|;
    JoinSlice(s, i, start, m.end - 1);
    JoinSlice(s, i, m.end - 1, m.end);
    assert s[m.end - 1..m.end] == "'";
  }

  lemma QuotedComplete(s: string, prefix: string, i: nat, m: Match)
    requires i <= |s| && Spells(s, Quoted(prefix), i, m)
    ensures MatchAt(s, Quoted(prefix), i) == Some(m)
  {
    var v := m.groups[0];
    var start := i + |prefix|;
    SplitSlice(s, i, m.end, prefix + v, "'");
    SplitSlice(s, i, m.end - 1, prefix, v);
    assert m.end == start + |v| + 1;
    assert s[start + |v|] == s[m.end - 1..m.end][0] == '\'';
    forall k | start <= k < start + |v| ensures s[k] != '\'' {
      assert s[k] == s[start..start + |v|][k - start];
    }
    RunLengthExact(s, start, '\'', |v|);
    assert m.groups == [s[start..start + |v|]];
  }

  lemma HeaderSound(s: string, i: nat)
    requires i <= |s| && MatchAt(s, HeaderLine, i).Some?
    ensures Spells(s, HeaderLine, i, MatchAt(s, HeaderLine, i).value)
  {
    var m := MatchAt(s, HeaderLine, i).value;
    var k, v := m.groups[0], m.groups[1];
    var keyStart := i + 4;
    var valueStart := keyStart + |k| + 2;
    assert s[i..keyStart] == "-H '";
    assert s[keyStart..keyStart + |k|] == k;
    assert s[keyStart + |k|..valueStart] == ": ";
    assert s[valueStart..m.end - 1] == v;
    assert s[m.end - 1..m.end] == "'";
    JoinSlice(s, i, keyStart, keyStart + |k|);
    JoinSlice(s, i, keyStart + |k|, valueStart);
    JoinSlice(s, i, valueStart, m.end - 1);
    JoinSlice(s, i, m.end - 1, m.end);
  }

  /** A capture spelled at `start` and followed by its stop character is the run the scanner reads. */
  lemma CaptureRun(s: string, start: nat, v: string, stop: char)
    requires start + |v| < |s| && s[start..start + |v|] == v && Excludes(v, stop) && s[start + |v|] == stop
    ensures RunLength(s, start, stop) == |v|
  {
    forall j | start <= j < start + |v| ensures s[j] != stop {
      assert s[j] == v[j - start];
    }
    RunLengthExact(s, start, stop, |v|);
  }

  /** The slices of a spelled header line. */
  lemma HeaderSlices(s: string, i: nat, m: Match)
    requires i <= |s| && Spells(s, HeaderLine, i, m)
    ensures var k, v := m.groups[0], m.groups[1];
      var keyStart := i + 4;
      var valueStart := keyStart + |k| + 2;
      && m.end == valueStart + |v| + 1
      && s[i..keyStart] == "-H '"
      && s[keyStart..keyStart + |k|] == k
      && s[keyStart + |k|..valueStart] == ": "
      && s[valueStart..valueStart + |v|] == v
      && s[valueStart + |v|] == '\''
  {
    var k, v := m.groups[0], m.groups[1];
    var keyStart := i + 4;
    var valueStart := keyStart + |k| + 2;
    var e := m.end;
    assert s[i..e] == "-H '" + k + ": " + v + "'";
    SplitSlice(s, i, e, "-H '" + k + ": " + v, "'");
    SplitSlice(s, i, e - 1, "-H '" + k + ": ", v);
    SplitSlice(s, i, valueStart, "-H '" + k, ": ");
    SplitSlice(s, i, keyStart + |k|, "-H '", k);
    assert s[valueStart + |v|] == s[e - 1..e][0];
  }

  /** A header line laid out in slices is what the scanner reads at `i`. */
  lemma HeaderPieces(s: string, i: nat, k: string, v: string)
    requires k != [] && Excludes(k, ':') && v != [] && Excludes(v, '\'')
    requires i + 4 + |k| + 2 + |v| < |s|
    requires s[i..i + 4] == "-H '" && s[i + 4..i + 4 + |k|] == k
    requires s[i + 4 + |k|..i + 4 + |k| + 2] == ": "
    requires s[i + 4 + |k| + 2..i + 4 + |k| + 2 + |v|] == v
    requires s[i + 4 + |k| + 2 + |v|] == '\''
    ensures MatchAt(s, HeaderLine, i) == Some(Match([k, v], i + 4 + |k| + 2 + |v| + 1))
  {
    var keyStart := i + 4;
    var valueStart := keyStart + |k| + 2;
    assert s[keyStart + |k|] == s[keyStart + |k|..valueStart][0];
    CaptureRun(s, keyStart, k, ':');
    CaptureRun(s, valueStart, v, '\'');
  }

  lemma HeaderComplete(s: string, i: nat, m: Match)
    requires i <= |s| && Spells(s, HeaderLine, i, m)
    ensures MatchAt(s, HeaderLine, i) == Some(m)
  {
    HeaderSlices(s, i, m);
    HeaderPieces(s, i, m.groups[0], m.groups[1]);
    assert m == Match([m.groups[0], m.groups[1]], m.end);
  }

  /**
   * The scanner is exact: it reports a match at `i` precisely when the text at `i` spells
   * the pattern, so the regex's match at `i` is unique and it is the one reported.
   */
  lemma MatchAtExact(s: string, pat: Pattern, i: nat, m: Match)
    requires i <= |s|
    ensures MatchAt(s, pat, i) == Some(m) <==> Spells(s, pat, i, m)
  {
    match pat
    case Quoted(prefix) =>
      if MatchAt(s, pat, i) == Some(m) { QuotedSound(s, prefix, i); }
      if Spells(s, pat, i, m) { QuotedComplete(s, prefix, i, m); }
    case HeaderLine =>
      if MatchAt(s, pat, i) == Some(m) { HeaderSound(s, i); }
      if Spells(s, pat, i, m) { HeaderComplete(s, i, m); }
  }

  /** No match of `pat` starts at any index in `[lo, hi)`. */
  ghost predicate NoMatchIn(s: string, pat: Pattern, lo: nat, hi: nat) {
    forall j | lo <= j < hi && j <= |s| :: MatchAt(s, pat, j).None?
  }

  /** `s.match(re)` from index `from` on: the leftmost match and where it starts. */
  function Search(s: string, pat: Pattern, from: nat): (r: Option<(nat, Match)>)
    requires from <= |s|
    ensures r.Some? ==> from <= r.value.0 <= |s| && MatchAt(s, pat, r.value.0) == Some(r.value.1)
    ensures NoMatchIn(s, pat, from, if r.Some? then r.value.0 else |s| + 1)
    decreases |s| - from
  {
    match MatchAt(s, pat, from)
    case Some(m) => Some((from, m))
    case None => if from == |s| then None else Search(s, pat, from + 1)
  }

  /**
   * `[...s.matchAll(re)]` from index `from` on: the leftmost match, then the leftmost match
   * starting at or after its end, and so on.
   */
  function MatchAll(s: string, pat: Pattern, from: nat): (ms: seq<(nat, Match)>)
    requires from <= |s|
    ensures forall k | 0 <= k < |ms| :: from <= ms[k].0 <= |s| && MatchAt(s, pat, ms[k].0) == Some(ms[k].1)
    ensures forall k | 0 < k < |ms| :: ms[k - 1].1.end <= ms[k].0
    decreases |s| - from
  {
    match Search(s, pat, from)
    case None => []
    case Some((i, m)) => [(i, m)] + MatchAll(s, pat, m.end)
  }

  /** `MatchAll` skips no match: none starts before the first reported one, between two, or after the last. */
  lemma {:induction false} MatchAllSkipsNothing(s: string, pat: Pattern, from: nat)
    requires from <= |s|
    ensures var ms := MatchAll(s, pat, from);
      && NoMatchIn(s, pat, from, if ms == [] then |s| + 1 else ms[0].0)
      && (forall k | 0 < k < |ms| :: NoMatchIn(s, pat, ms[k - 1].1.end, ms[k].0))
      && (ms != [] ==> NoMatchIn(s, pat, ms[|ms| - 1].1.end, |s| + 1))
    decreases |s| - from
  {
    match Search(s, pat, from)
    case None =>
    case Some((i, m)) =>
      var rest := MatchAll(s, pat, m.end);
      MatchAllSkipsNothing(s, pat, m.end);
      var ms := [(i, m)] + rest;
      assert MatchAll(s, pat, from) == ms;
      forall k | 0 < k < |ms|
        ensures NoMatchIn(s, pat, ms[k - 1].1.end, ms[k].0)
      {
        if k > 1 {
          assert ms[k - 1] == rest[k - 2] && ms[k] == rest[k - 1];
        }
      }
  }
}
