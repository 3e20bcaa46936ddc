/**
 * `convertToYtDlp`: the yt-dlp command line built from the parsed curl fields and the
 * title and episode. Tokens are, in order: `yt-dlp`, the referer, user-agent and cookie
 * options (each only when its field is non-empty), one `--add-header` per stored header
 * other than `User-Agent` and `Referer`, the quoted URL when there is one, and the
 * `-o` output name; they are joined with a backslash, a newline and two spaces.
 */
module YtDlp {
  import opened CurlInfo

  const Separator: string := " \\\n  "

  /** The characters the output name may not contain: `\ / : * ? " < > |`. */
  predicate Unsafe(c: char) {
    c in {'\\', '/', ':', '*', '?', '"', '<', '>', '|'}
  }

  function SafeChar(c: char): char {
    if Unsafe(c) then '_' else c
  }

  /** `s.replace(/[\\/:*?"<>|]/g, '_')`. */
  function Sanitize(s: string): (r: string)
    ensures |r| == |s|
    ensures forall i | 0 <= i < |s| :: r[i] == SafeChar(s[i])
  {
    if s == [] then [] else [SafeChar(s[0])] + Sanitize(s[1..])
  }

  /** The file name: the sanitised title and episode run together, then `.mp4`. */
  function FileName(title: string, episode: string): (r: string)
    ensures |r| == |title| + |episode| + 4 && r[|r| - 4..] == ".mp4"
    ensures forall i | 0 <= i < |r| - 4 :: !Unsafe(r[i])
  {
    var safeTitle := Sanitize(title);
    var safeEpisode := Sanitize(episode);
    safeTitle + (if safeEpisode != "" then safeEpisode else "") + ".mp4"
  }

  function RefererToken(referer: string): string { "--referer \"" + referer + "\"" }
  function UserAgentToken(userAgent: string): string { "--user-agent \"" + userAgent + "\"" }
  function CookieToken(cookies: string): string { "--add-header \"Cookie: " + cookies + "\"" }
  function HeaderToken(key: string, value: string): string { "--add-header \"" + key + ": " + value + "\"" }
  function UrlToken(url: string): string { "\"" + url + "\"" }
  function OutputToken(title: string, episode: string): string { "-o \"" + FileName(title, episode) + "\"" }

  /** `['User-Agent', 'Referer'].includes(key)`: exact, case-sensitive. */
  predicate Excluded(key: string) {
    key == "User-Agent" || key == "Referer"
  }

  /** The referer, user-agent and cookie tokens, each only when its field is non-empty. */
  function FixedTokens(info: Info): seq<string> {
    (if info.referer != "" then [RefererToken(info.referer)] else [])
    + (if info.userAgent != "" then [UserAgentToken(info.userAgent)] else [])
    + (if info.cookies != "" then [CookieToken(info.cookies)] else [])
  }

  /** The `for…of` over `Object.entries(info.headers)`. */
  function HeaderTokens(headers: Headers): (r: seq<string>)
    ensures |r| <= |headers|
  {
    if headers == [] then []
    else
      var (key, value) := headers[|headers| - 1];
      HeaderTokens(headers[..|headers| - 1]) + (if Excluded(key) then [] else [HeaderToken(key, value)])
  }

  /** The `base` array once every push is done. */
  function Tokens(info: Info, title: string, episode: string): (r: seq<string>)
    ensures |r| >= 2 && r[0] == "yt-dlp" && r[|r| - 1] == OutputToken(title, episode)
  {
    ["yt-dlp"] + FixedTokens(info) + HeaderTokens(info.headers)
    + (if info.url != "" then [UrlToken(info.url)] else [])
    + [OutputToken(title, episode)]
  }

  /** `Array.prototype.join(sep)`. */
  function Join(tokens: seq<string>, sep: string): (r: string)
    ensures tokens != [] ==> |tokens[0]| <= |r| && r[..|tokens[0]|] == tokens[0]
  {
    if tokens == [] then ""
    else if |tokens| == 1 then tokens[0]
    else Join(tokens[..|tokens| - 1], sep) + sep + tokens[|tokens| - 1]
  }

  /** `convertToYtDlp(info, title, episode)`. */
  function YtDlpCommand(info: Info, title: string, episode: string): (r: string)
    ensures |r| >= 6 && r[..6] == "yt-dlp"
  {
    Join(Tokens(info, title, episode), Separator)
  }

  /** The sanitised text holds no unsafe character, and every safe character is left alone. */
  lemma SanitizeClean(s: string)
    ensures forall i | 0 <= i < |Sanitize(s)| :: !Unsafe(Sanitize(s)[i])
    ensures forall i | 0 <= i < |s| :: !Unsafe(s[i]) ==> Sanitize(s)[i] == s[i]
  {
  }

  /** Sanitising twice is sanitising once. */
  lemma SanitizeIdempotent(s: string)
    ensures Sanitize(Sanitize(s)) == Sanitize(s)
  {
  }

  /** A text without unsafe characters is its own sanitisation. */
  lemma SanitizeKeepsSafe(s: string)
    requires forall i | 0 <= i < |s| :: !Unsafe(s[i])
    ensures Sanitize(s) == s
  {
  }

  /** Title and episode are run together with no separator: the ternary on the episode is the identity. */
  lemma FileNameConcat(title: string, episode: string)
    ensures FileName(title, episode) == Sanitize(title) + Sanitize(episode) + ".mp4"
    ensures |FileName(title, episode)| == |title| + |episode| + 4
  {
  }

  /** `('a/b:c', '1?2')` names the file `a_b_c1_2.mp4`. */
  lemma FileNameExample()
    ensures FileName("a/b:c", "1?2") == "a_b_c1_2.mp4"
  {
    assert Sanitize("a/b:c") == "a_b_c";
    assert Sanitize("1?2") == "1_2";
  }

  /** The number of stored headers whose name is not excluded. */
  function IncludedCount(headers: Headers): nat {
    if headers == [] then 0 else (if Excluded(headers[0].0) then 0 else 1) + IncludedCount(headers[1..])
  }

  lemma {:induction false} IncludedCountSnoc(headers: Headers, e: (string, string))
    ensures IncludedCount(headers + [e]) == IncludedCount(headers) + (if Excluded(e.0) then 0 else 1)
  {
    if headers != [] {
      assert (headers + [e])[1..] == headers[1..] + [e];
      IncludedCountSnoc(headers[1..], e);
    }
  }

  /** One `--add-header` token per header whose name is not excluded. */
  lemma {:induction false} HeaderTokensCount(headers: Headers)
    ensures |HeaderTokens(headers)| == IncludedCount(headers)
  {
    if headers != [] {
      var init := headers[..|headers| - 1];
      HeaderTokensCount(init);
      IncludedCountSnoc(init, headers[|headers| - 1]);
      assert init + [headers[|headers| - 1]] == headers;
    }
  }

  /**
   * A generic header token is emitted exactly for the stored headers other than `User-Agent`
   * and `Referer`.
   */
  lemma {:induction false} HeaderTokensExactly(headers: Headers, t: string)
    ensures t in HeaderTokens(headers) <==>
      exists i | 0 <= i < |headers| :: !Excluded(headers[i].0) && t == HeaderToken(headers[i].0, headers[i].1)
  {
    if headers != [] {
      var n := |headers| - 1;
      var init := headers[..n];
      HeaderTokensExactly(init, t);
      if t in HeaderTokens(headers) && t !in HeaderTokens(init) {
        assert !Excluded(headers[n].0) && t == HeaderToken(headers[n].0, headers[n].1);
      }
      if exists i | 0 <= i < |headers| :: !Excluded(headers[i].0) && t == HeaderToken(headers[i].0, headers[i].1) {
        var i :| 0 <= i < |headers| && !Excluded(headers[i].0) && t == HeaderToken(headers[i].0, headers[i].1);
        if i < n {
          assert init[i] == headers[i];
        }
      }
    }
  }

  /** The exclusion is case-sensitive: a header named `referer` is still emitted. */
  lemma LowerCaseRefererEmitted(value: string)
    ensures HeaderTokens([("referer", value)]) == [HeaderToken("referer", value)]
    ensures HeaderTokens([("Referer", value)]) == []
  {
  }

  /** `yt-dlp` comes first and the output name last; the count of tokens. */
  lemma TokensShape(info: Info, title: string, episode: string)
    ensures var ts := Tokens(info, title, episode);
      && ts[0] == "yt-dlp"
      && ts[|ts| - 1] == OutputToken(title, episode)
      && |ts| == 2 + (if info.referer != "" then 1 else 0) + (if info.userAgent != "" then 1 else 0)
                   + (if info.cookies != "" then 1 else 0) + (if info.url != "" then 1 else 0)
                   + IncludedCount(info.headers)
  {
    HeaderTokensCount(info.headers);
  }

  /** Every token other than the URL token starts with `y` or `-`. */
  lemma NonUrlTokensStart(info: Info, title: string, episode: string, j: nat)
    requires j < |Tokens(info, title, episode)| - 1
    requires j != |Tokens(info, title, episode)| - 2 || info.url == ""
    ensures var t := Tokens(info, title, episode)[j]; t != [] && t[0] in {'y', '-'}
  {
    var fixed := ["yt-dlp"] + FixedTokens(info);
    var hs := HeaderTokens(info.headers);
    var ts := Tokens(info, title, episode);
    if |fixed| <= j < |fixed| + |hs| {
      assert ts[j] == hs[j - |fixed|];
      HeaderTokensExactly(info.headers, hs[j - |fixed|]);
    }
  }

  /** The quoted URL sits just before the output name exactly when there is a URL. */
  lemma UrlBeforeOutput(info: Info, title: string, episode: string)
    ensures var ts := Tokens(info, title, episode);
      |ts| >= 2 && (ts[|ts| - 2] == UrlToken(info.url) <==> info.url != "")
  {
    var ts := Tokens(info, title, episode);
    if info.url == "" {
      NonUrlTokensStart(info, title, episode, |ts| - 2);
    }
  }

  /** Every generic header token starts with `--add-header "`. */
  lemma HeaderTokenStart(headers: Headers, t: string)
    requires t in HeaderTokens(headers)
    ensures |t| > 14 && t[..14] == "--add-header \""
  {
    HeaderTokensExactly(headers, t);
    var i :| 0 <= i < |headers| && !Excluded(headers[i].0) && t == HeaderToken(headers[i].0, headers[i].1);
  }

  /** The referer and user-agent options appear exactly when their fields are non-empty. */
  lemma FixedOptionsPresent(info: Info, title: string, episode: string)
    ensures RefererToken(info.referer) in Tokens(info, title, episode) <==> info.referer != ""
    ensures UserAgentToken(info.userAgent) in Tokens(info, title, episode) <==> info.userAgent != ""
  {
    var hs := HeaderTokens(info.headers);
    if info.referer == "" {
      var t := RefererToken("");
      assert t[2] == 'r' && t[0] == '-' && t[1] == '-';
      assert UserAgentToken(info.userAgent)[2] == 'u';
      assert CookieToken(info.cookies)[2] == 'a';
      assert OutputToken(title, episode)[1] == 'o';
      if t in hs {
        HeaderTokenStart(info.headers, t);
        assert false;
      }
    }
    if info.userAgent == "" {
      var t := UserAgentToken("");
      assert t[2] == 'u' && t[0] == '-' && t[1] == '-';
      assert RefererToken(info.referer)[2] == 'r';
      assert CookieToken(info.cookies)[2] == 'a';
      assert OutputToken(title, episode)[1] == 'o';
      if t in hs {
        HeaderTokenStart(info.headers, t);
        assert false;
      }
    }
  }

  /**
   * Right after `yt-dlp` come the referer, user-agent and cookie options, in that order and
   * each only when its field is non-empty; every generic header token comes after all of them
   * and before the URL and output tokens.
   */
  lemma FixedOptionsOrder(info: Info, title: string, episode: string)
    ensures var ts := Tokens(info, title, episode);
      var r := if info.referer != "" then 1 else 0;
      var u := if info.userAgent != "" then 1 else 0;
      var c := if info.cookies != "" then 1 else 0;
      var tail := if info.url != "" then 2 else 1;
      && |ts| >= 1 + r + u + c + tail
      && (info.referer != "" ==> ts[1] == RefererToken(info.referer))
      && (info.userAgent != "" ==> ts[1 + r] == UserAgentToken(info.userAgent))
      && (info.cookies != "" ==> ts[1 + r + u] == CookieToken(info.cookies))
      && ts[1 + r + u + c..|ts| - tail] == HeaderTokens(info.headers)
  {
    var ts := Tokens(info, title, episode);
    var fixed := ["yt-dlp"] + FixedTokens(info);
    var hs := HeaderTokens(info.headers);
    var rest := (if info.url != "" then [UrlToken(info.url)] else []) + [OutputToken(title, episode)];
    assert ts == fixed + hs + rest;
    assert ts[|fixed|..|ts| - |rest|] == hs;
  }

  /** The cookie option appears whenever there is a cookie string. */
  lemma CookieOptionPresent(info: Info, title: string, episode: string)
    requires info.cookies != ""
    ensures CookieToken(info.cookies) in Tokens(info, title, episode)
  {
    FixedOptionsOrder(info, title, episode);
  }

  /** The curl part of the command does not depend on the title and episode, nor the name on the curl part. */
  lemma NamePartIndependent(info: Info, title: string, episode: string, info': Info, title': string, episode': string)
    ensures var ts, ts' := Tokens(info, title, episode), Tokens(info, title', episode');
      ts[..|ts| - 1] == ts'[..|ts'| - 1]
    ensures var ts, ts' := Tokens(info, title, episode), Tokens(info', title, episode);
      ts[|ts| - 1] == ts'[|ts'| - 1]
  {
  }

  /** The total length of a list of tokens. */
  function TotalLength(tokens: seq<string>): nat {
    if tokens == [] then 0 else TotalLength(tokens[..|tokens| - 1]) + |tokens[|tokens| - 1]|
  }

  /** A joined list is as long as every token plus one separator between each two. */
  lemma {:induction false} JoinLength(tokens: seq<string>, sep: string)
    requires tokens != []
    ensures |Join(tokens, sep)| == TotalLength(tokens) + (|tokens| - 1) * |sep|
  {
    if |tokens| > 1 {
      JoinLength(tokens[..|tokens| - 1], sep);
    } else {
      assert tokens[..0] == [];
    }
  }

  /**
   * Joining two non-empty lists one after the other is joining each and putting one separator
   * between them: with `Join([t], sep) == t`, this fixes the joined text as the tokens in order,
   * one separator between each two.
   */
  lemma {:induction false} JoinAppend(a: seq<string>, b: seq<string>, sep: string)
    requires a != [] && b != []
    ensures Join(a + b, sep) == Join(a, sep) + sep + Join(b, sep)
  {
    var init, last := b[..|b| - 1], b[|b| - 1];
    JoinSnoc(a + b, sep);
    assert (a + b)[..|a + b| - 1] == a + init;
    if |b| > 1 {
      JoinAppend(a, init, sep);
      JoinSnoc(b, sep);
      calc {
        Join(a + b, sep);
        Join(a + init, sep) + sep + last;
        (Join(a, sep) + sep + Join(init, sep)) + sep + last;
        { Regroup(Join(a, sep), Join(init, sep), last, sep); }
        Join(a, sep) + sep + (Join(init, sep) + sep + last);
        Join(a, sep) + sep + Join(b, sep);
      }
    } else {
      assert a + init == a;
    }
  }

  /** Three texts with a separator between each two, grouped either way. */
  lemma Regroup(x: string, y: string, z: string, sep: string)
    ensures (x + sep + y) + sep + z == x + sep + (y + sep + z)
  {
  }

  /** One step of `join`: the list without its last token, a separator, then the last token. */
  lemma JoinSnoc(tokens: seq<string>, sep: string)
    requires |tokens| > 1
    ensures Join(tokens, sep) == Join(tokens[..|tokens| - 1], sep) + sep + tokens[|tokens| - 1]
  {
  }

  /** A joined list starts with its first token and ends with its last. */
  lemma {:induction false} JoinEnds(tokens: seq<string>, sep: string)
    requires tokens != []
    ensures |Join(tokens, sep)| >= |tokens[0]| && |Join(tokens, sep)| >= |tokens[|tokens| - 1]|
    ensures |tokens| > 1 ==> |Join(tokens, sep)| >= |tokens[0]| + |sep| + |tokens[|tokens| - 1]|
    ensures Join(tokens, sep)[..|tokens[0]|] == tokens[0]
    ensures Join(tokens, sep)[|Join(tokens, sep)| - |tokens[|tokens| - 1]|..] == tokens[|tokens| - 1]
  {
    if |tokens| > 1 {
      var init := tokens[..|tokens| - 1];
      JoinEnds(init, sep);
      var j := Join(init, sep);
      assert Join(tokens, sep)[..|tokens[0]|] == j[..|tokens[0]|];
    }
  }

  /** The command starts with `yt-dlp` and ends with the `-o` token. */
  lemma CommandEnds(info: Info, title: string, episode: string)
    ensures var c, o := YtDlpCommand(info, title, episode), OutputToken(title, episode);
      |c| >= 6 + |o| && c[..6] == "yt-dlp" && c[|c| - |o|..] == o
  {
    TokensShape(info, title, episode);
    JoinEnds(Tokens(info, title, episode), Separator);
  }

  /** Empty curl, title and episode give exactly `yt-dlp \`, a newline, and `  -o ".mp4"`. */
  lemma EmptyCommand()
    ensures YtDlpCommand(Extract(""), "", "") == "yt-dlp \\\n  -o \".mp4\""
  {
    CurlInfo.ExtractEmpty();
    var info := Extract("");
    assert FileName("", "") == ".mp4";
    assert FixedTokens(info) == [] && HeaderTokens(info.headers) == [];
    assert OutputToken("", "") == "-o \".mp4\"";
    assert Tokens(info, "", "") == ["yt-dlp", "-o \".mp4\""];
  }

  /** The `for…of` loop over the header entries, pushing one token per entry not excluded. */
  method PushHeaders(base: seq<string>, entries: Headers) returns (pushed: seq<string>)
    ensures pushed == base + HeaderTokens(entries)
  {
    pushed := base;
    for i := 0 to |entries|
      invariant pushed == base + HeaderTokens(entries[..i])
    {
      var (key, value) := entries[i];
      assert entries[..i + 1][..i] == entries[..i];
      if !Excluded(key) {
        pushed := pushed + [HeaderToken(key, value)];
      }
    }
    assert entries[..|entries|] == entries;
  }

  /** The `-o` token as the template literal spells it. */
  lemma OutputTokenSpelled(title: string, episode: string)
    ensures var safeTitle, safeEpisode := Sanitize(title), Sanitize(episode);
      "-o \"" + safeTitle + (if safeEpisode != "" then safeEpisode else "") + ".mp4\"" == OutputToken(title, episode)
  {
  }

  /** `convertToYtDlp(info, title, episode)` as the program runs it: push by push. */
  method ConvertToYtDlp(info: Info, title: string, episode: string) returns (command: string)
    ensures command == YtDlpCommand(info, title, episode)
  {
    var base := ["yt-dlp"];
    if info.referer != "" { base := base + [RefererToken(info.referer)]; }
    assert base == ["yt-dlp"] + (if info.referer != "" then [RefererToken(info.referer)] else []);
    if info.userAgent != "" { base := base + [UserAgentToken(info.userAgent)]; }
    if info.cookies != "" { base := base + [CookieToken(info.cookies)]; }
    assert base == ["yt-dlp"] + FixedTokens(info);
    base := PushHeaders(base, info.headers);
    if info.url != "" { base := base + [UrlToken(info.url)]; }
    assert base == ["yt-dlp"] + FixedTokens(info) + HeaderTokens(info.headers) + (if info.url != "" then [UrlToken(info.url)] else []);
    var safeTitle := Sanitize(title);
    var safeEpisode := Sanitize(episode);
    var output := "-o \"" + safeTitle + (if safeEpisode != "" then safeEpisode else "") + ".mp4\"";
    OutputTokenSpelled(title, episode);
    base := base + [output];
    assert base == Tokens(info, title, episode);
    command := Join(base, Separator);
  }
}
