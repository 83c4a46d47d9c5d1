/** The string-building parts of the downloader (src/lib/video-downloader.ts):
    the `yt-dlp` command line, and the reading of a Farcaster cast URL that
    comes before any request. Running the command, the file system and the
    network are not modelled. */
module VideoDownloader {
  import opened Text
  import opened Types
  import opened Wrappers
  import opened Patterns
  import opened UrlDetector

  // ---------------------------------------------------------------------------
  // The download command

  const UserAgent: string := "Mozilla/5.0 (Windows NT 10.0; Win64; x64) AppleWebKit/537.36"

  /** The options every download command starts with. */
  function BaseCommand(outputPath: string): string {
    "yt-dlp -x --audio-format mp3 --audio-quality 0 -o \"" + outputPath + "\" --no-playlist"
  }

  /** The option that Twitter, TikTok and Instagram downloads add. */
  const AgentOption: string := " --user-agent \"" + UserAgent + "\""

  /** The URL as the last word of the command, between double quotes. */
  function QuotedUrl(url: string): string {
    " \"" + url + "\""
  }

  /** The platforms that get a browser user agent. */
  predicate NeedsUserAgent(p: Platform) {
    p == Twitter || p == TikTok || p == Instagram
  }

  /** A text put between two others is found where it was put. */
  lemma {:induction false} Sandwich(a: string, m: string, b: string)
    ensures StartsWith(a + m + b, a) && EndsWith(a + m + b, b)
    ensures (a + m + b)[|a|..|a + m + b| - |b|] == m
  {
    assert (a + m + b)[..|a|] == a;
    assert (a + m + b)[|a + m + b| - |b|..] == b;
  }

  /** `buildDownloadCommand`: the base, then for Twitter, TikTok and Instagram
      the same `--user-agent` option and for every other platform nothing,
      then the URL in double quotes. */
  function BuildDownloadCommand(url: string, outputPath: string, platform: Platform): (r: string)
    ensures StartsWith(r, BaseCommand(outputPath))
    ensures EndsWith(r, QuotedUrl(url))
    ensures |BaseCommand(outputPath)| + |QuotedUrl(url)| <= |r|
    ensures r[|BaseCommand(outputPath)|..|r| - |QuotedUrl(url)|] == if NeedsUserAgent(platform) then AgentOption else ""
  {
    var base := BaseCommand(outputPath);
    var tail := QuotedUrl(url);
    var middle := match platform
      case Twitter => AgentOption
      case TikTok => AgentOption
      case Instagram => AgentOption
      case YouTube => ""
      case Unknown => "";
    Sandwich(base, middle, tail);
    base + middle + tail
  }

  /** The three platforms that need a user agent get the same command; YouTube
      and the default case get the same command. */
  lemma {:induction false} SameCommandPerKind(url: string, outputPath: string)
    ensures BuildDownloadCommand(url, outputPath, Twitter) == BuildDownloadCommand(url, outputPath, TikTok)
    ensures BuildDownloadCommand(url, outputPath, TikTok) == BuildDownloadCommand(url, outputPath, Instagram)
    ensures BuildDownloadCommand(url, outputPath, YouTube) == BuildDownloadCommand(url, outputPath, Unknown)
  {
  }

  /** Inside double quotes the POSIX shell (Shell Command Language, section
      2.2.3 of POSIX.1-2017) expands `$` and backquotes, treats a backslash
      before `$`, backquote, `"`, backslash or newline as an escape, and ends
      the quoted text at the next `"`. A text free of those four characters is
      passed on as it is. */
  predicate LiteralInDoubleQuotes(s: string) {
    forall k :: 0 <= k < |s| ==> s[k] != '"' && s[k] != '$' && s[k] != '`' && s[k] != '\\'
  }

  /** As written, a URL that the classifier accepts can carry shell syntax
      into the command: the text after the video id is not checked, and it is
      placed between double quotes without escaping. So a text with `$` after
      a YouTube short link and a valid id is a YouTube URL that the shell
      does not pass on as it is. */
  lemma {:induction false} CommandCarriesShellSyntax(pre: string, id: string, post: string, outputPath: string)
    requires |id| == 11 && forall i :: 0 <= i < |id| ==> InClass(id[i], IdChar)
    requires '$' in post
    ensures var url := pre + "youtu.be/" + id + post;
            DetectPlatform(url) == YouTube && !LiteralInDoubleQuotes(url) &&
            EndsWith(BuildDownloadCommand(url, outputPath, DetectPlatform(url)), QuotedUrl(url))
  {
    var url := pre + "youtu.be/" + id + post;
    YouTubeForms(pre, id, post);
    var k :| 0 <= k < |post| && post[k] == '$';
    assert url[|url| - |post| + k] == post[k];
  }

  /** The characters the shell reads as themselves outside any quotes. */
  predicate Ordinary(c: char) {
    !(c == ' ' || c == '\t' || c == '\n' || c == '\'' || c == '"' || c == '\\' || c == '$' || c == '`' ||
      c == '|' || c == '&' || c == ';' || c == '<' || c == '>' || c == '(' || c == ')' ||
      c == '*' || c == '?' || c == '[' || c == '#' || c == '~')
  }

  /** The index of the first `'` at or after `j`, or `|t|` when there is none. */
  function QuoteEnd(t: string, j: nat): (e: nat)
    requires j <= |t|
    ensures j <= e <= |t|
    ensures e < |t| ==> t[e] == '\''
    ensures forall k :: j <= k < e ==> t[k] != '\''
    decreases |t| - j
  {
    if j == |t| || t[j] == '\'' then j else QuoteEnd(t, j + 1)
  }

  /** One shell word as the POSIX shell reads it (Shell Command Language,
      section 2.2), for words made of single-quoted parts, backslash escapes
      and ordinary characters: the text the command receives. `None` when the
      text holds anything else: a blank, an unterminated quote, or a character
      that starts an expansion, a double-quoted part or an operator. */
  function ReadWord(t: string): Option<string>
    decreases |t|
  {
    if t == [] then Some([])
    else if t[0] == '\'' then
      var e := QuoteEnd(t, 1);
      if e == |t| then None
      else match ReadWord(t[e + 1..])
        case None => None
        case Some(w) => Some(t[1..e] + w)
    else if t[0] == '\\' then
      if |t| < 2 || t[1] == '\n' then None
      else match ReadWord(t[2..])
        case None => None
        case Some(w) => Some([t[1]] + w)
    else if Ordinary(t[0]) then
      match ReadWord(t[1..])
      case None => None
      case Some(w) => Some([t[0]] + w)
    else None
  }

  /** The text of `s` with each `'` written as `'\''`. */
  function EscapeQuotes(s: string): string {
    if s == [] then []
    else (if s[0] == '\'' then "'\\''" else [s[0]]) + EscapeQuotes(s[1..])
  }

  /** `s` as one single-quoted shell word. */
  function ShellQuote(s: string): string {
    "'" + EscapeQuotes(s) + "'"
  }

  /** `a` put in front of the word read, if one is. */
  function Prepend(a: string, w: Option<string>): Option<string> {
    match w
    case None => None
    case Some(v) => Some(a + v)
  }

  /** A single-quoted part is read as the text between the quotes. */
  lemma {:induction false} ReadSingleQuoted(p: string, rest: string)
    requires forall k :: 0 <= k < |p| ==> p[k] != '\''
    ensures ReadWord("'" + p + "'" + rest) == Prepend(p, ReadWord(rest))
  {
    var t := "'" + p + "'" + rest;
    QuoteEndAt(t, 1, |p| + 1);
    assert t[1..|p| + 1] == p;
    assert t[|p| + 2..] == rest;
  }

  /** A backslash-escaped quote is read as a quote. */
  lemma {:induction false} ReadEscapedQuote(rest: string)
    ensures ReadWord("\\'" + rest) == Prepend("'", ReadWord(rest))
  {
    var t := "\\'" + rest;
    assert t[2..] == rest;
  }

  /** Reading a quoted part whose start `p` has no `'` in it. */
  lemma {:induction false} ReadQuotedPart(p: string, s: string, rest: string)
    requires forall k :: 0 <= k < |p| ==> p[k] != '\''
    ensures ReadWord("'" + p + EscapeQuotes(s) + "'" + rest) == Prepend(p + s, ReadWord(rest))
    decreases |s|
  {
    if s == [] {
      assert "'" + p + EscapeQuotes(s) + "'" + rest == "'" + p + "'" + rest;
      ReadSingleQuoted(p, rest);
      assert p + s == p;
    } else if s[0] == '\'' {
      ReadQuotedPart("", s[1..], rest);
      ReadAfterQuote(p, s, rest);
    } else {
      assert EscapeQuotes(s) == [s[0]] + EscapeQuotes(s[1..]);
      assert "'" + p + EscapeQuotes(s) + "'" + rest == "'" + (p + [s[0]]) + EscapeQuotes(s[1..]) + "'" + rest;
      ReadQuotedPart(p + [s[0]], s[1..], rest);
      assert p + [s[0]] + s[1..] == p + s;
    }
  }

  /** The step of `ReadQuotedPart` for a text that starts with a quote. */
  lemma {:induction false} ReadAfterQuote(p: string, s: string, rest: string)
    requires forall k :: 0 <= k < |p| ==> p[k] != '\''
    requires s != [] && s[0] == '\''
    requires ReadWord("'" + "" + EscapeQuotes(s[1..]) + "'" + rest) == Prepend("" + s[1..], ReadWord(rest))
    ensures ReadWord("'" + p + EscapeQuotes(s) + "'" + rest) == Prepend(p + s, ReadWord(rest))
  {
    var e := EscapeQuotes(s[1..]);
    var u := "'" + "" + e + "'" + rest;
    assert EscapeQuotes(s) == "'\\''" + e;
    QuoteSplice(p, e, rest);
    ReadSingleQuoted(p, "\\'" + u);
    ReadEscapedQuote(u);
    PrependQuote(p, s, ReadWord(rest));
  }

  /** The escaped quote splits the quoted text in two quoted parts. */
  lemma QuoteSplice(p: string, e: string, rest: string)
    ensures "'" + p + ("'\\''" + e) + "'" + rest == "'" + p + "'" + ("\\'" + ("'" + "" + e + "'" + rest))
  {
  }

  /** Reading a quote between `p` and the rest of `s`. */
  lemma PrependQuote(p: string, s: string, w: Option<string>)
    requires s != [] && s[0] == '\''
    ensures Prepend(p, Prepend("'", Prepend("" + s[1..], w))) == Prepend(p + s, w)
  {
    assert "" + s[1..] == s[1..];
    assert s == "'" + s[1..];
    match w {
      case None =>
      case Some(v) =>
        assert p + ("'" + (s[1..] + v)) == p + s + v;
    }
  }

  /** `QuoteEnd` stops at the first quote. */
  lemma {:induction false} QuoteEndAt(t: string, j: nat, e: nat)
    requires j <= e < |t| && t[e] == '\''
    requires forall k :: j <= k < e ==> t[k] != '\''
    ensures QuoteEnd(t, j) == e
    decreases e - j
  {
    if j < e {
      QuoteEndAt(t, j + 1, e);
    }
  }

  /** Quoting round trip: the shell reads the quoted word back as `s`,
      whatever characters `s` holds. */
  lemma {:induction false} ShellQuoteReadBack(s: string)
    ensures ReadWord(ShellQuote(s)) == Some(s)
  {
    ReadQuotedPart("", s, "");
    assert ShellQuote(s) == "'" + "" + EscapeQuotes(s) + "'" + "";
    assert "" + s + "" == s;
  }

  /** The download command with the output path and the URL single-quoted,
      so that the shell passes each to `yt-dlp` as it is. */
  function QuotedDownloadCommand(url: string, outputPath: string, platform: Platform): (r: string)
    ensures EndsWith(r, " " + ShellQuote(url))
  {
    var agent := if NeedsUserAgent(platform) then " --user-agent " + ShellQuote(UserAgent) else "";
    var head := "yt-dlp -x --audio-format mp3 --audio-quality 0 -o " + ShellQuote(outputPath) + " --no-playlist" + agent;
    SuffixOfConcat(head, " " + ShellQuote(url));
    head + (" " + ShellQuote(url))
  }

  /** With the quoted command the last word the shell reads is the URL,
      whatever characters it holds, the URL the classifier accepted included. */
  lemma {:induction false} QuotedCommandPassesUrl(url: string, outputPath: string, platform: Platform)
    ensures EndsWith(QuotedDownloadCommand(url, outputPath, platform), " " + ShellQuote(url))
    ensures ReadWord(ShellQuote(url)) == Some(url)
  {
    ShellQuoteReadBack(url);
  }

  // ---------------------------------------------------------------------------
  // Farcaster cast URLs

  /** `/(?:farcaster\.xyz|warpcast\.com)\/([^\/]+)\/([a-zA-Z0-9x]+)/i`. */
  const CastPattern: Pattern :=
    Pattern([Plain(AnyOf(["farcaster.xyz", "warpcast.com"])), Plain(Lit("/")), Group(Run(NotSlash)),
             Plain(Lit("/")), Group(Run(AlnumX))], true)

  /** Every character of `s` is of class `cls`. */
  predicate AllIn(s: string, cls: CharClass) {
    forall k :: 0 <= k < |s| ==> InClass(s[k], cls)
  }

  /** The user name and cast hash `fetchFarcasterCast` reads from a URL
      before it sends any request; `None` when the URL does not have the shape,
      in which case the function returns `null` at once. */
  function CastReference(castUrl: string): (r: Option<(string, string)>)
    ensures r.None? <==> !Test(CastPattern, castUrl)
    ensures r.Some? ==> r.value.0 != "" && '/' !in r.value.0
    ensures r.Some? ==> r.value.1 != "" && forall k :: 0 <= k < |r.value.1| ==> InClass(r.value.1[k], AlnumX)
  {
    match Exec(CastPattern, castUrl)
    case None => None
    case Some(m) =>
      CastCaptures(castUrl, m);
      Some((m.captures[0], m.captures[1]))
  }

  /** One step of matching a sequence of pieces. */
  lemma {:induction false} PiecesStep(ps: seq<Piece>, s: string, i: nat, ic: bool)
    requires ps != [] && i <= |s| && PiecesAt(ps, s, i, ic).Some?
    ensures AtomAt(ps[0].atom, s, i, ic).Some?
    ensures var e := AtomAt(ps[0].atom, s, i, ic).value;
            PiecesAt(ps[1..], s, e, ic).Some? &&
            PiecesAt(ps, s, i, ic).value ==
              (PiecesAt(ps[1..], s, e, ic).value.0,
               (if ps[0].capture then [s[i..e]] else []) + PiecesAt(ps[1..], s, e, ic).value.1)
  {
  }

  /** The captures of a match of the cast pattern: a non-empty run without `/`
      and a non-empty run of letters and digits. */
  lemma {:induction false} CastCaptures(s: string, m: Match)
    requires Exec(CastPattern, s) == Some(m)
    ensures |m.captures| == 2
    ensures m.captures[0] != "" && '/' !in m.captures[0]
    ensures m.captures[1] != "" && forall k :: 0 <= k < |m.captures[1]| ==> InClass(m.captures[1][k], AlnumX)
  {
    SearchFromFinds(CastPattern, s, 0);
    assert MatchAt(CastPattern, s, m.start) == Some(m);
    var r := PiecesAt(CastPattern.pieces, s, m.start, true).value;
    RunCaptures(AnyOf(["farcaster.xyz", "warpcast.com"]), Lit("/"), NotSlash, Lit("/"), AlnumX, s, m.start, true, r);
    var c1 := m.captures[0];
    forall k | 0 <= k < |c1| ensures c1[k] != '/' {
      assert InClass(c1[k], NotSlash);
    }
  }

  /** The captures of `a0 a1 (c1+) a3 (c2+)`: two non-empty runs of the two
      classes. */
  lemma {:induction false} RunCaptures(a0: Atom, a1: Atom, c1: CharClass, a3: Atom, c2: CharClass,
                    s: string, i: nat, ic: bool, r: (nat, seq<string>))
    requires i <= |s|
    requires PiecesAt([Plain(a0), Plain(a1), Group(Run(c1)), Plain(a3), Group(Run(c2))], s, i, ic) == Some(r)
    ensures |r.1| == 2
    ensures r.1[0] != "" && forall k :: 0 <= k < |r.1[0]| ==> InClass(r.1[0][k], c1)
    ensures r.1[1] != "" && forall k :: 0 <= k < |r.1[1]| ==> InClass(r.1[1][k], c2)
  {
    var ps := [Plain(a0), Plain(a1), Group(Run(c1)), Plain(a3), Group(Run(c2))];
    PiecesStep(ps, s, i, ic);
    var e0 := AtomAt(a0, s, i, ic).value;
    assert ps[1..] == [Plain(a1), Group(Run(c1)), Plain(a3), Group(Run(c2))];
    PiecesStep(ps[1..], s, e0, ic);
    var e1 := AtomAt(a1, s, e0, ic).value;
    var r2 := PiecesAt([Group(Run(c1)), Plain(a3), Group(Run(c2))], s, e1, ic).value;
    assert r.1 == r2.1;
    RunThenRun(c1, a3, c2, s, e1, ic, r2);
  }

  /** The captures of `(c1+) a3 (c2+)`. */
  lemma {:induction false} RunThenRun(c1: CharClass, a3: Atom, c2: CharClass, s: string, i: nat, ic: bool, r: (nat, seq<string>))
    requires i <= |s|
    requires PiecesAt([Group(Run(c1)), Plain(a3), Group(Run(c2))], s, i, ic) == Some(r)
    ensures |r.1| == 2
    ensures r.1[0] != "" && forall k :: 0 <= k < |r.1[0]| ==> InClass(r.1[0][k], c1)
    ensures r.1[1] != "" && forall k :: 0 <= k < |r.1[1]| ==> InClass(r.1[1][k], c2)
  {
    var ps := [Group(Run(c1)), Plain(a3), Group(Run(c2))];
    PiecesStep(ps, s, i, ic);
    var e1 := AtomAt(Run(c1), s, i, ic).value;
    RunCapture(c1, s, i, ic);
    assert ps[1..] == [Plain(a3), Group(Run(c2))];
    PiecesStep(ps[1..], s, e1, ic);
    var e2 := AtomAt(a3, s, e1, ic).value;
    assert ps[1..][1..] == [Group(Run(c2))];
    PiecesStep(ps[1..][1..], s, e2, ic);
    var e3 := AtomAt(Run(c2), s, e2, ic).value;
    RunCapture(c2, s, e2, ic);
    assert ps[1..][1..][1..] == [];
    assert r.1 == [s[i..e1]] + ([] + ([s[e2..e3]] + []));
  }

  /** What a run captures: a non-empty text of its class. */
  lemma {:induction false} RunCapture(cls: CharClass, s: string, i: nat, ic: bool)
    requires i <= |s| && AtomAt(Run(cls), s, i, ic).Some?
    ensures var e := AtomAt(Run(cls), s, i, ic).value;
            s[i..e] != "" && forall k :: 0 <= k < |s[i..e]| ==> InClass(s[i..e][k], cls)
  {
    var e := AtomAt(Run(cls), s, i, ic).value;
    assert e - i == RunLength(s, i, cls);
    assert forall k :: 0 <= k < e - i ==> s[i..e][k] == s[i + k];
  }

  /** The hosts the cast pattern accepts. */
  predicate CastHost(host: string) {
    host == "farcaster.xyz" || host == "warpcast.com"
  }

  /** A cast URL `<host>/<user>/<hash>` is read back as its user name and
      hash, whatever follows it that is not a letter or digit. */
  lemma {:induction false} CastReferenceOfCastUrl(host: string, user: string, hash: string, post: string)
    requires CastHost(host)
    requires user != "" && AllIn(user, NotSlash)
    requires hash != "" && AllIn(hash, AlnumX)
    requires post == [] || !InClass(post[0], AlnumX)
    ensures CastReference(host + "/" + user + "/" + hash + post) == Some((user, hash))
  {
    var url := host + "/" + user + "/" + hash + post;
    CastUrlPath(host, user, hash, post, url);
    CastUrlHost(host, user, hash, post, url);
    CastReferenceOfParts(url, |host|, user, hash);
  }

  /** A host, then the path of a cast: read back as its user name and hash. */
  lemma {:induction false} CastReferenceOfParts(url: string, e0: nat, user: string, hash: string)
    requires e0 <= |url|
    requires AtomAt(AnyOf(["farcaster.xyz", "warpcast.com"]), url, 0, true) == Some(e0)
    requires CastPathAt(url, e0, user, hash)
    requires user != "" && AllIn(user, NotSlash)
    requires hash != "" && AllIn(hash, AlnumX)
    ensures CastReference(url) == Some((user, hash))
  {
    CastMatch(url, e0, user, hash);
    CastReferenceFromPieces(url, PiecesAt(CastPattern.pieces, url, 0, true).value, user, hash);
  }

  /** A cast URL starts with its host. */
  lemma {:induction false} CastUrlHost(host: string, user: string, hash: string, post: string, url: string)
    requires CastHost(host)
    requires url == host + "/" + user + "/" + hash + post
    ensures |host| <= |url| && AtomAt(AnyOf(["farcaster.xyz", "warpcast.com"]), url, 0, true) == Some(|host|)
  {
    assert url == host + ("/" + user + "/" + hash + post);
    HostAt(host, "/" + user + "/" + hash + post);
  }

  /** The reference read from a match of the pieces at the start. */
  lemma {:induction false} CastReferenceFromPieces(url: string, r: (nat, seq<string>), user: string, hash: string)
    requires PiecesAt(CastPattern.pieces, url, 0, true) == Some(r) && r.1 == [user, hash]
    ensures CastReference(url) == Some((user, hash))
  {
    assert MatchAt(CastPattern, url, 0) == Some(Match(0, r.0, [user, hash]));
    assert Exec(CastPattern, url) == MatchAt(CastPattern, url, 0);
  }

  /** The pieces of the cast pattern match a cast URL at its start. */
  lemma {:induction false} CastMatch(url: string, e0: nat, user: string, hash: string)
    requires e0 <= |url|
    requires AtomAt(AnyOf(["farcaster.xyz", "warpcast.com"]), url, 0, true) == Some(e0)
    requires CastPathAt(url, e0, user, hash)
    requires user != "" && AllIn(user, NotSlash)
    requires hash != "" && AllIn(hash, AlnumX)
    ensures PiecesAt(CastPattern.pieces, url, 0, true) == Some((e0 + 1 + |user| + 1 + |hash|, [user, hash]))
  {
    PathPieces(url, e0, user, hash);
    HostThenPath(url, 0, e0, [Plain(Lit("/")), Group(Run(NotSlash)), Plain(Lit("/")), Group(Run(AlnumX))],
                 (e0 + 1 + |user| + 1 + |hash|, [user, hash]));
  }

  /** The host, then the path. */
  lemma {:induction false} HostThenPath(url: string, i: nat, e0: nat, path: seq<Piece>, r: (nat, seq<string>))
    requires i <= e0 <= |url|
    requires AtomAt(AnyOf(["farcaster.xyz", "warpcast.com"]), url, i, true) == Some(e0)
    requires path == [Plain(Lit("/")), Group(Run(NotSlash)), Plain(Lit("/")), Group(Run(AlnumX))]
    requires PiecesAt(path, url, e0, true) == Some(r)
    ensures PiecesAt(CastPattern.pieces, url, i, true) == Some(r)
  {
    PlainThen(Plain(AnyOf(["farcaster.xyz", "warpcast.com"])), path, url, i, true, e0);
    assert CastPattern.pieces == [Plain(AnyOf(["farcaster.xyz", "warpcast.com"]))] + path;
  }

  /** A piece that captures nothing, followed by the others. */
  lemma {:induction false} PlainThen(p: Piece, ps: seq<Piece>, s: string, i: nat, ic: bool, e: nat)
    requires i <= |s| && !p.capture && AtomAt(p.atom, s, i, ic) == Some(e)
    ensures PiecesAt([p] + ps, s, i, ic) == PiecesAt(ps, s, e, ic)
  {
    assert ([p] + ps)[0] == p && ([p] + ps)[1..] == ps;
    match PiecesAt(ps, s, e, ic) {
      case None =>
      case Some(r) => assert [] + r.1 == r.1;
    }
  }

  /** `/<user>/<hash>` at position `i` of `url`, followed by the end or a
      character that is not a letter or digit. */
  predicate CastPathAt(url: string, i: nat, user: string, hash: string) {
    var e2 := i + 1 + |user|;
    var e4 := e2 + 1 + |hash|;
    e4 <= |url| && url[i] == '/' && url[i + 1..e2] == user && url[e2] == '/' && url[e2 + 1..e4] == hash &&
    (e4 == |url| || !InClass(url[e4], AlnumX))
  }

  /** A cast URL has its path right after the host. */
  lemma {:induction false} CastUrlPath(host: string, user: string, hash: string, post: string, url: string)
    requires post == [] || !InClass(post[0], AlnumX)
    requires url == host + "/" + user + "/" + hash + post
    ensures CastPathAt(url, |host|, user, hash)
  {
    var e2 := |host| + 1 + |user|;
    var e4 := e2 + 1 + |hash|;
    assert url[|host|] == '/';
    assert url[|host| + 1..e2] == user;
    assert url[e2] == '/';
    assert url[e2 + 1..e4] == hash;
    if e4 < |url| {
      assert url[e4] == post[0];
    }
  }

  /** The pieces of the path of a cast URL. */
  lemma {:induction false} PathPieces(url: string, i: nat, user: string, hash: string)
    requires CastPathAt(url, i, user, hash)
    requires user != "" && AllIn(user, NotSlash)
    requires hash != "" && AllIn(hash, AlnumX)
    ensures PiecesAt([Plain(Lit("/")), Group(Run(NotSlash)), Plain(Lit("/")), Group(Run(AlnumX))], url, i, true) ==
            Some((i + 1 + |user| + 1 + |hash|, [user, hash]))
  {
    var e2 := i + 1 + |user|;
    var e4 := e2 + 1 + |hash|;
    SlashAt(url, i);
    RunAt(url, i + 1, user, NotSlash);
    SlashAt(url, e2);
    RunAt(url, e2 + 1, hash, AlnumX);
    PiecesFour(Lit("/"), NotSlash, Lit("/"), AlnumX, url, true, i, i + 1, e2, e2 + 1, e4);
  }

  /** A slash is matched where it is. */
  lemma {:induction false} SlashAt(s: string, i: nat)
    requires i < |s| && s[i] == '/'
    ensures AtomAt(Lit("/"), s, i, true) == Some(i + 1)
  {
  }

  /** A run of a class is matched to its end. */
  lemma {:induction false} RunAt(s: string, i: nat, run: string, cls: CharClass)
    requires i + |run| <= |s| && s[i..i + |run|] == run
    requires run != [] && AllIn(run, cls)
    requires i + |run| == |s| || !InClass(s[i + |run|], cls)
    ensures AtomAt(Run(cls), s, i, true) == Some(i + |run|)
  {
    var post := s[i + |run|..];
    assert s == s[..i] + run + post;
    if post != [] {
      assert post[0] == s[i + |run|];
    }
    RunInside(s[..i], run, post, cls);
  }

  /** The host alternative matches a cast host at the start of a text. */
  lemma {:induction false} HostAt(host: string, rest: string)
    requires CastHost(host)
    ensures AtomAt(AnyOf(["farcaster.xyz", "warpcast.com"]), host + rest, 0, true) == Some(|host|)
  {
    if host == "warpcast.com" {
      WarpcastAt(rest);
    } else {
      FarcasterAt(rest);
    }
  }

  lemma {:induction false} FarcasterAt(rest: string)
    ensures AtomAt(AnyOf(["farcaster.xyz", "warpcast.com"]), "farcaster.xyz" + rest, 0, true) == Some(13)
  {
    var host := "farcaster.xyz";
    LitInside("", host, rest, true);
    assert "" + host + rest == host + rest;
  }

  lemma {:induction false} WarpcastAt(rest: string)
    ensures AtomAt(AnyOf(["farcaster.xyz", "warpcast.com"]), "warpcast.com" + rest, 0, true) == Some(12)
  {
    var host := "warpcast.com";
    var s := host + rest;
    LitInside("", host, rest, true);
    assert "" + host + rest == s;
    assert s[0] == 'w';
    FirstOfTwo(s, "farcaster.xyz", host, true);
  }

  /** The second of two alternatives is chosen when the first one fails at
      its first character. */
  lemma {:induction false} FirstOfTwo(s: string, a: string, b: string, ic: bool)
    requires |a| > 0 && |s| > 0 && !CharEq(s[0], a[0], ic) && LitAt(s, b, 0, ic)
    ensures FirstAlternative(s, [a, b], 0, ic) == Some(b)
  {
    assert !LitAt(s, a, 0, ic);
    assert [a, b][1..] == [b];
    assert [b][1..] == [];
  }

  /** Matching `a1 (c1+) a3 (c2+)` from its atoms' ends. */
  lemma {:induction false} PiecesFour(a1: Atom, c1: CharClass, a3: Atom, c2: CharClass,
                   s: string, ic: bool, e0: nat, e1: nat, e2: nat, e3: nat, e4: nat)
    requires e0 <= |s| && AtomAt(a1, s, e0, ic) == Some(e1)
    requires e1 <= |s| && AtomAt(Run(c1), s, e1, ic) == Some(e2)
    requires e2 <= |s| && AtomAt(a3, s, e2, ic) == Some(e3)
    requires e3 <= |s| && AtomAt(Run(c2), s, e3, ic) == Some(e4)
    ensures e1 <= e2 <= e3 <= e4 <= |s|
    ensures PiecesAt([Plain(a1), Group(Run(c1)), Plain(a3), Group(Run(c2))], s, e0, ic) ==
            Some((e4, [s[e1..e2], s[e3..e4]]))
  {
    var none: seq<Piece> := [];
    var p4 := [Group(Run(c2))] + none;
    var p3 := [Plain(a3)] + p4;
    var p2 := [Group(Run(c1))] + p3;
    var x := s[e1..e2];
    var y := s[e3..e4];
    assert PiecesAt(none, s, e4, ic) == Some((e4, []));
    PieceThen(Group(Run(c2)), none, s, e3, ic, e4);
    var r4 := PiecesAt(p4, s, e3, ic).value;
    assert r4.0 == e4 && r4.1 == [y];
    PieceThen(Plain(a3), p4, s, e2, ic, e3);
    var r3 := PiecesAt(p3, s, e2, ic).value;
    assert r3.0 == e4 && r3.1 == [y];
    PieceThen(Group(Run(c1)), p3, s, e1, ic, e2);
    var r2 := PiecesAt(p2, s, e1, ic).value;
    assert r2.0 == e4 && r2.1 == [x, y];
    PieceThen(Plain(a1), p2, s, e0, ic, e1);
    var r1 := PiecesAt([Plain(a1)] + p2, s, e0, ic).value;
    assert r1.0 == e4 && r1.1 == [x, y];
    SeqOfFour(Plain(a1), Group(Run(c1)), Plain(a3), Group(Run(c2)));
  }

  lemma SeqOfFour<T>(a: T, b: T, c: T, d: T)
    ensures [a] + ([b] + ([c] + ([d] + []))) == [a, b, c, d]
  {
  }

  /** One piece, then the others: the result of the others, with the
      piece's text in front of the captures when it is a group. */
  lemma PieceThen(p: Piece, ps: seq<Piece>, s: string, i: nat, ic: bool, e: nat)
    requires i <= |s| && AtomAt(p.atom, s, i, ic) == Some(e)
    ensures i <= e <= |s|
    ensures PiecesAt([p] + ps, s, i, ic) ==
            match PiecesAt(ps, s, e, ic)
            case None => None
            case Some(r) => Some((r.0, (if p.capture then [s[i..e]] else []) + r.1))
  {
    assert ([p] + ps)[0] == p && ([p] + ps)[1..] == ps;
  }

  /** The address of the cast that the lookup asks for (line 177): a Warpcast
      address that the cast pattern reads back as the same user name and hash. */
  function CastLookupUrl(username: string, hash: string): (r: string)
    ensures StartsWith(r, "https://warpcast.com/")
    ensures username != "" && AllIn(username, NotSlash) && hash != "" && AllIn(hash, AlnumX) ==>
              CastReference(r) == Some((username, hash))
  {
    var r := "https://warpcast.com/" + username + "/" + hash;
    PrefixOfConcat("https://warpcast.com/", username + "/" + hash);
    assert r == "https://warpcast.com/" + (username + "/" + hash);
    if username != "" && AllIn(username, NotSlash) && hash != "" && AllIn(hash, AlnumX) then
      LookupReadBack(username, hash, r);
      r
    else
      r
  }

  /** The cast address with a scheme in front is still read as that cast: no
      host starts inside `https://`. */
  lemma {:induction false} LookupReadBack(username: string, hash: string, url: string)
    requires username != "" && AllIn(username, NotSlash) && hash != "" && AllIn(hash, AlnumX)
    requires url == "https://warpcast.com/" + username + "/" + hash
    ensures CastReference(url) == Some((username, hash))
  {
    LookupShape(username, hash, url);
    LookupFound(url, username, hash);
  }

  /** The lookup address: the scheme, the host, then the path. */
  lemma {:induction false} LookupShape(username: string, hash: string, url: string)
    requires url == "https://warpcast.com/" + username + "/" + hash
    ensures |url| >= 20 && url[..20] == "https://warpcast.com" && url[..8] == "https://"
    ensures CastPathAt(url, 20, username, hash)
  {
    assert url == "https://warpcast.com" + "/" + username + "/" + hash + "";
    CastUrlPath("https://warpcast.com", username, hash, "", url);
  }

  /** The search finds the cast after the scheme. */
  lemma {:induction false} LookupFound(url: string, username: string, hash: string)
    requires |url| >= 20 && url[..20] == "https://warpcast.com" && url[..8] == "https://"
    requires CastPathAt(url, 20, username, hash)
    requires username != "" && AllIn(username, NotSlash) && hash != "" && AllIn(hash, AlnumX)
    ensures CastReference(url) == Some((username, hash))
  {
    var m := Match(8, 20 + 1 + |username| + 1 + |hash|, [username, hash]);
    LookupMatch(url, username, hash);
    LookupScheme(url);
    SkipNoHost(url, 0, 8);
    FoundAt(url, m);
    ReferenceOfMatch(url, m);
  }

  /** A search from where the pattern matches stops there. */
  lemma {:induction false} FoundAt(s: string, m: Match)
    requires m.start <= |s| && MatchAt(CastPattern, s, m.start) == Some(m)
    ensures SearchFrom(CastPattern, s, m.start) == Some(m)
  {
  }

  /** The reference is the two captures of the leftmost match. */
  lemma {:induction false} ReferenceOfMatch(s: string, m: Match)
    requires Exec(CastPattern, s) == Some(m) && |m.captures| == 2
    ensures CastReference(s) == Some((m.captures[0], m.captures[1]))
  {
  }

  /** The cast pattern matches the lookup address at position 8. */
  lemma {:induction false} LookupMatch(url: string, username: string, hash: string)
    requires |url| >= 20 && url[..20] == "https://warpcast.com" && CastPathAt(url, 20, username, hash)
    requires username != "" && AllIn(username, NotSlash) && hash != "" && AllIn(hash, AlnumX)
    ensures MatchAt(CastPattern, url, 8) == Some(Match(8, 20 + 1 + |username| + 1 + |hash|, [username, hash]))
  {
    var path := [Plain(Lit("/")), Group(Run(NotSlash)), Plain(Lit("/")), Group(Run(AlnumX))];
    PathPieces(url, 20, username, hash);
    WarpcastAt8(url);
    var r := PiecesAt(path, url, 20, true).value;
    HostThenPath(url, 8, 20, path, r);
    MatchOfPieces(CastPattern, url, 8, r);
    assert r.1 == [username, hash];
    assert r.0 == 20 + 1 + |username| + 1 + |hash|;
    assert Match(8, r.0, r.1) == Match(8, 20 + 1 + |username| + 1 + |hash|, [username, hash]);
  }

  /** Neither host starts inside the `https://` of the lookup address. */
  lemma {:induction false} LookupScheme(url: string)
    requires |url| > 8 && url[..8] == "https://"
    ensures forall k :: 0 <= k < 8 ==> LowerChar(url[k]) != 'f' && LowerChar(url[k]) != 'w'
  {
    forall k | 0 <= k < 8 ensures LowerChar(url[k]) != 'f' && LowerChar(url[k]) != 'w' {
      assert url[k] == "https://"[k];
    }
  }

  /** The host alternative matches `warpcast.com` after `https://`. */
  lemma {:induction false} WarpcastAt8(url: string)
    requires |url| >= 20 && url[..20] == "https://warpcast.com"
    ensures AtomAt(AnyOf(["farcaster.xyz", "warpcast.com"]), url, 8, true) == Some(20)
  {
    var a, b := "farcaster.xyz", "warpcast.com";
    assert url == "https://" + b + url[20..];
    LitInside("https://", b, url[20..], true);
    assert LitAt(url, b, 8, true);
    assert url[8] == 'w' && a[0] == 'f';
    assert !CharEq(url[8 + 0], a[0], true);
    assert !LitAt(url, a, 8, true);
    assert [a, b][1..] == [b];
    assert FirstAlternative(url, [b], 8, true) == Some(b);
    assert FirstAlternative(url, [a, b], 8, true) == Some(b);
  }

  /** No match of the cast pattern starts where neither host can start. */
  lemma {:induction false} NoHostAt(s: string, j: nat)
    requires j < |s| && LowerChar(s[j]) != 'f' && LowerChar(s[j]) != 'w'
    ensures MatchAt(CastPattern, s, j).None?
  {
    var a, b := "farcaster.xyz", "warpcast.com";
    assert a[0] == 'f' && b[0] == 'w';
    assert !CharEq(s[j + 0], a[0], true);
    assert !LitAt(s, a, j, true);
    assert !CharEq(s[j + 0], b[0], true);
    assert !LitAt(s, b, j, true);
    var none: seq<string> := [];
    assert [a, b][1..] == [b] && [b][1..] == none;
    assert FirstAlternative(s, [a, b], j, true).None?;
    assert CastPattern.pieces[0] == Plain(AnyOf([a, b]));
  }

  /** The search passes over characters where neither host can start. */
  lemma SkipNoHost(s: string, j: nat, n: nat)
    requires j <= n < |s|
    requires forall k :: j <= k < n ==> LowerChar(s[k]) != 'f' && LowerChar(s[k]) != 'w'
    ensures SearchFrom(CastPattern, s, j) == SearchFrom(CastPattern, s, n)
  {
    forall k | j <= k < n
      ensures MatchAt(CastPattern, s, k).None?
    {
      NoHostAt(s, k);
    }
    SearchPasses(CastPattern, s, j, n);
  }
}
