/** Classification of pasted URLs by platform (src/lib/url-detector.ts).

    Each regular expression of the source starts with the optional groups
    `(?:https?:\/\/)?(?:www\.)?` (or `(?:vm\.)?`). The patterns are not
    anchored, so those optional groups change neither whether a pattern
    matches nor what it captures; the patterns below leave them out. */
module UrlDetector {
  import opened Wrappers
  import opened Text
  import opened Patterns
  import opened Types

  function Plain(a: Atom): Piece { Piece(a, false) }
  function Group(a: Atom): Piece { Piece(a, true) }

  const YouTubePatterns: seq<Pattern> := [
    Pattern([Plain(Lit("youtube.com/watch?v=")), Group(Count(IdChar, 11))], false),
    Pattern([Plain(Lit("youtu.be/")), Group(Count(IdChar, 11))], false),
    Pattern([Plain(Lit("youtube.com/shorts/")), Group(Count(IdChar, 11))], false),
    Pattern([Plain(Lit("youtube.com/embed/")), Group(Count(IdChar, 11))], false)
  ]

  const TwitterPatterns: seq<Pattern> := [
    Pattern([Plain(AnyOf(["twitter", "x"])), Plain(Lit(".com/")), Plain(Run(WordChar)),
             Plain(Lit("/status/")), Group(Run(DigitChar))], false),
    Pattern([Plain(AnyOf(["twitter", "x"])), Plain(Lit(".com/")), Plain(Run(WordChar)),
             Plain(Lit("/statuses/")), Group(Run(DigitChar))], false)
  ]

  const TikTokPatterns: seq<Pattern> := [
    Pattern([Plain(Lit("tiktok.com/@")), Plain(Run(HandleChar)), Plain(Lit("/video/")),
             Group(Run(DigitChar))], false),
    Pattern([Plain(Lit("tiktok.com/")), Group(Run(WordChar))], false),
    Pattern([Plain(Lit("tiktok.com/t/")), Group(Run(WordChar))], false)
  ]

  const InstagramPatterns: seq<Pattern> := [
    Pattern([Plain(Lit("instagram.com/")), Plain(AnyOf(["p", "reel", "tv"])), Plain(Lit("/")),
             Group(Run(IdChar))], false)
  ]

  /** Some pattern of the group tests true. */
  predicate AnyTests(ps: seq<Pattern>, url: string) {
    exists k :: 0 <= k < |ps| && Test(ps[k], url)
  }

  /** `detectPlatform`: the first group, in the order YouTube, Twitter, TikTok,
      Instagram, with a pattern that tests true. */
  function DetectPlatform(url: string): Platform {
    if AnyTests(YouTubePatterns, url) then YouTube
    else if AnyTests(TwitterPatterns, url) then Twitter
    else if AnyTests(TikTokPatterns, url) then TikTok
    else if AnyTests(InstagramPatterns, url) then Instagram
    else Unknown
  }

  /** The pattern group of a platform; `Unknown` has none. */
  function PatternsOf(p: Platform): seq<Pattern> {
    match p
    case YouTube => YouTubePatterns
    case Twitter => TwitterPatterns
    case TikTok => TikTokPatterns
    case Instagram => InstagramPatterns
    case Unknown => []
  }

  /** `match[1]` of `url.match(p)`, when there is a match and that group is non-empty. */
  function FirstGroup(p: Pattern, url: string): Option<string> {
    match Exec(p, url)
    case Some(m) => if |m.captures| >= 1 && m.captures[0] != "" then Some(m.captures[0]) else None
    case None => None
  }

  /** The loop of `extractVideoId`: the first pattern, in order, whose first group is there. */
  function FirstCapture(ps: seq<Pattern>, url: string): (r: Option<string>)
    ensures r.Some? ==> exists k :: 0 <= k < |ps| && FirstGroup(ps[k], url) == r
                                    && forall j :: 0 <= j < k ==> FirstGroup(ps[j], url).None?
    ensures r.None? ==> forall k :: 0 <= k < |ps| ==> FirstGroup(ps[k], url).None?
  {
    if ps == [] then None
    else if FirstGroup(ps[0], url).Some? then FirstGroup(ps[0], url)
    else
      var r := FirstCapture(ps[1..], url);
      FirstCaptureShift(ps, url, r);
      r
  }

  lemma {:induction false} FirstCaptureShift(ps: seq<Pattern>, url: string, r: Option<string>)
    requires ps != [] && FirstGroup(ps[0], url).None?
    requires r.Some? ==> exists k :: 0 <= k < |ps[1..]| && FirstGroup(ps[1..][k], url) == r
                                    && forall j :: 0 <= j < k ==> FirstGroup(ps[1..][j], url).None?
    requires r.None? ==> forall k :: 0 <= k < |ps[1..]| ==> FirstGroup(ps[1..][k], url).None?
    ensures r.Some? ==> exists k :: 0 <= k < |ps| && FirstGroup(ps[k], url) == r
                                    && forall j :: 0 <= j < k ==> FirstGroup(ps[j], url).None?
    ensures r.None? ==> forall k :: 0 <= k < |ps| ==> FirstGroup(ps[k], url).None?
  {
    assert forall k :: 1 <= k < |ps| ==> ps[k] == ps[1..][k - 1];
    if r.Some? {
      var k :| 0 <= k < |ps[1..]| && FirstGroup(ps[1..][k], url) == r
               && forall j :: 0 <= j < k ==> FirstGroup(ps[1..][j], url).None?;
      assert FirstGroup(ps[k + 1], url) == r;
    }
  }

  /** `extractVideoId`: no id for `Unknown`; otherwise the capture of the first
      pattern of the platform's group that matches with a non-empty group. */
  function ExtractVideoId(url: string, platform: Platform): (r: Option<string>)
    ensures platform == Unknown ==> r == None
    ensures r.Some? ==> r.value != []
    ensures r.Some? ==> exists k :: 0 <= k < |PatternsOf(platform)| && FirstGroup(PatternsOf(platform)[k], url) == r
                                    && forall j :: 0 <= j < k ==> FirstGroup(PatternsOf(platform)[j], url).None?
  {
    FirstCapture(PatternsOf(platform), url)
  }

  /** One classified line of input. */
  function Classify(url: string): UrlInfo {
    var platform := DetectPlatform(url);
    UrlInfo(url, platform, ExtractVideoId(url, platform))
  }

  /** The lines after `trim`, without the empty ones, in order. */
  function NonBlankTrimmed(lines: seq<string>): (r: seq<string>)
    ensures |r| <= |lines|
    ensures forall i :: 0 <= i < |r| ==> r[i] != [] && Trimmed(r[i])
  {
    if lines == [] then []
    else
      var t := Trim(lines[0]);
      var rest := NonBlankTrimmed(lines[1..]);
      if |t| > 0 then
        var r := [t] + rest;
        assert forall i :: 1 <= i < |r| ==> r[i] == rest[i - 1];
        r
      else rest
  }

  /** `parseUrls`: split on "\n", trim, drop empty lines, classify each. */
  function ParseUrls(input: string): (r: seq<UrlInfo>)
    ensures |r| == |NonBlankTrimmed(Split(input, '\n'))|
    ensures forall i :: 0 <= i < |r| ==> r[i] == Classify(NonBlankTrimmed(Split(input, '\n'))[i])
  {
    var lines := NonBlankTrimmed(Split(input, '\n'));
    seq(|lines|, i requires 0 <= i < |lines| => Classify(lines[i]))
  }

  /** The URLs of a classification, in order. */
  function UrlsOf(infos: seq<UrlInfo>): (r: seq<string>)
    ensures |r| == |infos| && forall i :: 0 <= i < |infos| ==> r[i] == infos[i].url
  {
    seq(|infos|, i requires 0 <= i < |infos| => infos[i].url)
  }

  /** `getPlatformDisplayName`. */
  function PlatformDisplayName(p: Platform): (r: string)
    ensures r == "Unknown" <==> p == Unknown
  {
    match p
    case YouTube => "YouTube"
    case Twitter => "X (Twitter)"
    case TikTok => "TikTok"
    case Instagram => "Instagram"
    case Unknown => "Unknown"
  }

  // ---------------------------------------------------------------------------
  // Properties

  /** A reference definition of first-match-wins over an ordered table of
      platforms and their pattern groups. */
  function FirstMatchingGroup(table: seq<(Platform, seq<Pattern>)>, url: string): (r: Platform)
    requires forall k :: 0 <= k < |table| ==> table[k].0 != Unknown
    ensures r == Unknown <==> forall k :: 0 <= k < |table| ==> !AnyTests(table[k].1, url)
  {
    if table == [] then Unknown
    else if AnyTests(table[0].1, url) then table[0].0
    else
      assert forall k :: 1 <= k < |table| ==> table[k] == table[1..][k - 1];
      FirstMatchingGroup(table[1..], url)
  }

  const PlatformOrder: seq<(Platform, seq<Pattern>)> :=
    [(YouTube, YouTubePatterns), (Twitter, TwitterPatterns), (TikTok, TikTokPatterns), (Instagram, InstagramPatterns)]

  /** `detectPlatform` is first-match-wins over YouTube, Twitter, TikTok, Instagram. */
  lemma {:induction false} FirstOfFour(a: seq<Pattern>, b: seq<Pattern>, c: seq<Pattern>, d: seq<Pattern>, url: string)
    ensures FirstMatchingGroup([(YouTube, a), (Twitter, b), (TikTok, c), (Instagram, d)], url)
            == if AnyTests(a, url) then YouTube else if AnyTests(b, url) then Twitter
               else if AnyTests(c, url) then TikTok else if AnyTests(d, url) then Instagram else Unknown
  {
    var t0 := [(YouTube, a), (Twitter, b), (TikTok, c), (Instagram, d)];
    var t1 := [(Twitter, b), (TikTok, c), (Instagram, d)];
    var t2 := [(TikTok, c), (Instagram, d)];
    var t3 := [(Instagram, d)];
    assert t0[1..] == t1 && t1[1..] == t2 && t2[1..] == t3 && t3[1..] == [];
    assert FirstMatchingGroup(t3, url) == if AnyTests(d, url) then Instagram else Unknown;
    assert FirstMatchingGroup(t2, url) == if AnyTests(c, url) then TikTok else FirstMatchingGroup(t3, url);
    assert FirstMatchingGroup(t1, url) == if AnyTests(b, url) then Twitter else FirstMatchingGroup(t2, url);
  }

  /** First-match-wins over a table of four groups, stated per entry. */
  lemma {:induction false} FirstOfFourEntries(a: seq<Pattern>, b: seq<Pattern>, c: seq<Pattern>, d: seq<Pattern>, url: string)
    ensures var t := [(YouTube, a), (Twitter, b), (TikTok, c), (Instagram, d)];
            var f := FirstMatchingGroup(t, url);
            forall k :: 0 <= k < |t| && f == t[k].0 ==> AnyTests(t[k].1, url) && forall j :: 0 <= j < k ==> !AnyTests(t[j].1, url)
  {
    var t := [(YouTube, a), (Twitter, b), (TikTok, c), (Instagram, d)];
    FirstOfFour(a, b, c, d, url);
    assert t[0] == (YouTube, a) && t[1] == (Twitter, b) && t[2] == (TikTok, c) && t[3] == (Instagram, d);
  }

  /** `detectPlatform` is first-match-wins over the table: it reports the
      first platform whose group tests true, and no earlier group does. */
  lemma {:induction false} DetectPlatformIsFirstMatch(url: string)
    ensures DetectPlatform(url) == FirstMatchingGroup(PlatformOrder, url)
    ensures DetectPlatform(url) == Unknown <==> forall k :: 0 <= k < |PlatformOrder| ==> !AnyTests(PlatformOrder[k].1, url)
    ensures forall k :: 0 <= k < |PlatformOrder| && DetectPlatform(url) == PlatformOrder[k].0 ==>
              AnyTests(PlatformOrder[k].1, url) && forall j :: 0 <= j < k ==> !AnyTests(PlatformOrder[j].1, url)
  {
    FirstOfFour(YouTubePatterns, TwitterPatterns, TikTokPatterns, InstagramPatterns, url);
    FirstOfFourEntries(YouTubePatterns, TwitterPatterns, TikTokPatterns, InstagramPatterns, url);
  }

  /** A platform found by classification has a pattern of its own group that tests true. */
  lemma {:induction false} DetectedGroupTests(url: string)
    requires DetectPlatform(url) != Unknown
    ensures AnyTests(PatternsOf(DetectPlatform(url)), url)
  {
  }

  lemma {:induction false} GroupOfMatchIsPresent(p: Pattern, url: string)
    requires Test(p, url)
    requires CaptureCount(p.pieces) >= 1 && CapturesNonEmpty(p.pieces)
    ensures FirstGroup(p, url).Some?
  {
    var m := Exec(p, url).value;
    SearchFromFinds(p, url, 0);
    assert MatchAt(p, url, m.start) == Some(m);
  }

  /** Only the last piece is a capture group, and it matches at least one character. */
  predicate CapturesLastOnly(ps: seq<Piece>) {
    |ps| >= 1 && ps[|ps| - 1].capture && (ps[|ps| - 1].atom.Run? || (ps[|ps| - 1].atom.Count? && ps[|ps| - 1].atom.n > 0))
    && forall k :: 0 <= k < |ps| - 1 ==> !ps[k].capture
  }

  lemma {:induction false} CapturesLastOnlyCount(ps: seq<Piece>)
    requires CapturesLastOnly(ps)
    ensures CaptureCount(ps) == 1 && CapturesNonEmpty(ps)
  {
    if |ps| > 1 {
      assert forall k :: 0 <= k < |ps[1..]| ==> ps[1..][k] == ps[k + 1];
      CapturesLastOnlyCount(ps[1..]);
    } else {
      assert ps[1..] == [];
    }
  }

  lemma {:induction false} PatternsWellFormed(p: Platform)
    ensures forall k :: 0 <= k < |PatternsOf(p)| ==>
              CaptureCount(PatternsOf(p)[k].pieces) == 1 && CapturesNonEmpty(PatternsOf(p)[k].pieces)
  {
    var ps := PatternsOf(p);
    forall k | 0 <= k < |ps|
      ensures CaptureCount(ps[k].pieces) == 1 && CapturesNonEmpty(ps[k].pieces)
    {
      CapturesLastOnlyCount(ps[k].pieces);
    }
  }

  /** A classified URL has an id exactly when its platform is known. */
  lemma {:induction false} IdPresentIffKnown(url: string)
    ensures Classify(url).id.Some? <==> Classify(url).platform != Unknown
  {
    var p := DetectPlatform(url);
    if p != Unknown {
      DetectedGroupTests(url);
      PatternsWellFormed(p);
      var ps := PatternsOf(p);
      var k :| 0 <= k < |ps| && Test(ps[k], url);
      GroupOfMatchIsPresent(ps[k], url);
    }
  }

  /** Every entry of `parseUrls` is a non-empty trimmed line, and its id is
      absent exactly when its platform is unknown. */
  lemma {:induction false} ParseUrlsEntries(input: string)
    ensures forall i :: 0 <= i < |ParseUrls(input)| ==>
              ParseUrls(input)[i].url != [] && Trimmed(ParseUrls(input)[i].url)
              && (ParseUrls(input)[i].id.None? <==> ParseUrls(input)[i].platform == Unknown)
  {
    forall i | 0 <= i < |ParseUrls(input)|
      ensures ParseUrls(input)[i].id.None? <==> ParseUrls(input)[i].platform == Unknown
    {
      IdPresentIffKnown(NonBlankTrimmed(Split(input, '\n'))[i]);
    }
  }

  /** Dropping blank lines distributes over concatenation of the input lines. */
  lemma {:induction false} NonBlankTrimmedAppend(a: seq<string>, b: seq<string>)
    ensures NonBlankTrimmed(a + b) == NonBlankTrimmed(a) + NonBlankTrimmed(b)
  {
    if a != [] {
      assert (a + b)[0] == a[0];
      assert (a + b)[1..] == a[1..] + b;
      NonBlankTrimmedAppend(a[1..], b);
      var t := Trim(a[0]);
      if |t| > 0 {
        assert NonBlankTrimmed(a + b) == [t] + NonBlankTrimmed(a[1..] + b);
        assert NonBlankTrimmed(a) == [t] + NonBlankTrimmed(a[1..]);
      } else {
        assert NonBlankTrimmed(a + b) == NonBlankTrimmed(a[1..] + b);
        assert NonBlankTrimmed(a) == NonBlankTrimmed(a[1..]);
      }
    } else {
      assert a + b == b;
    }
  }

  /** A blank or white-space-only line contributes nothing. */
  lemma {:induction false} BlankLineDropped(a: seq<string>, blank: string, b: seq<string>)
    requires AllSpace(blank)
    ensures NonBlankTrimmed(a + [blank] + b) == NonBlankTrimmed(a) + NonBlankTrimmed(b)
  {
    var one := [blank];
    assert Trim(blank) == [];
    assert one[1..] == [];
    assert NonBlankTrimmed(one) == [];
    NonBlankTrimmedAppend(a + one, b);
    NonBlankTrimmedAppend(a, one);
    assert NonBlankTrimmed(a) + [] == NonBlankTrimmed(a);
  }

  /** Lines that are already trimmed and non-empty all survive, in order, duplicates included. */
  lemma {:induction false} NonBlankTrimmedKeepsCleanLines(lines: seq<string>)
    requires forall i :: 0 <= i < |lines| ==> lines[i] != [] && Trimmed(lines[i])
    ensures NonBlankTrimmed(lines) == lines
  {
    if lines != [] {
      TrimOfTrimmed(lines[0]);
      NonBlankTrimmedKeepsCleanLines(lines[1..]);
      assert [lines[0]] + lines[1..] == lines;
    }
  }

  /** Re-parsing the URLs of a parse, one per line, gives the same parse. */
  lemma {:induction false} ParseUrlsIdempotent(input: string)
    ensures ParseUrls(Join(UrlsOf(ParseUrls(input)), "\n")) == ParseUrls(input)
  {
    var lines := NonBlankTrimmed(Split(input, '\n'));
    var urls := UrlsOf(ParseUrls(input));
    assert urls == lines;
    if lines == [] {
      assert Join(urls, "\n") == "";
      assert Split("", '\n') == [""];
      assert NonBlankTrimmed([""]) == [] by {
        assert [""][1..] == [];
      }
    } else {
      NonBlankTrimmedKeepsOut(Split(input, '\n'), '\n');
      SplitJoin(lines, '\n');
      NonBlankTrimmedKeepsCleanLines(lines);
    }
  }

  /** Trim only removes characters. */
  lemma {:induction false} TrimKeepsOut(s: string, c: char)
    requires c !in s
    ensures c !in Trim(s)
  {
    var t := TrimStart(s);
    TrimStartSuffix(s);
    assert c !in t;
    var r := TrimEnd(t);
    TrimEndPrefix(t);
  }

  /** A character that no line holds is in no line of the result. */
  lemma {:induction false} NonBlankTrimmedKeepsOut(lines: seq<string>, c: char)
    requires forall k :: 0 <= k < |lines| ==> c !in lines[k]
    ensures forall i :: 0 <= i < |NonBlankTrimmed(lines)| ==> c !in NonBlankTrimmed(lines)[i]
  {
    if lines != [] {
      TrimKeepsOut(lines[0], c);
      assert forall k :: 0 <= k < |lines[1..]| ==> lines[1..][k] == lines[k + 1];
      NonBlankTrimmedKeepsOut(lines[1..], c);
      var t := Trim(lines[0]);
      var rest := NonBlankTrimmed(lines[1..]);
      if |t| > 0 {
        assert NonBlankTrimmed(lines) == [t] + rest;
        assert forall i :: 1 <= i < |[t] + rest| ==> ([t] + rest)[i] == rest[i - 1];
      } else {
        assert NonBlankTrimmed(lines) == rest;
      }
    }
  }

  /** A single line is one entry however many URLs it holds: lines are not split further. */
  lemma {:induction false} OneLineOneEntry(line: string)
    requires line != [] && Trimmed(line) && '\n' !in line
    ensures ParseUrls(line) == [Classify(line)]
  {
    SplitNoSeparator(line, '\n');
    NonBlankTrimmedKeepsCleanLines([line]);
  }

  /** The same URL pasted twice yields two entries: there is no de-duplication. */
  lemma {:induction false} DuplicatesKept(url: string)
    requires url != [] && Trimmed(url) && '\n' !in url
    ensures ParseUrls(url + "\n" + url) == [Classify(url), Classify(url)]
  {
    assert Join([url, url], "\n") == url + "\n" + url by {
      assert [url, url][1..] == [url];
    }
    SplitJoin([url, url], '\n');
    NonBlankTrimmedKeepsCleanLines([url, url]);
  }

  // ---------------------------------------------------------------------------
  // The four YouTube forms

  lemma {:induction false} CountInside(pre: string, id: string, post: string, cls: CharClass)
    requires forall k :: 0 <= k < |id| ==> InClass(id[k], cls)
    ensures var s := pre + id + post;
            forall k :: |pre| <= k < |pre| + |id| ==> InClass(s[k], cls)
  {
    var s := pre + id + post;
    forall k | |pre| <= k < |pre| + |id| ensures InClass(s[k], cls) {
      assert s[k] == id[k - |pre|];
    }
  }

  lemma {:induction false} YouTubeFormMatches(pre: string, marker: string, id: string, post: string, k: nat)
    requires k < |YouTubePatterns| && YouTubePatterns[k].pieces[0].atom == Lit(marker)
    requires |id| == 11 && forall i :: 0 <= i < |id| ==> InClass(id[i], IdChar)
    ensures DetectPlatform(pre + marker + id + post) == YouTube
  {
    var url := pre + marker + id + post;
    var p := YouTubePatterns[k];
    LitInside(pre, marker, id + post, false);
    assert pre + marker + (id + post) == url;
    CountInside(pre + marker, id, post, IdChar);
    var ps := p.pieces;
    assert ps[1..][1..] == [];
    assert AtomAt(ps[1].atom, url, |pre| + |marker|, false) == Some(|pre| + |marker| + 11);
    assert PiecesAt(ps[1..], url, |pre| + |marker|, false).Some?;
    assert MatchAt(p, url, |pre|).Some?;
    TestWhenMatchAt(p, url, |pre|);
  }

  /** `watch?v=`, `youtu.be/`, `shorts/` and `embed/` links with an
      11-character id are all classified as YouTube. */
  lemma {:induction false} YouTubeForms(pre: string, id: string, post: string)
    requires |id| == 11 && forall i :: 0 <= i < |id| ==> InClass(id[i], IdChar)
    ensures DetectPlatform(pre + "youtube.com/watch?v=" + id + post) == YouTube
    ensures DetectPlatform(pre + "youtu.be/" + id + post) == YouTube
    ensures DetectPlatform(pre + "youtube.com/shorts/" + id + post) == YouTube
    ensures DetectPlatform(pre + "youtube.com/embed/" + id + post) == YouTube
  {
    YouTubeFormMatches(pre, "youtube.com/watch?v=", id, post, 0);
    YouTubeFormMatches(pre, "youtu.be/", id, post, 1);
    YouTubeFormMatches(pre, "youtube.com/shorts/", id, post, 2);
    YouTubeFormMatches(pre, "youtube.com/embed/", id, post, 3);
  }
}
