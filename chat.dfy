/** The follow-up chat (src/components/chat.tsx): the light markdown the
    assistant's replies are shown in (numbered items, bullets, headings,
    bold lines, paragraphs, and `**bold**` inside a line), and the message
    list that a submission extends with the question and then one answer. */
module Chat {
  import opened Wrappers
  import opened Text

  // ---------------------------------------------------------------------------
  // Splitting a line at its bold segments

  /** The length of the run of characters other than `*` starting at `i`. */
  function StarFreeRun(s: string, i: nat): (n: nat)
    requires i <= |s|
    ensures i + n <= |s|
    decreases |s| - i
  {
    if i < |s| && s[i] != '*' then 1 + StarFreeRun(s, i + 1) else 0
  }

  lemma {:induction false} StarFreeFacts(s: string, i: nat)
    requires i <= |s|
    ensures forall k :: i <= k < i + StarFreeRun(s, i) ==> s[k] != '*'
    ensures i + StarFreeRun(s, i) == |s| || s[i + StarFreeRun(s, i)] == '*'
    decreases |s| - i
  {
    if i < |s| && s[i] != '*' {
      StarFreeFacts(s, i + 1);
    }
  }

  /** A text of the form `**<one or more characters other than *>**`. */
  predicate BoldMark(t: string) {
    && |t| >= 5 && t[0] == '*' && t[1] == '*' && t[|t| - 2] == '*' && t[|t| - 1] == '*'
    && forall k :: 2 <= k < |t| - 2 ==> t[k] != '*'
  }

  /** Where a match of `\*\*[^*]+\*\*` starting at `i` ends, if there is one.
      The run of other characters is taken whole: a shorter run is followed
      by a character other than `*`, never by the `**` the pattern needs. */
  function BoldEnd(s: string, i: nat): (r: Option<nat>)
    requires i <= |s|
    ensures r.Some? ==> i + 5 <= r.value <= |s| && BoldMark(s[i..r.value])
  {
    if i + 2 <= |s| && s[i] == '*' && s[i + 1] == '*' then
      var n := StarFreeRun(s, i + 2);
      var e := i + 2 + n;
      if n > 0 && e + 2 <= |s| && s[e] == '*' && s[e + 1] == '*' then
        StarFreeFacts(s, i + 2);
        var t := s[i..e + 2];
        assert forall k :: 0 <= k < |t| ==> t[k] == s[i + k];
        Some(e + 2)
      else None
    else None
  }

  /** Every bold segment starting at `i` is the one `BoldEnd` finds. */
  lemma {:induction false} BoldEndComplete(s: string, i: nat, e: nat)
    requires i <= e <= |s| && BoldMark(s[i..e])
    ensures BoldEnd(s, i) == Some(e)
  {
    var t := s[i..e];
    assert s[i] == t[0] && s[i + 1] == t[1];
    assert forall k :: i + 2 <= k < e - 2 ==> s[k] == t[k - i];
    assert s[e - 2] == t[|t| - 2] && s[e - 1] == t[|t| - 1];
    StarFreeFacts(s, i + 2);
  }

  /** `s.split(/(\*\*[^*]+\*\*)/g)` from position `q`, the current piece
      having started at `p`: at each position the pattern is tried; a match
      ends the current piece, is itself kept as a piece (it is captured), and
      a new piece starts after it. */
  function Parts(s: string, p: nat, q: nat): seq<string>
    requires p <= q <= |s|
    decreases |s| - q
  {
    if q == |s| then [s[p..]]
    else
      match BoldEnd(s, q)
      case Some(e) => [s[p..q], s[q..e]] + Parts(s, e, e)
      case None => Parts(s, p, q + 1)
  }

  function Concat(parts: seq<string>): string {
    if parts == [] then "" else parts[0] + Concat(parts[1..])
  }

  lemma {:induction false} ConcatTwoThen(a: string, b: string, rest: seq<string>)
    ensures Concat([a, b] + rest) == a + b + Concat(rest)
  {
    assert ([a, b] + rest)[1..] == [b] + rest;
    assert ([b] + rest)[1..] == rest;
  }

  /** The pieces put together give the text back. */
  lemma {:induction false} PartsConcat(s: string, p: nat, q: nat)
    requires p <= q <= |s|
    ensures Concat(Parts(s, p, q)) == s[p..]
    decreases |s| - q
  {
    if q == |s| {
      assert Concat([s[p..]]) == s[p..] + Concat([]);
    } else {
      match BoldEnd(s, q) {
        case Some(e) =>
          PartsConcat(s, e, e);
          ConcatTwoThen(s[p..q], s[q..e], Parts(s, e, e));
          assert s[p..] == s[p..q] + s[q..e] + s[e..];
        case None =>
          PartsConcat(s, p, q + 1);
      }
    }
  }

  /** No bold segment anywhere in `t`. */
  predicate NoBoldSegment(t: string) {
    forall k, e :: 0 <= k <= e <= |t| ==> !BoldMark(t[k..e])
  }

  /** Plain text and bold segments alternate, starting and ending with plain text. */
  predicate Alternates(parts: seq<string>) {
    && |parts| % 2 == 1
    && forall i :: 0 <= i < |parts| ==> if i % 2 == 1 then BoldMark(parts[i]) else NoBoldSegment(parts[i])
  }

  lemma {:induction false} AlternatesCons(a: string, b: string, rest: seq<string>)
    requires NoBoldSegment(a) && BoldMark(b) && Alternates(rest)
    ensures Alternates([a, b] + rest)
  {
    var r := [a, b] + rest;
    forall i | 2 <= i < |r|
      ensures r[i] == rest[i - 2] && (i % 2 == 1 <==> (i - 2) % 2 == 1)
    {
    }
  }

  /** Text in which no match starts holds no bold segment. */
  lemma {:induction false} NoBoldBefore(s: string, p: nat, q: nat)
    requires p <= q <= |s|
    requires forall k :: p <= k < q ==> BoldEnd(s, k).None?
    ensures NoBoldSegment(s[p..q])
  {
    var t := s[p..q];
    forall k, e | 0 <= k <= e <= |t|
      ensures !BoldMark(t[k..e])
    {
      SliceOfSlice(s, p, q, k, e);
      if BoldMark(t[k..e]) {
        BoldEndComplete(s, p + k, p + e);
      }
    }
  }

  /** The pieces alternate between plain text and bold segments. */
  lemma {:induction false} PartsAlternate(s: string, p: nat, q: nat)
    requires p <= q <= |s|
    requires forall k :: p <= k < q ==> BoldEnd(s, k).None?
    ensures Alternates(Parts(s, p, q))
    decreases |s| - q
  {
    if q == |s| {
      NoBoldBefore(s, p, q);
      assert s[p..q] == s[p..];
      assert [s[p..]][0] == s[p..];
    } else {
      match BoldEnd(s, q) {
        case Some(e) =>
          NoBoldBefore(s, p, q);
          PartsAlternate(s, e, e);
          AlternatesCons(s[p..q], s[q..e], Parts(s, e, e));
        case None =>
          PartsAlternate(s, p, q + 1);
      }
    }
  }

  /** The pieces `formatInline` splits a text into: they give the text back,
      and plain text alternates with the bold segments. */
  function InlineParts(text: string): (r: seq<string>)
    ensures Concat(r) == text
    ensures Alternates(r)
  {
    PartsConcat(text, 0, 0);
    PartsAlternate(text, 0, 0);
    assert text[0..] == text;
    Parts(text, 0, 0)
  }

  // ---------------------------------------------------------------------------
  // formatInline

  /** Which test marks a piece or a line as bold: the one the component uses
      (`startsWith("**") && endsWith("**")`), or the intended one. Corrected, a
      piece of the split is bold exactly when the split captured it as a bold
      segment, and a bold line needs two distinct markers. */
  datatype Guard = AsWritten | Corrected

  /** The text starts and ends with `**` (and, corrected, is at least four
      characters long, so that the two markers are distinct). */
  predicate Wrapped(t: string, g: Guard) {
    StartsWith(t, "**") && EndsWith(t, "**") && (g.AsWritten? || |t| >= 4)
  }

  /** `t.slice(2, -2)`: empty when the string is shorter than four characters. */
  function Inner(t: string): string {
    if |t| >= 4 then t[2..|t| - 2] else ""
  }

  datatype Inline = Plain(text: string) | Strong(text: string)

  /** Whether the piece at index `i` of the split is shown bold: as written,
      whenever it is wrapped in `**`; corrected, when it is a captured segment,
      which the split puts at the odd indices. */
  predicate ShownBold(part: string, i: nat, g: Guard) {
    if g.AsWritten? then Wrapped(part, AsWritten) else i % 2 == 1
  }

  function RenderPart(part: string, i: nat, g: Guard): Inline {
    if ShownBold(part, i, g) then Strong(Inner(part)) else Plain(part)
  }

  /** What a reader sees, with `**` written around the bold parts. */
  function Restore(x: Inline): string {
    match x
    case Plain(t) => t
    case Strong(t) => "**" + t + "**"
  }

  function RestoreAll(xs: seq<Inline>): string {
    if xs == [] then "" else Restore(xs[0]) + RestoreAll(xs[1..])
  }

  function RenderAll(parts: seq<string>, g: Guard): (r: seq<Inline>)
    ensures |r| == |parts|
    ensures forall i :: 0 <= i < |parts| ==> r[i] == RenderPart(parts[i], i, g)
  {
    seq(|parts|, i requires 0 <= i < |parts| => RenderPart(parts[i], i, g))
  }

  /** A bold segment the split captured is shown as bold text: the
      characters between the markers. */
  lemma {:induction false} BoldSegmentShown(t: string, i: nat, g: Guard)
    requires BoldMark(t) && i % 2 == 1
    ensures RenderPart(t, i, g) == Strong(t[2..|t| - 2])
    ensures t[2..|t| - 2] != "" && '*' !in t[2..|t| - 2]
    ensures t == "**" + t[2..|t| - 2] + "**"
  {
    assert t[..2] == "**";
    assert t[|t| - 2..] == "**";
    assert t == t[..2] + t[2..|t| - 2] + t[|t| - 2..];
  }

  /** With the corrected guard each piece of the split is restored to itself. */
  lemma {:induction false} RestorePart(part: string, i: nat)
    requires i % 2 == 1 ==> BoldMark(part)
    ensures Restore(RenderPart(part, i, Corrected)) == part
  {
    if i % 2 == 1 {
      BoldSegmentShown(part, i, Corrected);
    }
  }

  /** Inline texts that restore one by one to the parts restore to their join. */
  lemma {:induction false} RestoreAllPointwise(xs: seq<Inline>, parts: seq<string>)
    requires |xs| == |parts|
    requires forall i :: 0 <= i < |xs| ==> Restore(xs[i]) == parts[i]
    ensures RestoreAll(xs) == Concat(parts)
  {
    if xs != [] {
      assert forall i :: 0 <= i < |xs| - 1 ==> xs[1..][i] == xs[i + 1] && parts[1..][i] == parts[i + 1];
      RestoreAllPointwise(xs[1..], parts[1..]);
    }
  }

  lemma {:induction false} RestoreRendered(parts: seq<string>)
    requires Alternates(parts)
    ensures RestoreAll(RenderAll(parts, Corrected)) == Concat(parts)
  {
    var r := RenderAll(parts, Corrected);
    forall i | 0 <= i < |r|
      ensures Restore(r[i]) == parts[i]
    {
      RestorePart(parts[i], i);
    }
    RestoreAllPointwise(r, parts);
  }

  /** `formatInline`: the pieces of the text, each shown bold when it passes
      the guard. Every bold segment of the text is shown as bold text that is
      the segment without its markers. As written, a piece is bold exactly
      when it starts and ends with `**`, and is then shown as `slice(2, -2)`
      of it; a piece not bold is shown as it is. With the corrected guard, exactly the
      bold segments are bold, every other piece is shown as it is, and writing
      `**` back around the bold parts gives the text again. */
  function FormatInline(text: string, g: Guard): (r: seq<Inline>)
    ensures |r| == |InlineParts(text)| && |r| % 2 == 1
    ensures forall i :: 0 <= i < |r| && i % 2 == 1 ==>
              r[i].Strong? && r[i].text != "" && '*' !in r[i].text &&
              InlineParts(text)[i] == "**" + r[i].text + "**"
    ensures g.AsWritten? ==> forall i :: 0 <= i < |r| ==>
              (r[i].Strong? <==> StartsWith(InlineParts(text)[i], "**") && EndsWith(InlineParts(text)[i], "**"))
    ensures forall i :: 0 <= i < |r| && r[i].Strong? ==> r[i].text == Inner(InlineParts(text)[i])
    ensures forall i :: 0 <= i < |r| && r[i].Plain? ==> r[i].text == InlineParts(text)[i]
    ensures g.Corrected? ==> forall i :: 0 <= i < |r| ==> (r[i].Strong? <==> i % 2 == 1)
    ensures g.Corrected? ==> forall i :: 0 <= i < |r| && i % 2 == 0 ==> r[i] == Plain(InlineParts(text)[i])
    ensures g.Corrected? ==> RestoreAll(r) == text
  {
    RenderedFacts(InlineParts(text), g);
    RenderAll(InlineParts(text), g)
  }

  lemma {:induction false} RenderedFacts(parts: seq<string>, g: Guard)
    requires Alternates(parts)
    ensures var r := RenderAll(parts, g);
            forall i :: 0 <= i < |r| && i % 2 == 1 ==>
              r[i].Strong? && r[i].text != "" && '*' !in r[i].text && parts[i] == "**" + r[i].text + "**"
    ensures g.Corrected? ==> RestoreAll(RenderAll(parts, g)) == Concat(parts)
  {
    var r := RenderAll(parts, g);
    forall i | 0 <= i < |r| && i % 2 == 1
      ensures r[i].Strong? && r[i].text != "" && '*' !in r[i].text && parts[i] == "**" + r[i].text + "**"
    {
      BoldSegmentShown(parts[i], i, g);
    }
    if g.Corrected? {
      RestoreRendered(parts);
    }
  }

  /** As written, a piece that is only `**` passes the test, because its
      two markers are the same two characters: the asterisks are shown as an
      empty bold text, and writing the markers back gives `****`. */
  lemma {:induction false} LoneMarkersLostAsWritten()
    ensures FormatInline("**", AsWritten) == [Strong("")]
    ensures RestoreAll(FormatInline("**", AsWritten)) == "****"
  {
    LoneMarkersParts();
  }

  /** Corrected, the same text is shown as it is. */
  lemma {:induction false} LoneMarkersKeptCorrected()
    ensures FormatInline("**", Corrected) == [Plain("**")]
  {
    LoneMarkersParts();
  }

  lemma {:induction false} LoneMarkersParts()
    ensures InlineParts("**") == ["**"]
  {
    var s := "**";
    assert StarFreeRun(s, 2) == 0;
    assert BoldEnd(s, 0).None?;
    assert BoldEnd(s, 1).None?;
    assert Parts(s, 0, 2) == [s[0..]];
    assert Parts(s, 0, 1) == Parts(s, 0, 2);
  }

  /** As written, a piece with a `*` between its markers is shown bold though
      the split did not capture it as a bold segment; corrected, it is shown
      as it is. */
  lemma {:induction false} StarInsideBoldAsWritten()
    ensures FormatInline("**a*b**", AsWritten) == [Strong("a*b")]
    ensures FormatInline("**a*b**", Corrected) == [Plain("**a*b**")]
  {
    StarInsideParts();
    var t := "**a*b**";
    assert t[..2] == "**" && t[|t| - 2..] == "**" && t[2..|t| - 2] == "a*b";
  }

  lemma {:induction false} StarInsideParts()
    ensures InlineParts("**a*b**") == ["**a*b**"]
  {
    var s := "**a*b**";
    assert StarFreeRun(s, 2) == 1;
    assert StarFreeRun(s, 7) == 0;
    assert BoldEnd(s, 0).None? && BoldEnd(s, 1).None? && BoldEnd(s, 2).None?;
    assert BoldEnd(s, 3).None? && BoldEnd(s, 4).None? && BoldEnd(s, 5).None? && BoldEnd(s, 6).None?;
    assert Parts(s, 0, 7) == [s[0..]];
    assert Parts(s, 0, 6) == Parts(s, 0, 7);
    assert Parts(s, 0, 5) == Parts(s, 0, 6);
    assert Parts(s, 0, 4) == Parts(s, 0, 5);
    assert Parts(s, 0, 3) == Parts(s, 0, 4);
    assert Parts(s, 0, 2) == Parts(s, 0, 3);
    assert Parts(s, 0, 1) == Parts(s, 0, 2);
  }

  /** As written, four asterisks are shown as an empty bold text; corrected,
      as they are. */
  lemma {:induction false} EmptyBoldAsWritten()
    ensures FormatInline("****", AsWritten) == [Strong("")]
    ensures FormatInline("****", Corrected) == [Plain("****")]
  {
    EmptyBoldParts();
    var t := "****";
    assert t[..2] == "**" && t[|t| - 2..] == "**" && t[2..|t| - 2] == "";
  }

  lemma {:induction false} EmptyBoldParts()
    ensures InlineParts("****") == ["****"]
  {
    var s := "****";
    assert StarFreeRun(s, 2) == 0 && StarFreeRun(s, 3) == 0 && StarFreeRun(s, 4) == 0;
    assert BoldEnd(s, 0).None? && BoldEnd(s, 1).None? && BoldEnd(s, 2).None? && BoldEnd(s, 3).None?;
    assert Parts(s, 0, 4) == [s[0..]];
    assert Parts(s, 0, 3) == Parts(s, 0, 4);
    assert Parts(s, 0, 2) == Parts(s, 0, 3);
    assert Parts(s, 0, 1) == Parts(s, 0, 2);
  }

  // ---------------------------------------------------------------------------
  // Classifying the lines of a reply

  predicate AllDigits(s: string) {
    forall i :: 0 <= i < |s| ==> IsDigit(s[i])
  }

  /** Text that the regular-expression `.` matches throughout. */
  predicate NoLineBreak(s: string) {
    forall i :: 0 <= i < |s| ==> !IsLineTerminator(s[i])
  }

  /** `t.match(/^(\d+)\.\s+(.+)$/)`, giving the number, the white space after
      the dot and the rest. The digits before the dot are all of them; the
      white space is taken whole unless it runs to the end, where the pattern
      gives its last character back to `.+`. */
  function NumberedMatch(t: string): (r: Option<(string, string, string)>)
    ensures r.Some? ==>
              && t == r.value.0 + "." + r.value.1 + r.value.2
              && r.value.0 != [] && AllDigits(r.value.0)
              && r.value.1 != [] && AllSpace(r.value.1)
              && r.value.2 != [] && NoLineBreak(r.value.2)
  {
    var d := DigitRun(t, 0);
    if d == 0 || d == |t| || t[d] != '.' then None
    else
      var w := SpaceRun(t, d + 1);
      var a := d + 1 + w;
      DigitRunFacts(t, 0);
      SpaceRunFacts(t, d + 1);
      if w == 0 then None
      else if a < |t| then
        if NoLineBreak(t[a..]) then
          NumberedParts(t, d, a);
          Some((t[..d], t[d + 1..a], t[a..]))
        else None
      else if w >= 2 && !IsLineTerminator(t[|t| - 1]) then
        assert t[|t| - 1..] == [t[|t| - 1]];
        NumberedParts(t, d, |t| - 1);
        Some((t[..d], t[d + 1..|t| - 1], t[|t| - 1..]))
      else None
  }

  /** Digits, a dot, white space and a tail without line breaks, cut apart. */
  lemma {:induction false} NumberedParts(t: string, d: nat, a: nat)
    requires 0 < d && d + 1 < a < |t| && t[d] == '.'
    requires forall k :: 0 <= k < d ==> IsDigit(t[k])
    requires forall k :: d + 1 <= k < a ==> IsSpace(t[k])
    requires NoLineBreak(t[a..])
    ensures t == t[..d] + "." + t[d + 1..a] + t[a..]
    ensures t[..d] != [] && AllDigits(t[..d])
    ensures t[d + 1..a] != [] && AllSpace(t[d + 1..a])
    ensures t[a..] != [] && NoLineBreak(t[a..])
  {
    assert t == t[..d] + t[d..d + 1] + t[d + 1..a] + t[a..];
    assert forall k :: 0 <= k < d ==> t[..d][k] == t[k];
    assert forall k :: d + 1 <= k < a ==> t[d + 1..a][k - d - 1] == t[k];
  }

  /** Every line of the numbered form matches, with the number it starts with;
      when the rest does not start with white space, the match gives back the
      white space and the rest as they are. */
  lemma {:induction false} NumberedMatchComplete(n: string, w: string, rest: string)
    requires n != [] && AllDigits(n)
    requires w != [] && AllSpace(w)
    requires rest != [] && NoLineBreak(rest)
    ensures var t := n + "." + w + rest;
            NumberedMatch(t).Some? && NumberedMatch(t).value.0 == n
    ensures !IsSpace(rest[0]) ==> NumberedMatch(n + "." + w + rest) == Some((n, w, rest))
  {
    var t := n + "." + w + rest;
    var b := |n| + 1;
    var c := b + |w|;
    assert t[..|n|] == n && t[|n|] == '.' && t[b..] == w + rest;
    NumberedHead(n, t);
    SpacesThen(t, b, w, rest);
    var a := b + SpaceRun(t, b);
    if a < |t| {
      assert t[a..] == rest[a - c..];
      NoLineBreakTail(rest, a - c);
    } else {
      assert t[|t| - 1] == rest[|rest| - 1];
    }
    if !IsSpace(rest[0]) {
      assert t[b..c] == w && t[c..] == rest;
    }
  }

  /** The digits before the dot are the whole digit run. */
  lemma {:induction false} NumberedHead(n: string, t: string)
    requires n != [] && AllDigits(n)
    requires |n| < |t| && t[..|n|] == n && t[|n|] == '.'
    ensures DigitRun(t, 0) == |n|
  {
    DigitRunFacts(t, 0);
  }

  /** White space `w` at `b`, then `rest`: the run covers `w`, and is `w`
      exactly when `rest` does not start with white space. */
  lemma {:induction false} SpacesThen(t: string, b: nat, w: string, rest: string)
    requires b <= |t| && t[b..] == w + rest && AllSpace(w) && rest != []
    ensures |w| <= SpaceRun(t, b)
    ensures !IsSpace(rest[0]) ==> SpaceRun(t, b) == |w|
  {
    SpaceRunFacts(t, b);
    if !IsSpace(rest[0]) {
      assert t[b + |w|] == t[b..][|w|] == rest[0];
    }
  }

  /** What follows a position of a text without line breaks has none either. */
  lemma NoLineBreakTail(s: string, k: nat)
    requires k <= |s| && NoLineBreak(s)
    ensures NoLineBreak(s[k..])
  {
    assert forall i :: 0 <= i < |s| - k ==> s[k..][i] == s[k + i];
  }

  /** The bullets a line may start with. */
  predicate BulletStart(t: string) {
    StartsWith(t, "- ") || StartsWith(t, "\U{2022} ") || StartsWith(t, "* ")
  }

  datatype Block =
    | Numbered(number: string, body: seq<Inline>)
    | Bullet(body: seq<Inline>)
    | Heading(text: string)
    | BoldLine(text: string)
    | Paragraph(body: seq<Inline>)

  /** One line of `FormattedText`: nothing for a blank line; otherwise the
      trimmed line is, in this order of precedence, a numbered item, a bullet
      (without its two-character marker), a heading (without `## `), a bold
      line (without the markers) or a paragraph. */
  function ClassifyLine(line: string, g: Guard): (r: Option<Block>)
    ensures r.None? <==> AllSpace(line)
    ensures r.Some? ==> Classified(Trim(line), g, r.value)
  {
    var t := Trim(line);
    if t == [] then None else Some(ClassifyTrimmed(t, g))
  }

  /** What the block shown for the non-empty trimmed line `t` says about `t`. */
  predicate Classified(t: string, g: Guard, b: Block) {
    match b
    case Numbered(n, body) =>
      var m := NumberedMatch(t);
      m.Some? && n == m.value.0 && body == FormatInline(m.value.2, g)
    case Bullet(body) =>
      NumberedMatch(t).None? && BulletStart(t) && body == FormatInline(t[2..], g)
    case Heading(h) =>
      NumberedMatch(t).None? && !BulletStart(t) && t == "## " + h
    case BoldLine(x) =>
      && NumberedMatch(t).None? && !BulletStart(t) && !StartsWith(t, "## ")
      && (|t| >= 4 ==> t == "**" + x + "**")
      && (|t| < 4 ==> g.AsWritten? && x == "")
    case Paragraph(body) =>
      && NumberedMatch(t).None? && !BulletStart(t) && !StartsWith(t, "## ") && !Wrapped(t, g)
      && body == FormatInline(t, g)
  }

  function ClassifyTrimmed(t: string, g: Guard): (b: Block)
    ensures Classified(t, g, b)
  {
    match NumberedMatch(t)
    case Some(m) => Numbered(m.0, FormatInline(m.2, g))
    case None => ClassifyUnnumbered(t, g)
  }

  /** The forms after the numbered item, in their order. */
  function ClassifyUnnumbered(t: string, g: Guard): (b: Block)
    requires NumberedMatch(t).None?
    ensures Classified(t, g, b)
  {
    if BulletStart(t) then Bullet(FormatInline(t[2..], g))
    else if StartsWith(t, "## ") then
      assert t == t[..3] + t[3..];
      Heading(t[3..])
    else if Wrapped(t, g) then
      assert |t| >= 4 ==> t == t[..2] + t[2..|t| - 2] + t[|t| - 2..];
      BoldLine(Inner(t))
    else Paragraph(FormatInline(t, g))
  }

  /** With the corrected guards, what a line shows, with its markers written
      back, is the trimmed line; only the white space after a number's dot is
      not shown. */
  lemma {:induction false} LineReadsBack(line: string)
    requires !AllSpace(line)
    ensures var t := Trim(line);
            match ClassifyLine(line, Corrected).value
            case Numbered(n, b) => t == n + "." + NumberedMatch(t).value.1 + RestoreAll(b)
            case Bullet(b) => t == t[..2] + RestoreAll(b)
            case Heading(h) => t == "## " + h
            case BoldLine(x) => t == "**" + x + "**"
            case Paragraph(b) => t == RestoreAll(b)
  {
    var t := Trim(line);
    match ClassifyLine(line, Corrected).value {
      case Numbered(n, b) =>
      case Bullet(b) =>
        assert t == t[..2] + t[2..];
      case Heading(h) =>
      case BoldLine(x) =>
        assert |t| >= 4;
      case Paragraph(b) =>
    }
  }

  /** A numbered line is shown as a numbered item carrying its number and the
      formatted rest of the line. */
  lemma {:induction false} NumberedItemShown(n: string, w: string, rest: string, g: Guard)
    requires n != [] && AllDigits(n)
    requires w != [] && AllSpace(w)
    requires rest != [] && NoLineBreak(rest) && Trimmed(rest)
    ensures ClassifyLine(n + "." + w + rest, g) == Some(Numbered(n, FormatInline(rest, g)))
  {
    var t := n + "." + w + rest;
    assert t[0] == n[0] && t[|t| - 1] == rest[|rest| - 1];
    TrimOfTrimmed(t);
    NumberedMatchComplete(n, w, rest);
  }

  /** A line starting with `- ` is shown as a bullet carrying the formatted
      text after the marker. */
  lemma {:induction false} DashBulletShown(body: string, g: Guard)
    requires body != [] && Trimmed(body)
    ensures ClassifyLine("- " + body, g) == Some(Bullet(FormatInline(body, g)))
  {
    var t := "- " + body;
    assert t[0] == '-' && t[|t| - 1] == body[|body| - 1];
    TrimOfTrimmed(t);
    assert DigitRun(t, 0) == 0;
    assert t[..2] == "- " && t[2..] == body;
  }

  /** As written, a line that is only `**` passes the bold-line test and is
      shown as an empty bold line; corrected, it is a paragraph showing `**`. */
  lemma {:induction false} LoneMarkerLine()
    ensures ClassifyLine("**", AsWritten) == Some(BoldLine(""))
    ensures ClassifyLine("**", Corrected) == Some(Paragraph([Plain("**")]))
  {
    var t := "**";
    assert Trimmed(t);
    TrimOfTrimmed(t);
    assert DigitRun(t, 0) == 0;
    assert !BulletStart(t) && !StartsWith(t, "## ");
    LoneMarkersKeptCorrected();
  }

  /** `FormattedText`: the reply split at line feeds, each line classified;
      blank lines show nothing. */
  function FormattedText(text: string, g: Guard): (r: seq<Option<Block>>)
    ensures |r| == |Split(text, '\n')|
    ensures forall i :: 0 <= i < |r| ==> r[i] == ClassifyLine(Split(text, '\n')[i], g)
    ensures forall i :: 0 <= i < |r| ==> (r[i].None? <==> AllSpace(Split(text, '\n')[i]))
  {
    var lines := Split(text, '\n');
    seq(|lines|, i requires 0 <= i < |lines| => ClassifyLine(lines[i], g))
  }

  /** A reply is shown line by line: its first line, then the rest. */
  lemma {:induction false} FormattedTextCons(first: string, rest: string, g: Guard)
    requires '\n' !in first
    ensures FormattedText(first + "\n" + rest, g) == [ClassifyLine(first, g)] + FormattedText(rest, g)
  {
    SplitAtSeparator(first, rest, '\n');
    assert first + "\n" + rest == first + ['\n'] + rest;
  }

  /** A reply without line feeds is one line. */
  lemma {:induction false} FormattedTextOneLine(text: string, g: Guard)
    requires '\n' !in text
    ensures FormattedText(text, g) == [ClassifyLine(text, g)]
  {
    SplitNoSeparator(text, '\n');
  }

  // ---------------------------------------------------------------------------
  // The message list

  datatype Role = User | Assistant

  datatype Message = Message(role: Role, content: string)

  /** What the list shows when the request fails. */
  const Fallback := "Something went wrong. Try again."

  /** The state of the `Chat` component: its messages, the text being typed
      and whether an answer is awaited. */
  class ChatBox {
    var messages: seq<Message>
    var input: string
    var loading: bool

    /** Questions and answers alternate, each question trimmed and non-empty,
        and an answer is awaited exactly when the last message is a question. */
    predicate Valid()
      reads this
    {
      && (forall i :: 0 <= i < |messages| ==> messages[i].role == (if i % 2 == 0 then User else Assistant))
      && (forall i :: 0 <= i < |messages| && messages[i].role == User ==>
            messages[i].content != [] && Trimmed(messages[i].content))
      && (loading <==> |messages| % 2 == 1)
    }

    constructor ()
      ensures Valid()
      ensures messages == [] && input == "" && !loading
    {
      messages, input, loading := [], "", false;
    }

    /** `onChange` of the text box. */
    method Type(text: string)
      requires Valid()
      modifies this
      ensures Valid()
      ensures input == text && messages == old(messages) && loading == old(loading)
    {
      input := text;
    }

    /** The first half of `handleSubmit`: blank input, or a submission while an
        answer is awaited, changes nothing and sends nothing; otherwise the
        trimmed input is appended as a question, the box is cleared, and the
        messages sent are the earlier ones followed by the question. */
    method Submit() returns (sent: Option<seq<Message>>)
      requires Valid()
      modifies this
      ensures Valid()
      ensures AllSpace(old(input)) || old(loading) ==>
                sent.None? && messages == old(messages) && input == old(input) && loading == old(loading)
      ensures !AllSpace(old(input)) && !old(loading) ==>
                var question := Message(User, Trim(old(input)));
                && messages == old(messages) + [question]
                && input == "" && loading
                && sent == Some(old(messages) + [question])
    {
      if AllSpace(input) || loading {
        return None;
      }
      var question := Message(User, Trim(input));
      sent := Some(messages + [question]);
      input := "";
      messages := messages + [question];
      loading := true;
    }

    /** The second half of `handleSubmit`: exactly one answer is appended,
        the reply when there is one and the fallback text otherwise, and the
        box stops waiting. */
    method Receive(reply: Option<string>)
      requires Valid() && loading
      modifies this
      ensures Valid()
      ensures messages == old(messages) + [Message(Assistant, reply.GetOr(Fallback))]
      ensures !loading && input == old(input)
    {
      messages := messages + [Message(Assistant, reply.GetOr(Fallback))];
      loading := false;
    }
  }
}
