/** The progress view (src/components/processing-status.tsx): the stage text
    it shows, the "k of n" counter beside it, and the polling of the status
    route, which repeats every two seconds while the run is pending or
    processing and reports completion or failure once. */
module ProcessingStatus {
  import opened Wrappers
  import opened Text
  import opened Types

  // ---------------------------------------------------------------------------
  // formatStage

  /** Where a counter `(<digits>/<digits>)` starting at `j` ends, if one does.
      The digit runs are taken whole: a shorter run is followed by a digit,
      never by the `/` or `)` the pattern needs next. */
  function CounterEnd(s: string, j: nat): (r: Option<nat>)
    requires j <= |s|
    ensures r.Some? ==> j < r.value <= |s| && s[j] == '('
  {
    if j < |s| && s[j] == '(' then
      var d1 := DigitRun(s, j + 1);
      var k := j + 1 + d1;
      if d1 > 0 && k < |s| && s[k] == '/' then
        var d2 := DigitRun(s, k + 1);
        var e := k + 1 + d2;
        if d2 > 0 && e < |s| && s[e] == ')' then Some(e + 1) else None
      else None
    else None
  }

  /** `s.replace(/\s*\(\d+\/\d+\)\s*\/g, '')` from position `i`: the search
      goes left to right; where white space followed by a counter starts, the
      white space, the counter and the white space after it are dropped and
      the search resumes after them; elsewhere one character is kept. */
  function StripCounters(s: string, i: nat): (r: string)
    requires i <= |s|
    ensures |r| <= |s| - i
    decreases |s| - i
  {
    if i == |s| then []
    else
      var w := i + SpaceRun(s, i);
      match CounterEnd(s, w)
      case Some(e) => StripCounters(s, e + SpaceRun(s, e))
      case None => [s[i]] + StripCounters(s, i + 1)
  }

  /** `w` (in lower case) occurs at `i` of `s`, ignoring the case of ASCII letters. */
  predicate WordAt(s: string, w: string, i: nat) {
    i + |w| <= |s| && forall j :: 0 <= j < |w| ==> LowerChar(s[i + j]) == w[j]
  }

  /** `s.replace(/<w>/gi, spelling)` from position `i`. */
  function ReplaceWord(s: string, w: string, spelling: string, i: nat): (r: string)
    requires i <= |s| && w != []
    decreases |s| - i
  {
    if WordAt(s, w, i) then spelling + ReplaceWord(s, w, spelling, i + |w|)
    else if i < |s| then [s[i]] + ReplaceWord(s, w, spelling, i + 1)
    else []
  }

  /** The platform names written the way the view shows them. */
  function Recase(s: string): string {
    var t := ReplaceWord(s, "tiktok", "TikTok", 0);
    var y := ReplaceWord(t, "youtube", "YouTube", 0);
    ReplaceWord(y, "instagram", "Instagram", 0)
  }

  /** `formatStage`: a missing or empty stage reads "Processing"; one that
      mentions Claude in any case reads "Generating summary", which wins over
      a mention of "summary" ("Almost done"); any other stage loses its
      counters, is trimmed and has its platform names re-cased, so what is
      shown never has white space at either end. */
  function FormatStage(stage: Option<string>): (r: string)
    ensures stage.None? || stage == Some("") ==> r == "Processing"
    ensures stage.Some? && stage.value != "" && Contains(Lower(stage.value), "claude") ==> r == "Generating summary"
    ensures (stage.Some? && stage.value != "" && !Contains(Lower(stage.value), "claude") &&
             Contains(Lower(stage.value), "summary")) ==> r == "Almost done"
    ensures Trimmed(r)
  {
    if stage.None? || stage.value == "" then "Processing"
    else
      var lower := Lower(stage.value);
      if Contains(lower, "claude") then "Generating summary"
      else if Contains(lower, "summary") then "Almost done"
      else
        var cleaned := Trim(StripCounters(stage.value, 0));
        RecaseTrimmed(cleaned);
        Recase(cleaned)
  }

  // ---------------------------------------------------------------------------
  // Re-casing changes only the case of letters

  lemma {:induction false} LowerConcat(a: string, b: string)
    ensures Lower(a + b) == Lower(a) + Lower(b)
  {
    assert forall k :: 0 <= k < |a + b| ==> Lower(a + b)[k] == (Lower(a) + Lower(b))[k];
  }

  /** Replacing a word by a spelling of it in other letter case keeps the
      string the same up to the case of ASCII letters. */
  lemma {:induction false} ReplaceWordKeepsLower(s: string, w: string, spelling: string, i: nat)
    requires i <= |s| && w != [] && Lower(spelling) == w
    ensures Lower(ReplaceWord(s, w, spelling, i)) == Lower(s[i..])
    decreases |s| - i
  {
    if WordAt(s, w, i) {
      var e := i + |w|;
      var rest := ReplaceWord(s, w, spelling, e);
      calc {
        Lower(ReplaceWord(s, w, spelling, i));
        Lower(spelling + rest);
        { LowerConcat(spelling, rest); }
        w + Lower(rest);
        { ReplaceWordKeepsLower(s, w, spelling, e); assert Lower(s[i..e]) == w; }
        Lower(s[i..e]) + Lower(s[e..]);
        { LowerConcat(s[i..e], s[e..]); }
        Lower(s[i..e] + s[e..]);
        { assert s[i..] == s[i..e] + s[e..]; }
        Lower(s[i..]);
      }
    } else if i < |s| {
      var rest := ReplaceWord(s, w, spelling, i + 1);
      calc {
        Lower(ReplaceWord(s, w, spelling, i));
        Lower([s[i]] + rest);
        { LowerConcat([s[i]], rest); ReplaceWordKeepsLower(s, w, spelling, i + 1); }
        Lower([s[i]]) + Lower(s[i + 1..]);
        { LowerConcat([s[i]], s[i + 1..]); }
        Lower([s[i]] + s[i + 1..]);
        { assert s[i..] == [s[i]] + s[i + 1..]; }
        Lower(s[i..]);
      }
    }
  }

  /** The view's re-casing keeps the string up to the case of letters. */
  lemma {:induction false} RecaseKeepsLower(s: string)
    ensures Lower(Recase(s)) == Lower(s)
    ensures |Recase(s)| == |s|
  {
    var t := ReplaceWord(s, "tiktok", "TikTok", 0);
    var y := ReplaceWord(t, "youtube", "YouTube", 0);
    ReplaceWordKeepsLower(s, "tiktok", "TikTok", 0);
    ReplaceWordKeepsLower(t, "youtube", "YouTube", 0);
    ReplaceWordKeepsLower(y, "instagram", "Instagram", 0);
    assert s[0..] == s && t[0..] == t && y[0..] == y;
  }

  /** Characters equal up to case are white space alike. */
  lemma {:induction false} SpaceUpToCase(c: char, d: char)
    requires LowerChar(c) == LowerChar(d)
    ensures IsSpace(c) <==> IsSpace(d)
  {
  }

  lemma {:induction false} RecaseTrimmed(s: string)
    requires Trimmed(s)
    ensures Trimmed(Recase(s))
  {
    var r := Recase(s);
    RecaseKeepsLower(s);
    if r != [] {
      assert Lower(r)[0] == Lower(s)[0];
      SpaceUpToCase(r[0], s[0]);
      assert Lower(r)[|r| - 1] == Lower(s)[|s| - 1];
      SpaceUpToCase(r[|r| - 1], s[|s| - 1]);
    }
  }

  // ---------------------------------------------------------------------------
  // What happens to the counter in a stage

  /** Text without a `(` keeps every character. */
  lemma {:induction false} StripWithoutParen(s: string, i: nat)
    requires i <= |s|
    requires forall k :: i <= k < |s| ==> s[k] != '('
    ensures StripCounters(s, i) == s[i..]
    decreases |s| - i
  {
    if i < |s| {
      StripWithoutParen(s, i + 1);
      assert s[i..] == [s[i]] + s[i + 1..];
    }
  }

  /** Where no counter follows the white space at `i`, the character at `i` is kept. */
  lemma {:induction false} KeptAt(s: string, i: nat)
    requires i < |s| && CounterEnd(s, i + SpaceRun(s, i)).None?
    ensures StripCounters(s, i) == [s[i]] + StripCounters(s, i + 1)
  {
  }

  /** The white space at `i` ends before `a` when `s[a - 1]` is not white space. */
  lemma {:induction false} SpaceEndsBefore(s: string, a: nat, i: nat)
    requires i < a <= |s| && !IsSpace(s[a - 1])
    ensures i + SpaceRun(s, i) < a
  {
    SpaceRunFacts(s, i);
  }

  lemma {:induction false} NoCounterAt(s: string, a: nat, w: nat)
    requires w < a <= |s|
    requires forall k :: 0 <= k < a ==> s[k] != '('
    ensures CounterEnd(s, w).None?
  {
    assert s[w] != '(';
  }

  /** Before the counter, a character is kept when no `(` comes before and
      the text it is part of does not end in white space. */
  lemma {:induction false} StripStep(s: string, a: nat, i: nat)
    requires i < a <= |s|
    requires forall k :: 0 <= k < a ==> s[k] != '('
    requires !IsSpace(s[a - 1])
    ensures StripCounters(s, i) == [s[i]] + StripCounters(s, i + 1)
  {
    SpaceEndsBefore(s, a, i);
    NoCounterAt(s, a, i + SpaceRun(s, i));
    KeptAt(s, i);
  }

  /** Text without `(` that does not end in white space is kept whole, and
      the stripping goes on after it. */
  lemma {:induction false} StripKeepsText(s: string, a: nat, i: nat)
    requires i <= a <= |s|
    requires forall k :: 0 <= k < a ==> s[k] != '('
    requires a == 0 || !IsSpace(s[a - 1])
    ensures StripCounters(s, i) == s[i..a] + StripCounters(s, a)
    decreases a - i
  {
    if i < a {
      StripStep(s, a, i);
      StripKeepsText(s, a, i + 1);
      SliceCons(s, i, a);
      ConsAssoc(s[i], s[i + 1..a], StripCounters(s, a));
    }
  }

  /** The same text followed by what the stripping removes entirely. */
  lemma {:induction false} StripBeforeCounter(s: string, a: nat, i: nat)
    requires i <= a <= |s|
    requires forall k :: 0 <= k < a ==> s[k] != '('
    requires a == 0 || !IsSpace(s[a - 1])
    requires StripCounters(s, a) == []
    ensures StripCounters(s, i) == s[i..a]
  {
    StripKeepsText(s, a, i);
  }

  /** The digits of `NatToString(n)` at `i` of `s`, followed by `stop`. */
  lemma {:induction false} DigitsAt(s: string, i: nat, digits: string, stop: nat)
    requires digits != [] && forall k :: 0 <= k < |digits| ==> IsDigit(digits[k])
    requires stop == i + |digits| < |s| && s[i..stop] == digits && !IsDigit(s[stop])
    ensures DigitRun(s, i) == |digits|
  {
    DigitRunFacts(s, i);
  }

  /** A counter written by the pipeline is recognised to its end, whatever follows it. */
  lemma {:induction false} CounterOfDigits(s: string, j: nat, d1: string, d2: string)
    requires d1 != [] && forall k :: 0 <= k < |d1| ==> IsDigit(d1[k])
    requires d2 != [] && forall k :: 0 <= k < |d2| ==> IsDigit(d2[k])
    requires j + |d1| + |d2| + 3 <= |s| && s[j..j + |d1| + |d2| + 3] == "(" + d1 + "/" + d2 + ")"
    ensures CounterEnd(s, j) == Some(j + |d1| + |d2| + 3)
  {
    var k := j + 1 + |d1|;
    var e := k + 1 + |d2|;
    var c := s[j..e + 1];
    CounterParts(c, d1, d2);
    assert s[j] == c[0];
    SliceOfSlice(s, j, e + 1, 1, 1 + |d1|);
    assert s[k] == c[1 + |d1|];
    DigitsAt(s, j + 1, d1, k);
    SliceOfSlice(s, j, e + 1, 2 + |d1|, 2 + |d1| + |d2|);
    assert s[e] == c[2 + |d1| + |d2|];
    DigitsAt(s, k + 1, d2, e);
  }

  /** The parts of a counter, found where they were put. */
  lemma {:induction false} CounterParts(c: string, d1: string, d2: string)
    requires c == "(" + d1 + "/" + d2 + ")"
    ensures |c| == |d1| + |d2| + 3 && c[0] == '(' && c[1 + |d1|] == '/' && c[2 + |d1| + |d2|] == ')'
    ensures c[1..1 + |d1|] == d1 && c[2 + |d1|..2 + |d1| + |d2|] == d2
  {
    var x := "(" + d1;
    var y := x + "/";
    var z := y + d2;
    assert c == z + ")";
    assert c[..|z|] == z && z[..|y|] == y && y[..|x|] == x;
    assert z[|y|..] == d2 && x[1..] == d1;
  }

  /** Text, white space and a counter at the end: only the text is left. */
  lemma {:induction false} CounterRemoved(s: string, a: string, sp: string, d1: string, d2: string)
    requires '(' !in a && (a == [] || !IsSpace(a[|a| - 1]))
    requires AllSpace(sp)
    requires d1 != [] && forall k :: 0 <= k < |d1| ==> IsDigit(d1[k])
    requires d2 != [] && forall k :: 0 <= k < |d2| ==> IsDigit(d2[k])
    requires s == a + sp + "(" + d1 + "/" + d2 + ")"
    ensures StripCounters(s, 0) == a
  {
    ThreeParts(a, sp, "(" + d1 + "/" + d2 + ")", s);
    CounterRemovedAt(s, a, sp, d1, d2);
  }

  lemma {:induction false} CounterRemovedAt(s: string, a: string, sp: string, d1: string, d2: string)
    requires '(' !in a && (a == [] || !IsSpace(a[|a| - 1]))
    requires AllSpace(sp)
    requires d1 != [] && forall k :: 0 <= k < |d1| ==> IsDigit(d1[k])
    requires d2 != [] && forall k :: 0 <= k < |d2| ==> IsDigit(d2[k])
    requires |a| + |sp| <= |s|
    requires s[..|a|] == a && s[|a|..|a| + |sp|] == sp && s[|a| + |sp|..] == "(" + d1 + "/" + d2 + ")"
    ensures StripCounters(s, 0) == a
  {
    TextBeforeCounter(s, a);
    CounterAfterSpaces(s, |a|, sp, d1, d2);
    StripTextThenCounter(s, |a|);
  }

  lemma {:induction false} TextBeforeCounter(s: string, a: string)
    requires '(' !in a && (a == [] || !IsSpace(a[|a| - 1]))
    requires |a| <= |s| && s[..|a|] == a
    ensures forall k :: 0 <= k < |a| ==> s[k] != '('
    ensures a == [] || !IsSpace(s[|a| - 1])
  {
    forall k | 0 <= k < |a|
      ensures s[k] != '('
    {
      assert s[k] == a[k] && a[k] in a;
    }
    if a != [] {
      assert s[|a| - 1] == a[|a| - 1];
    }
  }

  lemma {:induction false} CounterAfterSpaces(s: string, i: nat, sp: string, d1: string, d2: string)
    requires AllSpace(sp)
    requires d1 != [] && forall k :: 0 <= k < |d1| ==> IsDigit(d1[k])
    requires d2 != [] && forall k :: 0 <= k < |d2| ==> IsDigit(d2[k])
    requires i + |sp| <= |s|
    requires s[i..i + |sp|] == sp && s[i + |sp|..] == "(" + d1 + "/" + d2 + ")"
    ensures i < |s| && CounterEnd(s, i + SpaceRun(s, i)) == Some(|s|)
  {
    var j := i + |sp|;
    assert s[j] == '(';
    SpacesBeforeCounter(s, i, sp);
    assert s[j..j + |d1| + |d2| + 3] == s[j..];
    CounterOfDigits(s, j, d1, d2);
  }

  lemma {:induction false} StripTextThenCounter(s: string, n: nat)
    requires n < |s|
    requires forall k :: 0 <= k < n ==> s[k] != '('
    requires n == 0 || !IsSpace(s[n - 1])
    requires CounterEnd(s, n + SpaceRun(s, n)) == Some(|s|)
    ensures StripCounters(s, 0) == s[..n]
  {
    CounterLast(s, n);
    StripBeforeCounter(s, n, 0);
  }

  lemma {:induction false} ThreeParts(a: string, b: string, c: string, s: string)
    requires s == a + b + c
    ensures s[..|a|] == a && s[|a|..|a| + |b|] == b && s[|a| + |b|..] == c
  {
  }

  /** White space right before a `(` is all of the run. */
  lemma {:induction false} SpacesBeforeCounter(s: string, i: nat, sp: string)
    requires i + |sp| < |s| && s[i..i + |sp|] == sp && AllSpace(sp) && s[i + |sp|] == '('
    ensures SpaceRun(s, i) == |sp|
  {
    SpaceRunFacts(s, i);
  }

  /** A counter that ends the string, with the white space before it, leaves nothing. */
  lemma {:induction false} CounterLast(s: string, i: nat)
    requires i < |s| && CounterEnd(s, i + SpaceRun(s, i)) == Some(|s|)
    ensures StripCounters(s, i) == []
  {
    assert SpaceRun(s, |s|) == 0;
  }

  /** Where a counter follows the white space at `i`, the stripping resumes
      after the counter and the white space after it. */
  lemma {:induction false} StripAfterCounter(s: string, i: nat, e: nat)
    requires i < |s| && CounterEnd(s, i + SpaceRun(s, i)) == Some(e)
    ensures StripCounters(s, i) == StripCounters(s, e + SpaceRun(s, e))
  {
  }

  /** A counter inside a stage goes with the white space on both sides of it:
      text before it without `(` that does not end in white space is kept,
      and the stripping goes on after the white space that follows it. */
  lemma {:induction false} CounterInsideRemoved(s: string, i: nat, j: nat, e: nat, f: nat)
    requires i <= j < e <= f <= |s|
    requires forall k :: 0 <= k < i ==> s[k] != '('
    requires i == 0 || !IsSpace(s[i - 1])
    requires forall k :: i <= k < j ==> IsSpace(s[k])
    requires CounterEnd(s, j) == Some(e)
    requires forall k :: e <= k < f ==> IsSpace(s[k])
    requires f == |s| || !IsSpace(s[f])
    ensures StripCounters(s, 0) == s[..i] + StripCounters(s, f)
  {
    RunOfSpaces(s, i, j);
    RunOfSpaces(s, e, f);
    StripAroundCounter(s, i, e, f);
  }

  /** White space from `i` to a character that is not white space (or the end) is the whole run. */
  lemma {:induction false} RunOfSpaces(s: string, i: nat, j: nat)
    requires i <= j <= |s| && forall k :: i <= k < j ==> IsSpace(s[k])
    requires j == |s| || !IsSpace(s[j])
    ensures SpaceRun(s, i) == j - i
    decreases j - i
  {
    if i < j {
      RunOfSpaces(s, i + 1, j);
    }
  }

  /** Text without `(` that does not end in white space, then a counter with
      the white space around it: the text is kept and the stripping resumes
      after the white space that follows the counter. */
  lemma {:induction false} StripAroundCounter(s: string, i: nat, e: nat, f: nat)
    requires i < |s| && forall k :: 0 <= k < i ==> s[k] != '('
    requires i == 0 || !IsSpace(s[i - 1])
    requires CounterEnd(s, i + SpaceRun(s, i)) == Some(e) && f == e + SpaceRun(s, e)
    ensures StripCounters(s, 0) == s[..i] + StripCounters(s, f)
  {
    StripKeepsPrefix(s, i);
    StripAfterCounter(s, i, e);
  }

  lemma {:induction false} StripKeepsPrefix(s: string, a: nat)
    requires a <= |s| && forall k :: 0 <= k < a ==> s[k] != '('
    requires a == 0 || !IsSpace(s[a - 1])
    ensures StripCounters(s, 0) == s[..a] + StripCounters(s, a)
  {
    StripKeepsText(s, a, 0);
    assert s[0..a] == s[..a];
  }

  /** A counter between two words goes with both spaces. */
  lemma {:induction false} CounterBetweenWords()
    ensures StripCounters("a (1/2) b", 0) == "ab"
  {
    var s := "a (1/2) b";
    assert s[2..7] == "(" + "1" + "/" + "2" + ")";
    CounterOfDigits(s, 2, "1", "2");
    CounterInsideRemoved(s, 1, 2, 7, 8);
    StripWithoutParen(s, 8);
    assert s[..1] == "a" && s[8..] == "b";
  }

  // ---------------------------------------------------------------------------
  // Words that are not there, and a word that is there once

  /** A word one of whose letters `s` lacks (in either case) is not in `s`. */
  lemma {:induction false} AbsentLetter(s: string, w: string, j: nat)
    requires j < |w| && forall k :: 0 <= k < |s| ==> LowerChar(s[k]) != w[j]
    ensures !Contains(Lower(s), w)
  {
    forall i | 0 <= i <= |s| - |w|
      ensures !OccursAt(Lower(s), w, i)
    {
      assert Lower(s)[i..i + |w|][j] != w[j];
    }
  }

  /** A word whose letter `j` stands only at `p` in `s` is not in `s` when
      the first letter does not fit there. */
  lemma {:induction false} LetterOnlyAt(s: string, w: string, j: nat, p: nat)
    requires 0 < j < |w| && forall k :: 0 <= k < |s| && LowerChar(s[k]) == w[j] ==> k == p
    requires j <= p < |s| && LowerChar(s[p - j]) != w[0]
    ensures !Contains(Lower(s), w)
  {
    forall i | 0 <= i <= |s| - |w|
      ensures !OccursAt(Lower(s), w, i)
    {
      if i + j == p {
        assert Lower(s)[i..i + |w|][0] != w[0];
      } else {
        assert Lower(s)[i..i + |w|][j] != w[j];
      }
    }
  }

  /** Replacing a word one of whose letters is absent changes nothing. */
  lemma {:induction false} ReplaceAbsent(s: string, w: string, spelling: string, i: nat, j: nat)
    requires i <= |s| && j < |w| && forall k :: i <= k < |s| ==> LowerChar(s[k]) != w[j]
    ensures ReplaceWord(s, w, spelling, i) == s[i..]
    decreases |s| - i
  {
    if i < |s| {
      ReplaceAbsent(s, w, spelling, i + 1, j);
      assert s[i..] == [s[i]] + s[i + 1..];
    }
  }

  /** Before a point, characters that cannot start the word are kept. */
  lemma {:induction false} ReplaceKeepsPrefix(s: string, w: string, spelling: string, p: nat, i: nat, tail: string)
    requires i <= p <= |s| && w != [] && ReplaceWord(s, w, spelling, p) == tail
    requires forall k :: i <= k < p ==> LowerChar(s[k]) != w[0]
    ensures ReplaceWord(s, w, spelling, i) == s[i..p] + tail
    decreases p - i
  {
    if i < p {
      ReplaceStep(s, w, spelling, i);
      ReplaceKeepsPrefix(s, w, spelling, p, i + 1, tail);
      ConsAssoc(s[i], s[i + 1..p], tail);
      assert s[i..p] == [s[i]] + s[i + 1..p];
    }
  }

  lemma {:induction false} ReplaceStep(s: string, w: string, spelling: string, i: nat)
    requires i < |s| && w != [] && LowerChar(s[i]) != w[0]
    ensures ReplaceWord(s, w, spelling, i) == [s[i]] + ReplaceWord(s, w, spelling, i + 1)
  {
    assert !WordAt(s, w, i);
  }

  lemma {:induction false} ConsAssoc(c: char, m: string, t: string)
    ensures [c] + (m + t) == ([c] + m) + t
  {
  }

  /** A word that occurs once, whose first letter stands nowhere else, is
      replaced there and nowhere else. */
  lemma {:induction false} ReplaceOnce(s: string, w: string, spelling: string, p: nat)
    requires w != [] && WordAt(s, w, p)
    requires forall k :: 0 <= k < |s| && k != p ==> LowerChar(s[k]) != w[0]
    ensures ReplaceWord(s, w, spelling, 0) == s[..p] + spelling + s[p + |w|..]
  {
    var e := p + |w|;
    ReplaceAbsent(s, w, spelling, e, 0);
    var tail := spelling + s[e..];
    ReplaceKeepsPrefix(s, w, spelling, p, 0, tail);
  }

  // ---------------------------------------------------------------------------
  // Every occurrence of a platform name, in any case, is re-spelled

  /** Every occurrence of `w` in `s`, in any case, is written `spelling`. */
  ghost predicate Spelled(s: string, w: string, spelling: string) {
    forall k: nat :: WordAt(s, w, k) ==> s[k..k + |w|] == spelling
  }

  /** The same, for occurrences that start at `i` or later. */
  ghost predicate SpelledFrom(s: string, i: nat, w: string, spelling: string) {
    forall k: nat :: i <= k && WordAt(s, w, k) ==> s[k..k + |w|] == spelling
  }

  /** Letter `d` of `w` on starts `v`, as far as the two go. */
  predicate Agree(w: string, d: nat, v: string) {
    forall j :: 0 <= j < |v| && d + j < |w| ==> w[d + j] == v[j]
  }

  /** No occurrence of `v` starts inside an occurrence of `w`, at its first
      letter or later. */
  predicate Apart(w: string, v: string) {
    forall d :: 0 <= d < |w| ==> !Agree(w, d, v)
  }

  /** Two occurrences of `w` never overlap. */
  predicate NoSelfOverlap(w: string) {
    forall d :: 0 < d < |w| ==> !Agree(w, d, w)
  }

  lemma {:induction false} ReplaceWordLength(s: string, w: string, spelling: string, i: nat)
    requires i <= |s| && w != [] && Lower(spelling) == w
    ensures |ReplaceWord(s, w, spelling, i)| == |s| - i
  {
    ReplaceWordKeepsLower(s, w, spelling, i);
  }

  /** After the replacement, every occurrence of the word is its spelling,
      provided that two occurrences of the word cannot overlap. */
  lemma {:induction false} ReplaceWordSpells(s: string, w: string, spelling: string, i: nat)
    requires i <= |s| && w != [] && Lower(spelling) == w && NoSelfOverlap(w)
    ensures Spelled(ReplaceWord(s, w, spelling, i), w, spelling)
    decreases |s| - i
  {
    var r := ReplaceWord(s, w, spelling, i);
    if WordAt(s, w, i) {
      var rest := ReplaceWord(s, w, spelling, i + |w|);
      ReplacedAt(s, w, spelling, i);
      ReplaceWordSpells(s, w, spelling, i + |w|);
      SpelledAfterSpelling(r, rest, w, spelling);
    } else if i < |s| {
      var rest := ReplaceWord(s, w, spelling, i + 1);
      KeptBefore(s, w, spelling, i);
      ReplaceWordSpells(s, w, spelling, i + 1);
      OccurrenceCarriedBack(s, w, spelling, i, w, 0);
      SpelledAfterKept(r, rest, w, spelling);
    } else {
      assert r == [];
    }
  }

  /** Where the word stands, it is replaced by its spelling. */
  lemma {:induction false} ReplacedAt(s: string, w: string, spelling: string, i: nat)
    requires i <= |s| && w != [] && WordAt(s, w, i)
    ensures ReplaceWord(s, w, spelling, i) == spelling + ReplaceWord(s, w, spelling, i + |w|)
  {
  }

  /** Where it does not, the character is kept. */
  lemma {:induction false} KeptBefore(s: string, w: string, spelling: string, i: nat)
    requires i < |s| && w != [] && !WordAt(s, w, i)
    ensures ReplaceWord(s, w, spelling, i) == [s[i]] + ReplaceWord(s, w, spelling, i + 1)
    ensures ReplaceWord(s, w, spelling, i)[1..] == ReplaceWord(s, w, spelling, i + 1)
  {
    assert ([s[i]] + ReplaceWord(s, w, spelling, i + 1))[1..] == ReplaceWord(s, w, spelling, i + 1);
  }

  lemma {:induction false} SpelledAfterSpelling(r: string, rest: string, w: string, spelling: string)
    requires r == spelling + rest && Lower(spelling) == w && NoSelfOverlap(w)
    requires Spelled(rest, w, spelling)
    ensures Spelled(r, w, spelling)
  {
    assert r[..|w|] == spelling && r[|w|..] == rest;
    NothingInsideSpelling(r, w, spelling);
    forall k: nat | WordAt(r, w, k)
      ensures r[k..k + |w|] == spelling
    {
      if k != 0 {
        WordAtLater(r, rest, w, |w|, k);
      }
    }
  }

  lemma {:induction false} SpelledAfterKept(r: string, rest: string, w: string, spelling: string)
    requires |r| == |rest| + 1 && r[1..] == rest && !WordAt(r, w, 0)
    requires Spelled(rest, w, spelling)
    ensures Spelled(r, w, spelling)
  {
    forall k: nat | WordAt(r, w, k)
      ensures r[k..k + |w|] == spelling
    {
      WordAtLater(r, rest, w, 1, k);
    }
  }

  /** The replacement changes only letter case, so an occurrence of any word
      at a place of the replaced text is one at the same place of `s`. */
  lemma {:induction false} OccurrenceCarriedBack(s: string, w: string, spelling: string, i: nat, v: string, k: nat)
    requires i <= |s| && w != [] && Lower(spelling) == w
    ensures WordAt(ReplaceWord(s, w, spelling, i), v, k) ==> WordAt(s, v, i + k)
  {
    var r := ReplaceWord(s, w, spelling, i);
    ReplaceWordKeepsLower(s, w, spelling, i);
    forall j | 0 <= j < |v|
      ensures WordAt(r, v, k) ==> i + k + |v| <= |s| && LowerChar(s[i + k + j]) == v[j]
    {
      if k + j < |r| {
        assert Lower(r)[k + j] == Lower(s[i..])[k + j];
      }
    }
  }

  /** No occurrence of `w` starts inside a spelling of it. */
  lemma {:induction false} NothingInsideSpelling(r: string, w: string, spelling: string)
    requires |w| <= |r| && r[..|w|] == spelling && Lower(spelling) == w && NoSelfOverlap(w)
    ensures forall k :: 0 < k < |w| ==> !WordAt(r, w, k)
  {
    forall k | 0 < k < |w|
      ensures WordAt(r, w, k) ==> Agree(w, k, w)
    {
      forall j | 0 <= j < |w| && k + j < |w|
        ensures WordAt(r, w, k) ==> w[k + j] == w[j]
      {
        assert r[k + j] == spelling[k + j];
      }
    }
  }

  /** Replacing `w` keeps the spelling of a word `v` that cannot overlap it. */
  lemma {:induction false} ReplaceKeepsSpelled(s: string, w: string, spelling: string, i: nat, v: string, sv: string)
    requires i <= |s| && w != [] && v != [] && Lower(spelling) == w
    requires Apart(w, v) && Apart(v, w)
    requires SpelledFrom(s, i, v, sv)
    ensures Spelled(ReplaceWord(s, w, spelling, i), v, sv)
    decreases |s| - i
  {
    var r := ReplaceWord(s, w, spelling, i);
    if WordAt(s, w, i) {
      var rest := ReplaceWord(s, w, spelling, i + |w|);
      ReplacedAt(s, w, spelling, i);
      ReplaceKeepsSpelled(s, w, spelling, i + |w|, v, sv);
      KeptAfterSpelling(r, rest, w, spelling, v, sv);
    } else if i < |s| {
      var rest := ReplaceWord(s, w, spelling, i + 1);
      KeptBefore(s, w, spelling, i);
      ReplaceKeepsSpelled(s, w, spelling, i + 1, v, sv);
      forall k: nat | WordAt(r, v, k)
        ensures r[k..k + |v|] == sv
      {
        if k == 0 {
          KeptOccurrence(s, w, spelling, i, v, sv);
        } else {
          WordAtLater(r, rest, v, 1, k);
        }
      }
    } else {
      assert r == [];
    }
  }

  lemma {:induction false} KeptAfterSpelling(r: string, rest: string, w: string, spelling: string, v: string, sv: string)
    requires r == spelling + rest && Lower(spelling) == w && Apart(w, v)
    requires Spelled(rest, v, sv)
    ensures Spelled(r, v, sv)
  {
    assert r[..|w|] == spelling && r[|w|..] == rest;
    NoneInsideSpelling(r, w, spelling, v);
    forall k: nat | WordAt(r, v, k)
      ensures r[k..k + |v|] == sv
    {
      WordAtLater(r, rest, v, |w|, k);
    }
  }

  /** No occurrence of `v` starts inside a spelling of a word it cannot overlap. */
  lemma {:induction false} NoneInsideSpelling(r: string, w: string, spelling: string, v: string)
    requires |w| <= |r| && r[..|w|] == spelling && Lower(spelling) == w && Apart(w, v)
    ensures forall k :: 0 <= k < |w| ==> !WordAt(r, v, k)
  {
    forall k | 0 <= k < |w|
      ensures WordAt(r, v, k) ==> Agree(w, k, v)
    {
      forall j | 0 <= j < |v| && k + j < |w|
        ensures WordAt(r, v, k) ==> w[k + j] == v[j]
      {
        assert r[k + j] == spelling[k + j];
      }
    }
  }

  /** An occurrence of `v` at the start of the replaced text, where `w`
      cannot start inside it, is the one in `s`, kept as it was. */
  lemma {:induction false} KeptOccurrence(s: string, w: string, spelling: string, i: nat, v: string, sv: string)
    requires i <= |s| && w != [] && v != [] && Lower(spelling) == w && Apart(v, w)
    requires SpelledFrom(s, i, v, sv)
    requires WordAt(ReplaceWord(s, w, spelling, i), v, 0)
    ensures ReplaceWord(s, w, spelling, i)[..|v|] == sv
  {
    OccurrenceCarriedBack(s, w, spelling, i, v, 0);
    forall b | i <= b < i + |v|
      ensures WordAt(s, w, b) ==> Agree(v, b - i, w)
    {
      forall j | 0 <= j < |w| && b - i + j < |v|
        ensures WordAt(s, w, b) ==> v[b - i + j] == w[j]
      {
      }
    }
    ReplaceKeeps(s, w, spelling, i, |v|);
  }

  /** Where the word does not start, the replacement copies the text. */
  lemma {:induction false} ReplaceKeeps(s: string, w: string, spelling: string, i: nat, m: nat)
    requires i + m <= |s| && w != [] && Lower(spelling) == w
    requires forall b :: i <= b < i + m ==> !WordAt(s, w, b)
    ensures m <= |ReplaceWord(s, w, spelling, i)| && ReplaceWord(s, w, spelling, i)[..m] == s[i..i + m]
    decreases m
  {
    ReplaceWordLength(s, w, spelling, i);
    if m > 0 {
      var rest := ReplaceWord(s, w, spelling, i + 1);
      KeptBefore(s, w, spelling, i);
      ReplaceKeeps(s, w, spelling, i + 1, m - 1);
      assert ReplaceWord(s, w, spelling, i)[..m] == [s[i]] + rest[..m - 1];
      SliceCons(s, i, i + m);
    }
  }

  /** An occurrence past a prefix of `r` is one in the rest of `r`. */
  lemma {:induction false} WordAtLater(r: string, rest: string, w: string, n: nat, k: nat)
    requires n <= k && n <= |r| && rest == r[n..] && WordAt(r, w, k)
    ensures WordAt(rest, w, k - n)
    ensures rest[k - n..k - n + |w|] == r[k..k + |w|]
  {
    forall j | 0 <= j < |w|
      ensures LowerChar(rest[k - n + j]) == w[j]
    {
      assert rest[k - n + j] == r[k + j];
    }
  }

  /** After re-casing, every occurrence of each platform name, in any case,
      is written the way the view shows it. */
  lemma {:induction false} RecaseSpells(s: string)
    ensures Spelled(Recase(s), "tiktok", "TikTok")
    ensures Spelled(Recase(s), "youtube", "YouTube")
    ensures Spelled(Recase(s), "instagram", "Instagram")
  {
    var t := ReplaceWord(s, "tiktok", "TikTok", 0);
    var y := ReplaceWord(t, "youtube", "YouTube", 0);
    PlatformNamesApart();
    ReplaceWordSpells(s, "tiktok", "TikTok", 0);
    ReplaceWordSpells(t, "youtube", "YouTube", 0);
    ReplaceKeepsSpelled(t, "youtube", "YouTube", 0, "tiktok", "TikTok");
    ReplaceWordSpells(y, "instagram", "Instagram", 0);
    ReplaceKeepsSpelled(y, "instagram", "Instagram", 0, "tiktok", "TikTok");
    ReplaceKeepsSpelled(y, "instagram", "Instagram", 0, "youtube", "YouTube");
  }

  /** A stage shown after cleaning has every platform name it mentions, in
      any case, written the way the view shows it. */
  lemma {:induction false} FormatStageSpells(stage: string)
    requires stage != [] && !Contains(Lower(stage), "claude") && !Contains(Lower(stage), "summary")
    ensures Spelled(FormatStage(Some(stage)), "tiktok", "TikTok")
    ensures Spelled(FormatStage(Some(stage)), "youtube", "YouTube")
    ensures Spelled(FormatStage(Some(stage)), "instagram", "Instagram")
  {
    RecaseSpells(Trim(StripCounters(stage, 0)));
  }

  /** No two occurrences of the platform names overlap. */
  lemma {:induction false} PlatformNamesApart()
    ensures NoSelfOverlap("tiktok") && NoSelfOverlap("youtube") && NoSelfOverlap("instagram")
    ensures Apart("tiktok", "youtube") && Apart("youtube", "tiktok")
    ensures Apart("tiktok", "instagram") && Apart("instagram", "tiktok")
    ensures Apart("youtube", "instagram") && Apart("instagram", "youtube")
  {
    var t, y, n := "tiktok", "youtube", "instagram";
    forall d | 0 < d < |t| ensures !Agree(t, d, t) {
      if d == 3 { Differ(t, d, t, 1); } else { Differ(t, d, t, 0); }
    }
    forall d | 0 < d < |y| ensures !Agree(y, d, y) { Differ(y, d, y, 0); }
    forall d | 0 < d < |n| ensures !Agree(n, d, n) { Differ(n, d, n, 0); }
    forall d | 0 <= d < |t| ensures !Agree(t, d, y) { Differ(t, d, y, 0); }
    forall d | 0 <= d < |y| ensures !Agree(y, d, t) {
      if d == 3 { Differ(y, d, t, 1); } else { Differ(y, d, t, 0); }
    }
    forall d | 0 <= d < |t| ensures !Agree(t, d, n) {
      if d == 1 { Differ(t, d, n, 1); } else { Differ(t, d, n, 0); }
    }
    forall d | 0 <= d < |n| ensures !Agree(n, d, t) {
      if d == 3 { Differ(n, d, t, 1); } else { Differ(n, d, t, 0); }
    }
    forall d | 0 <= d < |y| ensures !Agree(y, d, n) { Differ(y, d, n, 0); }
    forall d | 0 <= d < |n| ensures !Agree(n, d, y) { Differ(n, d, y, 0); }
  }

  /** A letter where the two words differ. */
  lemma {:induction false} Differ(w: string, d: nat, v: string, j: nat)
    requires j < |v| && d + j < |w| && w[d + j] != v[j]
    ensures !Agree(w, d, v)
  {
  }

  // ---------------------------------------------------------------------------
  // The stages the pipeline writes, as shown

  /** The transcription stage of a YouTube URL loses its counter and has the
      platform name re-cased. */
  lemma {:induction false} TranscribingYouTubeShown()
    ensures FormatStage(Some("Transcribing youtube (2/3)")) == "Transcribing YouTube"
  {
    var s := "Transcribing youtube (2/3)";
    var a := "Transcribing youtube";
    ExampleWithoutMentions(s);
    assert s == a + " " + "(" + "2" + "/" + "3" + ")";
    CounterRemoved(s, a, " ", "2", "3");
    assert Trimmed(a);
    TrimOfTrimmed(a);
    RecaseExample();
  }

  lemma {:induction false} ExampleWithoutMentions(s: string)
    requires s == "Transcribing youtube (2/3)"
    ensures !Contains(Lower(s), "claude") && !Contains(Lower(s), "summary")
  {
    AbsentLetter(s, "claude", 1);
    LetterOnlyAt(s, "summary", 6, 13);
  }

  lemma {:induction false} RecaseExample()
    ensures Recase("Transcribing youtube") == "Transcribing YouTube"
  {
    NoTikTokInExample();
    YouTubeInExample();
    NoInstagramInExample();
  }

  lemma {:induction false} NoTikTokInExample()
    ensures ReplaceWord("Transcribing youtube", "tiktok", "TikTok", 0) == "Transcribing youtube"
  {
    var a := "Transcribing youtube";
    ReplaceAbsent(a, "tiktok", "TikTok", 0, 2);
    assert a[0..] == a;
  }

  lemma {:induction false} YouTubeInExample()
    ensures ReplaceWord("Transcribing youtube", "youtube", "YouTube", 0) == "Transcribing YouTube"
  {
    var a := "Transcribing youtube";
    YouTubeOnceInExample(a);
    ReplaceOnce(a, "youtube", "YouTube", 13);
    YouTubeSpliced(a);
  }

  lemma {:induction false} YouTubeOnceInExample(a: string)
    requires a == "Transcribing youtube"
    ensures WordAt(a, "youtube", 13)
    ensures forall k :: 0 <= k < |a| && k != 13 ==> LowerChar(a[k]) != "youtube"[0]
  {
  }

  lemma {:induction false} YouTubeSpliced(a: string)
    requires a == "Transcribing youtube"
    ensures a[..13] + "YouTube" + a[20..] == "Transcribing YouTube"
  {
  }

  lemma {:induction false} NoInstagramInExample()
    ensures ReplaceWord("Transcribing YouTube", "instagram", "Instagram", 0) == "Transcribing YouTube"
  {
    var y := "Transcribing YouTube";
    ReplaceAbsent(y, "instagram", "Instagram", 0, 8);
    assert y[0..] == y;
  }

  /** A letter of `w` missing from `s`, in either case. */
  predicate Lacks(s: string, w: string, j: nat) {
    j < |w| && forall k :: 0 <= k < |s| ==> LowerChar(s[k]) != w[j]
  }

  /** A stage without counters, surrounding white space or any of the words
      the view looks for is shown as it is. */
  lemma {:induction false} ShownAsIs(s: string, jc: nat, js: nat, jt: nat, jy: nat, ji: nat)
    requires s != [] && Trimmed(s) && forall k :: 0 <= k < |s| ==> s[k] != '('
    requires Lacks(s, "claude", jc) && Lacks(s, "summary", js)
    requires Lacks(s, "tiktok", jt) && Lacks(s, "youtube", jy) && Lacks(s, "instagram", ji)
    ensures FormatStage(Some(s)) == s
  {
    AbsentLetter(s, "claude", jc);
    AbsentLetter(s, "summary", js);
    CleanedAsIs(s);
    RecaseAsIs(s, jt, jy, ji);
  }

  lemma {:induction false} CleanedAsIs(s: string)
    requires Trimmed(s) && forall k :: 0 <= k < |s| ==> s[k] != '('
    ensures Trim(StripCounters(s, 0)) == s
  {
    StripWithoutParen(s, 0);
    assert s[0..] == s;
    TrimOfTrimmed(s);
  }

  lemma {:induction false} RecaseAsIs(s: string, jt: nat, jy: nat, ji: nat)
    requires Lacks(s, "tiktok", jt) && Lacks(s, "youtube", jy) && Lacks(s, "instagram", ji)
    ensures Recase(s) == s
  {
    ReplaceAbsent(s, "tiktok", "TikTok", 0, jt);
    ReplaceAbsent(s, "youtube", "YouTube", 0, jy);
    ReplaceAbsent(s, "instagram", "Instagram", 0, ji);
    assert s[0..] == s;
  }

  /** The first stage of a run is shown as written. */
  lemma {:induction false} StartStageShown()
    ensures FormatStage(Some("Starting transcription")) == "Starting transcription"
  {
    var s := "Starting transcription";
    StartStageLacksWords(s);
    StartStageLacksPlatforms(s);
    ShownAsIs(s, 1, 6, 2, 0, 8);
  }

  /** No `l` and no `y`: the first stage names neither Claude nor a summary. */
  lemma StartStageLacksWords(s: string)
    requires s == "Starting transcription"
    ensures Lacks(s, "claude", 1) && Lacks(s, "summary", 6)
  {
  }

  /** No `k`, no `y` and no `m`: the first stage names none of the platforms. */
  lemma StartStageLacksPlatforms(s: string)
    requires s == "Starting transcription"
    ensures Lacks(s, "tiktok", 2) && Lacks(s, "youtube", 0) && Lacks(s, "instagram", 8)
  {
  }

  /** The last stage of a run is shown as written. */
  lemma {:induction false} CompleteStageShown()
    ensures FormatStage(Some("Complete")) == "Complete"
  {
    var s := "Complete";
    assert Lacks(s, "claude", 2) && Lacks(s, "summary", 6);
    assert Lacks(s, "tiktok", 2) && Lacks(s, "youtube", 0) && Lacks(s, "instagram", 4);
    ShownAsIs(s, 2, 6, 2, 0, 4);
  }

  /** The summarising stage names Claude, so it is shown as "Generating summary". */
  lemma {:induction false} SummaryStageShown()
    ensures FormatStage(Some("Generating summary with Claude")) == "Generating summary"
  {
    var s := "Generating summary with Claude";
    ClaudeAtEnd(s);
  }

  lemma {:induction false} ClaudeAtEnd(s: string)
    requires s == "Generating summary with Claude"
    ensures Contains(Lower(s), "claude")
  {
    assert forall j :: 0 <= j < 6 ==> Lower(s)[24..30][j] == "claude"[j];
    assert OccursAt(Lower(s), "claude", 24);
  }

  // ---------------------------------------------------------------------------
  // The "k of n" counter

  /** The two numbers of the counter, when it is shown: `progress?.current ?? 0`
      and `progress?.total ?? 1`, shown only for a total above one, with the
      position capped at the total. */
  function CounterNumbers(progress: Option<Progress>): (r: Option<(nat, nat)>)
    ensures r.Some? <==> progress.Some? && progress.value.total > 1
    ensures r.Some? ==> 1 <= r.value.0 <= r.value.1 == progress.value.total
    ensures r.Some? ==> r.value.0 == progress.value.current + 1 || r.value.0 == progress.value.total
    ensures r.Some? ==> r.value.0 <= progress.value.current + 1
  {
    var current := if progress.Some? then progress.value.current else 0;
    var total := if progress.Some? then progress.value.total else 1;
    if total > 1 then Some((if current + 1 < total then current + 1 else total, total)) else None
  }

  /** The text after the stage: ` · <k> of <n>`, or nothing. */
  function CounterText(progress: Option<Progress>): (r: string)
    ensures r == "" <==> CounterNumbers(progress).None?
  {
    match CounterNumbers(progress)
    case None => ""
    case Some((k, n)) => " · " + NatToString(k) + " of " + NatToString(n)
  }

  /** The counter reads back as the numbers it shows. */
  lemma {:induction false} CounterReadsBack(progress: Option<Progress>, k: nat, n: nat)
    requires CounterNumbers(progress) == Some((k, n))
    ensures var t := CounterText(progress);
            var a := NatToString(k);
            t[3..3 + |a|] == a && DigitsValue(a) == k &&
            t[3 + |a| + 4..] == NatToString(n) && DigitsValue(NatToString(n)) == n
  {
    NatToStringValue(k);
    NatToStringValue(n);
  }

  // ---------------------------------------------------------------------------
  // Polling

  /** What `GET /api/status/<id>` answers (the `StatusResponse` record). */
  datatype StatusResult = StatusResult(
    topicName: string,
    notionPageUrl: string,
    summary: SummaryResult,
    urls: seq<string>,
    transcripts: seq<TranscriptResult>)

  datatype StatusResponse = StatusResponse(
    status: Status,
    progress: Option<Progress>,
    error: Option<string>,
    result: Option<StatusResult>)

  /** One poll as the view sees it: the HTTP status and the parsed body (or
      what parsing threw), or what `fetch` threw. */
  datatype PollReply = Response(code: int, body: Try<StatusResponse>) | FetchThrew(thrown: Thrown)

  /** What one poll does: the status it stores (`setStatus`), the error it
      stores and reports (`setError` and `onError`), the result it hands to
      `onComplete`, and whether it schedules the next poll. */
  datatype Effect = Effect(
    shown: Option<StatusResponse>,
    error: Option<string>,
    completed: Option<StatusResult>,
    pollAgain: bool)

  const Quiet: Effect := Effect(None, None, None, false)
  const NotFoundMessage: string := "Session not found. The server may have restarted. Please go back and try again."
  const FetchFailedMessage: string := "Failed to fetch status"
  const DefaultFailure: string := "Processing failed"

  /** `data.error || "Processing failed"`: an absent or empty error gives the default. */
  function FailureMessage(error: Option<string>): (m: string)
    ensures m != ""
    ensures error.Some? && error.value != "" ==> m == error.value
  {
    if error.Some? && error.value != "" then error.value else DefaultFailure
  }

  /** A thrown value caught by `pollStatus`: nothing once unmounted, else it
      is stored and reported. */
  function Caught(mounted: bool, t: Thrown): Effect {
    if mounted then Effect(None, Some(MessageOf(t)), None, false) else Quiet
  }

  /** The handling of one reply by `pollStatus`. Unmounted, nothing happens.
      Mounted, a 404 and any other failed response are errors; a parsed body
      is stored, and then completes the view, fails it, or schedules the next
      poll, by its status, with at most one of the three. */
  function Decide(mounted: bool, reply: PollReply): (r: Effect)
    ensures !mounted ==> r == Quiet
    ensures mounted ==> r.shown.Some? || r.error.Some?
    ensures r.shown.Some? ==> reply.Response? && 200 <= reply.code <= 299 && reply.body == Ok(r.shown.value)
    ensures !(r.error.Some? && r.completed.Some?) && !(r.error.Some? && r.pollAgain) && !(r.completed.Some? && r.pollAgain)
    ensures r.completed.Some? ==> r.shown.Some? && r.shown.value.status == Complete && r.shown.value.result == r.completed
    ensures r.pollAgain <==> r.shown.Some? && (r.shown.value.status == Pending || r.shown.value.status == Processing)
    ensures mounted && reply.Response? && 200 <= reply.code <= 299 && reply.body.Ok? ==> r.shown == Some(reply.body.value)
    ensures r.shown.Some? && r.shown.value.status == Complete && r.shown.value.result.Some? ==>
              r.completed == r.shown.value.result
    ensures r.shown.Some? && r.shown.value.status == Failed ==> r.error == Some(FailureMessage(r.shown.value.error))
    ensures r.shown.Some? && r.shown.value.status != Failed ==> r.error.None?
    ensures mounted && reply.Response? && reply.code == 404 ==> r.error == Some(NotFoundMessage)
    ensures mounted && reply.Response? && reply.code != 404 && !(200 <= reply.code <= 299) ==>
              r.error == Some(FetchFailedMessage)
    ensures mounted && reply.Response? && 200 <= reply.code <= 299 && reply.body.Threw? ==>
              r.error == Some(MessageOf(reply.body.thrown))
    ensures mounted && reply.FetchThrew? ==> r.error == Some(MessageOf(reply.thrown))
  {
    match reply
    case FetchThrew(t) => Caught(mounted, t)
    case Response(code, body) =>
      if code == 404 then Caught(mounted, ErrorWithMessage(NotFoundMessage))
      else if !(200 <= code <= 299) then Caught(mounted, ErrorWithMessage(FetchFailedMessage))
      else match body {
        case Threw(t) => Caught(mounted, t)
        case Ok(data) =>
          if !mounted then Quiet
          else if data.status == Complete && data.result.Some? then Effect(Some(data), None, data.result, false)
          else if data.status == Failed then Effect(Some(data), Some(FailureMessage(data.error)), None, false)
          else if data.status == Processing || data.status == Pending then Effect(Some(data), None, None, true)
          else Effect(Some(data), None, None, false)
      }
  }

  /** A 404 is the "Session not found" error, and nothing is stored. */
  lemma {:induction false} NotFoundIsError(data: Try<StatusResponse>)
    ensures Decide(true, Response(404, data)) == Effect(None, Some(NotFoundMessage), None, false)
  {
  }

  /** A failed run reports its own error, or "Processing failed" when it has none. */
  lemma {:induction false} FailedRunReported(data: StatusResponse)
    requires data.status == Failed
    ensures var r := Decide(true, Response(200, Ok(data)));
            r.error == Some(if data.error.Some? && data.error.value != "" then data.error.value else DefaultFailure) &&
            r.shown == Some(data) && r.completed.None? && !r.pollAgain
  {
  }

  /** `complete` without a result is stored, and then nothing more happens:
      no completion, no error, no further poll. */
  lemma {:induction false} CompleteWithoutResultStops(data: StatusResponse)
    requires data.status == Complete && data.result.None?
    ensures Decide(true, Response(200, Ok(data))) == Effect(Some(data), None, None, false)
  {
  }

  /** The polling loop of one mounted view. `due`: a poll is about to start
      (the first call, or a timer that has not fired); `inFlight`: a request
      has been sent and its reply is awaited; the cleanup sets `mounted` to
      false and clears the timer. `completions` and `reports` record the calls
      of `onComplete` and `onError`. */
  class Poller {
    var mounted: bool
    var due: bool
    var inFlight: bool
    var status: Option<StatusResponse>
    var error: Option<string>
    var completions: seq<StatusResult>
    var reports: seq<string>

    /** The view reports once at most, and a settled view polls no more. */
    predicate Valid()
      reads this
    {
      && |completions| + |reports| <= 1
      && !(due && inFlight)
      && (!mounted ==> !due)
      && (|completions| + |reports| == 1 ==> !due && !inFlight)
    }

    /** Mounting: nothing shown yet, and the first poll about to start. */
    constructor()
      ensures Valid()
      ensures mounted && due && !inFlight
      ensures status.None? && error.None? && completions == [] && reports == []
    {
      mounted := true;
      due := true;
      inFlight := false;
      status := None;
      error := None;
      completions := [];
      reports := [];
    }

    /** `pollStatus` starts: the request is sent. */
    method Send()
      requires Valid() && due
      modifies this
      ensures Valid()
      ensures inFlight && !due
      ensures mounted == old(mounted) && status == old(status) && error == old(error)
      ensures completions == old(completions) && reports == old(reports)
    {
      due := false;
      inFlight := true;
    }

    /** The reply arrives and is handled as `Decide` says. */
    method Receive(reply: PollReply)
      requires Valid() && inFlight
      modifies this
      ensures Valid()
      ensures var e := Decide(old(mounted), reply);
              && mounted == old(mounted) && !inFlight && due == e.pollAgain
              && status == (if e.shown.Some? then e.shown else old(status))
              && error == (if e.error.Some? then e.error else old(error))
              && completions == old(completions) + (if e.completed.Some? then [e.completed.value] else [])
              && reports == old(reports) + (if e.error.Some? then [e.error.value] else [])
    {
      var e := Decide(mounted, reply);
      inFlight := false;
      due := e.pollAgain;
      if e.shown.Some? {
        status := e.shown;
      }
      if e.error.Some? {
        error := e.error;
        reports := reports + [e.error.value];
      }
      if e.completed.Some? {
        completions := completions + [e.completed.value];
      }
    }

    /** The effect's cleanup: unmounted, the pending timer cleared. A request
        already sent is still awaited, and its reply then changes nothing. */
    method Unmount()
      requires Valid()
      modifies this
      ensures Valid()
      ensures !mounted && !due && inFlight == old(inFlight)
      ensures status == old(status) && error == old(error)
      ensures completions == old(completions) && reports == old(reports)
    {
      mounted := false;
      due := false;
    }
  }
}
