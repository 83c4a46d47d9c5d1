/** A small regular-expression matcher, enough for the URL patterns of the core.

    A pattern is a sequence of pieces; each piece is a literal, a choice of
    literals (`(?:a|b)`), a greedy run of one or more characters of a class
    (`\w+`) or an exact number of them (`[a-zA-Z0-9_-]{11}`), and may be a
    capture group. Matching is unanchored: the search tries every start
    position from left to right and returns the captures of the first match.

    The matcher commits to the first choice it makes (the longest run, the
    first alternative that fits). For every pattern of the core this is what
    a backtracking engine finds too: each run is followed by a literal whose
    first character lies outside the run's class, or ends the pattern, and no
    two alternatives of one choice can match at the same place. */
module Patterns {
  import opened Wrappers
  import opened Text

  datatype CharClass =
    | WordChar     // \w       [A-Za-z0-9_]
    | DigitChar    // \d       [0-9]
    | IdChar       // [a-zA-Z0-9_-]
    | HandleChar   // [\w.-]
    | AlnumX       // [a-zA-Z0-9x]
    | NotSlash     // [^\/]

  predicate IsAsciiLetter(c: char) {
    ('a' <= c <= 'z') || ('A' <= c <= 'Z')
  }

  predicate InClass(c: char, k: CharClass) {
    match k
    case WordChar => IsAsciiLetter(c) || IsDigit(c) || c == '_'
    case DigitChar => IsDigit(c)
    case IdChar => IsAsciiLetter(c) || IsDigit(c) || c == '_' || c == '-'
    case HandleChar => IsAsciiLetter(c) || IsDigit(c) || c == '_' || c == '.' || c == '-'
    case AlnumX => IsAsciiLetter(c) || IsDigit(c) || c == 'x'
    case NotSlash => c != '/'
  }

  datatype Atom =
    | Lit(text: string)
    | AnyOf(alternatives: seq<string>)
    | Run(cls: CharClass)
    | Count(cls: CharClass, n: nat)

  datatype Piece = Piece(atom: Atom, capture: bool)

  /** `ignoreCase` is the regex flag `i` (ASCII letters only). */
  datatype Pattern = Pattern(pieces: seq<Piece>, ignoreCase: bool)

  /** A match: where it starts, where it ends, and the captured texts in order. */
  datatype Match = Match(start: nat, end: nat, captures: seq<string>)

  predicate CharEq(a: char, b: char, ignoreCase: bool) {
    if ignoreCase then LowerChar(a) == LowerChar(b) else a == b
  }

  /** The literal `lit` is found in `s` at position `i`. */
  predicate LitAt(s: string, lit: string, i: nat, ignoreCase: bool) {
    i + |lit| <= |s| && forall k :: 0 <= k < |lit| ==> CharEq(s[i + k], lit[k], ignoreCase)
  }

  /** The number of consecutive characters of class `cls` from position `i`. */
  function RunLength(s: string, i: nat, cls: CharClass): (n: nat)
    requires i <= |s|
    ensures i + n <= |s|
    ensures forall k :: i <= k < i + n ==> InClass(s[k], cls)
    ensures i + n < |s| ==> !InClass(s[i + n], cls)
    decreases |s| - i
  {
    if i < |s| && InClass(s[i], cls) then 1 + RunLength(s, i + 1, cls) else 0
  }

  /** The first alternative found at `i`, if any. */
  function FirstAlternative(s: string, alts: seq<string>, i: nat, ignoreCase: bool): (r: Option<string>)
    ensures r.Some? ==> r.value in alts && LitAt(s, r.value, i, ignoreCase)
    ensures r.None? ==> forall k :: 0 <= k < |alts| ==> !LitAt(s, alts[k], i, ignoreCase)
  {
    if alts == [] then None
    else if LitAt(s, alts[0], i, ignoreCase) then Some(alts[0])
    else FirstAlternative(s, alts[1..], i, ignoreCase)
  }

  /** Where an atom that starts at `i` ends, if it matches there. */
  function AtomAt(a: Atom, s: string, i: nat, ignoreCase: bool): (r: Option<nat>)
    requires i <= |s|
    ensures r.Some? ==> i <= r.value <= |s|
    ensures r.Some? && a.Run? ==> r.value > i
    ensures r.Some? && a.Count? ==> r.value == i + a.n
  {
    match a
    case Lit(t) => if LitAt(s, t, i, ignoreCase) then Some(i + |t|) else None
    case AnyOf(alts) =>
      (match FirstAlternative(s, alts, i, ignoreCase)
       case Some(t) => Some(i + |t|)
       case None => None)
    case Run(cls) =>
      var n := RunLength(s, i, cls);
      if n > 0 then Some(i + n) else None
    case Count(cls, n) =>
      if i + n <= |s| && forall k :: i <= k < i + n ==> InClass(s[k], cls) then Some(i + n) else None
  }

  function CaptureCount(ps: seq<Piece>): nat {
    if ps == [] then 0 else (if ps[0].capture then 1 else 0) + CaptureCount(ps[1..])
  }

  /** Every capture group of the pattern matches at least one character. */
  predicate CapturesNonEmpty(ps: seq<Piece>) {
    forall k :: 0 <= k < |ps| && ps[k].capture ==> ps[k].atom.Run? || (ps[k].atom.Count? && ps[k].atom.n > 0)
  }

  /** Matching the pieces from position `i`: the end position and the captures. */
  function PiecesAt(ps: seq<Piece>, s: string, i: nat, ignoreCase: bool): (r: Option<(nat, seq<string>)>)
    requires i <= |s|
    ensures r.Some? ==> i <= r.value.0 <= |s| && |r.value.1| == CaptureCount(ps)
    ensures r.Some? && CapturesNonEmpty(ps) ==> forall k :: 0 <= k < |r.value.1| ==> r.value.1[k] != ""
    decreases |ps|
  {
    if ps == [] then Some((i, []))
    else
      match AtomAt(ps[0].atom, s, i, ignoreCase)
      case None => None
      case Some(e) =>
        match PiecesAt(ps[1..], s, e, ignoreCase)
        case None => None
        case Some(rest) =>
          assert CapturesNonEmpty(ps) ==> CapturesNonEmpty(ps[1..]) by {
            if CapturesNonEmpty(ps) {
              forall k | 0 <= k < |ps[1..]| && ps[1..][k].capture
                ensures ps[1..][k].atom.Run? || (ps[1..][k].atom.Count? && ps[1..][k].atom.n > 0)
              {
                assert ps[1..][k] == ps[k + 1];
              }
            }
          }
          Some((rest.0, (if ps[0].capture then [s[i..e]] else []) + rest.1))
  }

  /** The pattern matches with its first piece at position `i`. */
  function MatchAt(p: Pattern, s: string, i: nat): Option<Match>
    requires i <= |s|
  {
    match PiecesAt(p.pieces, s, i, p.ignoreCase)
    case None => None
    case Some(r) => Some(Match(i, r.0, r.1))
  }

  /** The pieces matching at `i` make a match at `i`. */
  lemma MatchOfPieces(p: Pattern, s: string, i: nat, r: (nat, seq<string>))
    requires i <= |s| && PiecesAt(p.pieces, s, i, p.ignoreCase) == Some(r)
    ensures MatchAt(p, s, i) == Some(Match(i, r.0, r.1))
  {
  }

  /** The leftmost match that starts at or after `from`. */
  function SearchFrom(p: Pattern, s: string, from: nat): Option<Match>
    requires from <= |s|
    decreases |s| - from
  {
    match MatchAt(p, s, from)
    case Some(m) => Some(m)
    case None => if from == |s| then None else SearchFrom(p, s, from + 1)
  }

  /** What the search finds is a match, and no match starts before it; when
      it finds none, no match starts anywhere from `from` on. */
  lemma {:induction false} SearchFromFinds(p: Pattern, s: string, from: nat)
    requires from <= |s|
    ensures var r := SearchFrom(p, s, from);
            r.Some? ==> from <= r.value.start <= |s| && MatchAt(p, s, r.value.start) == r
    ensures var r := SearchFrom(p, s, from);
            r.Some? ==> forall j :: from <= j < r.value.start ==> MatchAt(p, s, j).None?
    ensures var r := SearchFrom(p, s, from);
            r.None? ==> forall j :: from <= j <= |s| ==> MatchAt(p, s, j).None?
    decreases |s| - from
  {
    match MatchAt(p, s, from)
    case Some(m) =>
    case None =>
      if from < |s| {
        SearchFromFinds(p, s, from + 1);
      }
  }

  /** The search passes over positions where no match starts. */
  lemma {:induction false} SearchPasses(p: Pattern, s: string, j: nat, n: nat)
    requires j <= n <= |s|
    requires forall k :: j <= k < n ==> MatchAt(p, s, k).None?
    ensures SearchFrom(p, s, j) == SearchFrom(p, s, n)
    decreases n - j
  {
    if j < n {
      assert SearchFrom(p, s, j) == SearchFrom(p, s, j + 1) by {
        SearchStep(p, s, j);
      }
      SearchPasses(p, s, j + 1, n);
    }
  }

  /** Where no match starts, the search goes on at the next position. */
  lemma SearchStep(p: Pattern, s: string, j: nat)
    requires j < |s| && MatchAt(p, s, j).None?
    ensures SearchFrom(p, s, j) == SearchFrom(p, s, j + 1)
  {
  }

  /** `pattern.exec(s)`: the leftmost match. */
  function Exec(p: Pattern, s: string): Option<Match> {
    SearchFrom(p, s, 0)
  }

  /** `pattern.test(s)`. */
  predicate Test(p: Pattern, s: string) {
    Exec(p, s).Some?
  }

  /** The pattern tests true as soon as it matches somewhere. */
  lemma {:induction false} TestWhenMatchAt(p: Pattern, s: string, k: nat)
    requires k <= |s| && MatchAt(p, s, k).Some?
    ensures Test(p, s)
  {
    SearchFromFinds(p, s, 0);
  }

  /** A literal placed in a string is found where it was placed. */
  lemma {:induction false} LitInside(pre: string, lit: string, post: string, ignoreCase: bool)
    ensures LitAt(pre + lit + post, lit, |pre|, ignoreCase)
  {
    var s := pre + lit + post;
    forall k | 0 <= k < |lit| ensures CharEq(s[|pre| + k], lit[k], ignoreCase) {
      assert s[|pre| + k] == lit[k];
    }
  }

  /** A run placed in a string, followed by the end or a character outside
      its class, is measured exactly. */
  lemma {:induction false} RunInside(pre: string, run: string, post: string, cls: CharClass)
    requires forall k :: 0 <= k < |run| ==> InClass(run[k], cls)
    requires post == [] || !InClass(post[0], cls)
    ensures RunLength(pre + run + post, |pre|, cls) == |run|
    decreases |run|
  {
    var s := pre + run + post;
    if run == [] {
      assert s == pre + post;
      if post != [] {
        assert s[|pre|] == post[0];
      }
    } else {
      assert s[|pre|] == run[0];
      assert s == (pre + [run[0]]) + run[1..] + post;
      RunInside(pre + [run[0]], run[1..], post, cls);
    }
  }
}
