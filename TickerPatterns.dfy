/**
 * The regular expressions that recognise a ticker symbol in free text, each
 * given twice: as a declarative description of what the expression matches
 * from a start position (MatchAt), and as a scanner that computes a match
 * (TryAt, Search). The scanner is proved to return the capture group of the
 * leftmost match, which is the first element of `re.findall(pattern, s)`.
 */
module TickerPatterns {
  import opened Wrappers
  import opened Ascii

  /** The patterns, with the regular expression each one stands for:
        TypedWord      \b([A-Z]{1,5})\b(?:\s+(?:stock|price|shares|ticker))
        AfterKeyword   (?:ticker|symbol)\s+([A-Z]{1,5})\b
        Dollar         \$([A-Z]{1,5})\b
        Standalone     \b([A-Z]{2,5})\b
      The first three are only ever applied with re.IGNORECASE; Standalone
      carries the flag because one caller applies it without. */
  datatype Pattern = TypedWord | AfterKeyword | Dollar | Standalone(ignoreCase: bool)

  /** The capture group of a match, s[start..end]. */
  datatype Span = Span(start: nat, end: nat)

  /** The class `[A-Z]`, which re.IGNORECASE widens to `[A-Za-z]`. */
  predicate InClass(c: char, ignoreCase: bool)
  {
    IsUpper(c) || (ignoreCase && IsLower(c))
  }

  /** Every character of s[from..to] is in the class. */
  ghost predicate ClassRun(s: string, from: nat, to: nat, ignoreCase: bool)
    requires from <= to <= |s|
  {
    forall k | from <= k < to :: InClass(s[k], ignoreCase)
  }

  /** Every character of s[from..to] matches `\s`. */
  ghost predicate SpaceRun(s: string, from: nat, to: nat)
    requires from <= to <= |s|
  {
    forall k | from <= k < to :: IsSpace(s[k])
  }

  /** The lower-case literal `w` matches at `i`, ignoring case. */
  predicate CaselessAt(s: string, i: nat, w: string)
  {
    i + |w| <= |s| && Lower(s[i..i + |w|]) == w
  }

  /** `(?:stock|price|shares|ticker)` at `i`. */
  predicate TypeWordAt(s: string, i: nat)
  {
    CaselessAt(s, i, "stock") || CaselessAt(s, i, "price") || CaselessAt(s, i, "shares") || CaselessAt(s, i, "ticker")
  }

  /** `(?:ticker|symbol)` at `i`; both literals are six characters long. */
  predicate KeywordAt(s: string, i: nat)
  {
    CaselessAt(s, i, "ticker") || CaselessAt(s, i, "symbol")
  }

  /** `([A-Z]{min,5})\b` matches with the group `g`. */
  ghost predicate GroupAt(s: string, g: Span, min: nat, ignoreCase: bool)
  {
    g.start + min <= g.end <= g.start + 5 && g.end <= |s|
    && ClassRun(s, g.start, g.end, ignoreCase) && Boundary(s, g.end)
  }

  /** The pattern matches with its whole match starting at `i` and capture group `g`. */
  ghost predicate MatchAt(p: Pattern, s: string, i: nat, g: Span)
  {
    match p
    case TypedWord =>
      g.start == i && i <= |s| && Boundary(s, i) && GroupAt(s, g, 1, true)
      && exists w: nat | g.end < w <= |s| :: SpaceRun(s, g.end, w) && TypeWordAt(s, w)
    case AfterKeyword =>
      KeywordAt(s, i) && i + 6 < g.start <= |s| && SpaceRun(s, i + 6, g.start) && GroupAt(s, g, 1, true)
    case Dollar =>
      i < |s| && s[i] == '$' && g.start == i + 1 && GroupAt(s, g, 1, true)
    case Standalone(ignoreCase) =>
      g.start == i && i <= |s| && Boundary(s, i) && GroupAt(s, g, 2, ignoreCase)
  }

  /** No match of `p` starts at any position in [from, to). */
  ghost predicate NoMatchIn(p: Pattern, s: string, from: nat, to: nat)
  {
    forall i: nat, g: Span | from <= i < to :: !MatchAt(p, s, i, g)
  }

  /** The greedy `[A-Z]+` from `j`: the end of the run of class characters starting there. */
  function LetterRunEnd(s: string, j: nat, ignoreCase: bool): (e: nat)
    requires j <= |s|
    ensures j <= e <= |s|
    ensures ClassRun(s, j, e, ignoreCase)
    ensures e == |s| || !InClass(s[e], ignoreCase)
    decreases |s| - j
  {
    if j < |s| && InClass(s[j], ignoreCase) then LetterRunEnd(s, j + 1, ignoreCase) else j
  }

  /** The greedy `\s*` from `j`: the end of the run of whitespace starting there. */
  function SpaceRunEnd(s: string, j: nat): (e: nat)
    requires j <= |s|
    ensures j <= e <= |s|
    ensures SpaceRun(s, j, e)
    ensures e == |s| || !IsSpace(s[e])
    decreases |s| - j
  {
    if j < |s| && IsSpace(s[j]) then SpaceRunEnd(s, j + 1) else j
  }

  /** The group `([A-Z]{min,5})\b` starting at `b`, if there is one. */
  function GroupFrom(s: string, b: nat, min: nat, ignoreCase: bool): Option<Span>
    requires b <= |s|
  {
    var e := LetterRunEnd(s, b, ignoreCase);
    if b + min <= e <= b + 5 && Boundary(s, e) then Some(Span(b, e)) else None
  }

  /** The scanner's attempt at one start position. */
  function TryAt(p: Pattern, s: string, i: nat): Option<Span>
    requires i <= |s|
  {
    match p
    case TypedWord =>
      if !Boundary(s, i) then None
      else (
        match GroupFrom(s, i, 1, true)
        case None => None
        case Some(g) =>
          var w := SpaceRunEnd(s, g.end);
          if g.end < w && TypeWordAt(s, w) then Some(g) else None)
    case AfterKeyword =>
      if !KeywordAt(s, i) then None
      else
        var b := SpaceRunEnd(s, i + 6);
        if i + 6 < b then GroupFrom(s, b, 1, true) else None
    case Dollar =>
      if i < |s| && s[i] == '$' then GroupFrom(s, i + 1, 1, true) else None
    case Standalone(ignoreCase) =>
      if Boundary(s, i) then GroupFrom(s, i, 2, ignoreCase) else None
  }

  /** A class character is a word character, so no word boundary falls inside a run of them. */
  lemma InClassIsWordChar(c: char, ignoreCase: bool)
    requires InClass(c, ignoreCase)
    ensures IsWordChar(c) && !IsSpace(c)
  {
  }

  /** GroupFrom finds exactly the groups that `([A-Z]{min,5})\b` admits at `b`; there is at most one. */
  lemma GroupFromCorrect(s: string, b: nat, min: nat, ignoreCase: bool)
    requires b <= |s| && 1 <= min
    ensures GroupFrom(s, b, min, ignoreCase).Some? ==>
              GroupFrom(s, b, min, ignoreCase).value.start == b && GroupAt(s, GroupFrom(s, b, min, ignoreCase).value, min, ignoreCase)
    ensures forall g: Span | g.start == b && GroupAt(s, g, min, ignoreCase) :: GroupFrom(s, b, min, ignoreCase) == Some(g)
  {
    forall g: Span | g.start == b && GroupAt(s, g, min, ignoreCase)
      ensures g.end == LetterRunEnd(s, b, ignoreCase)
    {
      RunEndsAtBoundary(s, b, g.end, ignoreCase);
    }
  }

  /** A run of class characters from `b` that ends at a word boundary is the greedy run. */
  lemma {:induction false} RunEndsAtBoundary(s: string, b: nat, t: nat, ignoreCase: bool)
    requires b < t <= |s| && ClassRun(s, b, t, ignoreCase) && Boundary(s, t)
    ensures LetterRunEnd(s, b, ignoreCase) == t
    decreases t - b
  {
    InClassIsWordChar(s[b], ignoreCase);
    if b + 1 < t {
      RunEndsAtBoundary(s, b + 1, t, ignoreCase);
    } else {
      InClassIsWordChar(s[t - 1], ignoreCase);
      assert t == |s| || !IsWordChar(s[t]);
    }
  }

  /** The first character of a type word or keyword is a letter, so never whitespace. */
  lemma LiteralNotSpace(s: string, w: nat, lit: string)
    requires CaselessAt(s, w, lit) && |lit| > 0 && IsLower(lit[0])
    ensures w < |s| && !IsSpace(s[w])
  {
    assert Lower(s[w..w + |lit|])[0] == ToLower(s[w]);
  }

  /** The end of a whitespace run that is followed by a non-space is the end of the greedy run. */
  lemma {:induction false} SpaceRunIsGreedy(s: string, j: nat, w: nat)
    requires j <= w < |s| && SpaceRun(s, j, w) && !IsSpace(s[w])
    ensures w == SpaceRunEnd(s, j)
    decreases w - j
  {
    if j < w {
      SpaceRunIsGreedy(s, j + 1, w);
    }
  }

  /** TryAt returns a group exactly when the pattern matches at `i`, and that group is the only one. */
  lemma TryAtCorrect(p: Pattern, s: string, i: nat)
    requires i <= |s|
    ensures TryAt(p, s, i).Some? ==> MatchAt(p, s, i, TryAt(p, s, i).value)
    ensures forall g: Span | MatchAt(p, s, i, g) :: TryAt(p, s, i) == Some(g)
  {
    match p
    case TypedWord =>
      TypedWordCorrect(s, i);
    case AfterKeyword =>
      if KeywordAt(s, i) {
        var b := SpaceRunEnd(s, i + 6);
        GroupFromCorrect(s, b, 1, true);
        forall g: Span | MatchAt(p, s, i, g)
          ensures TryAt(p, s, i) == Some(g)
        {
          InClassIsWordChar(s[g.start], true);
          SpaceRunIsGreedy(s, i + 6, g.start);
        }
      }
    case Dollar =>
      if i < |s| && s[i] == '$' {
        GroupFromCorrect(s, i + 1, 1, true);
      }
    case Standalone(ignoreCase) =>
      GroupFromCorrect(s, i, 2, ignoreCase);
  }

  /** TryAtCorrect for the pattern of a word followed by a type word. */
  lemma TypedWordCorrect(s: string, i: nat)
    requires i <= |s|
    ensures TryAt(TypedWord, s, i).Some? ==> MatchAt(TypedWord, s, i, TryAt(TypedWord, s, i).value)
    ensures forall g: Span | MatchAt(TypedWord, s, i, g) :: TryAt(TypedWord, s, i) == Some(g)
  {
    GroupFromCorrect(s, i, 1, true);
    if TryAt(TypedWord, s, i).Some? {
      var g := TryAt(TypedWord, s, i).value;
      var w := SpaceRunEnd(s, g.end);
      assert SpaceRun(s, g.end, w) && TypeWordAt(s, w);
    }
    forall g: Span | MatchAt(TypedWord, s, i, g)
      ensures TryAt(TypedWord, s, i) == Some(g)
    {
      var w: nat :| g.end < w <= |s| && SpaceRun(s, g.end, w) && TypeWordAt(s, w);
      if CaselessAt(s, w, "stock") {
        LiteralNotSpace(s, w, "stock");
      } else if CaselessAt(s, w, "price") {
        LiteralNotSpace(s, w, "price");
      } else if CaselessAt(s, w, "shares") {
        LiteralNotSpace(s, w, "shares");
      } else {
        LiteralNotSpace(s, w, "ticker");
      }
      SpaceRunIsGreedy(s, g.end, w);
    }
  }

  /** A match lies inside the text and its group is one to five class characters. */
  lemma MatchShape(p: Pattern, s: string, i: nat, g: Span)
    requires MatchAt(p, s, i, g)
    ensures i < |s| && i <= g.start < g.end <= |s| && g.end - g.start <= 5
    ensures ClassRun(s, g.start, g.end, !p.Standalone? || p.ignoreCase)
  {
  }

  /** The scan from `from`: the group of the first position at or after `from` where the pattern matches. */
  function Search(p: Pattern, s: string, from: nat): (r: Option<Span>)
    requires from <= |s|
    ensures r.Some? ==> r.value.start <= r.value.end <= |s|
    ensures r.Some? ==> exists i: nat | from <= i :: MatchAt(p, s, i, r.value) && NoMatchIn(p, s, from, i)
    ensures r.None? ==> NoMatchIn(p, s, from, |s| + 1)
    decreases |s| - from
  {
    TryAtCorrect(p, s, from);
    var here := TryAt(p, s, from);
    if here.Some? then
      MatchShape(p, s, from, here.value);
      here
    else if from == |s| then
      None
    else
      Search(p, s, from + 1)
  }

  /** `re.findall(p, s)[0]`, the group of the leftmost match, read off the scan: a
      returned group belongs to a match that no earlier start position has, and
      when nothing is returned the pattern matches nowhere. */
  lemma SearchIsLeftmost(p: Pattern, s: string)
    ensures Search(p, s, 0).Some? ==>
              exists i: nat :: MatchAt(p, s, i, Search(p, s, 0).value) && forall j: nat, h: Span | j < i :: !MatchAt(p, s, j, h)
    ensures Search(p, s, 0).None? <==> forall i: nat, g: Span :: !MatchAt(p, s, i, g)
  {
    if Search(p, s, 0).None? {
      forall i: nat, g: Span
        ensures !MatchAt(p, s, i, g)
      {
        if MatchAt(p, s, i, g) {
          MatchShape(p, s, i, g);
        }
      }
    } else {
      var i: nat :| MatchAt(p, s, i, Search(p, s, 0).value) && NoMatchIn(p, s, 0, i);
      assert forall j: nat, h: Span | j < i :: !MatchAt(p, s, j, h);
    }
  }

  /** A query that opens with a word of two to five letters is matched by the standalone
      pattern at its very start, whatever follows. */
  lemma LeadingWordMatches(s: string, n: nat)
    requires 2 <= n <= 5 && n <= |s| && ClassRun(s, 0, n, true) && Boundary(s, n)
    ensures Search(Standalone(true), s, 0) == Some(Span(0, n))
  {
    InClassIsWordChar(s[0], true);
    assert MatchAt(Standalone(true), s, 0, Span(0, n));
    TryAtCorrect(Standalone(true), s, 0);
  }

  /** Standalone without IGNORECASE on the upper-cased text finds the same group, at the same
      place, as Standalone with IGNORECASE on the original text. */
  lemma {:induction false} StandaloneIgnoresCase(s: string, from: nat)
    requires from <= |s|
    ensures Search(Standalone(false), Upper(s), from) == Search(Standalone(true), s, from)
    decreases |s| - from
  {
    assert TryAt(Standalone(false), Upper(s), from) == TryAt(Standalone(true), s, from) by {
      TryAtIgnoresCase(s, from);
    }
    SearchStep(Standalone(false), Upper(s), from);
    SearchStep(Standalone(true), s, from);
    if from < |s| {
      StandaloneIgnoresCase(s, from + 1);
    }
  }

  /** One step of the scan: the attempt here, else the scan from the next position. */
  lemma SearchStep(p: Pattern, s: string, from: nat)
    requires from <= |s|
    ensures Search(p, s, from)
            == if TryAt(p, s, from).Some? then TryAt(p, s, from)
               else if from == |s| then None
               else Search(p, s, from + 1)
  {
  }

  /** One attempt of Standalone on the upper-cased text agrees with the IGNORECASE attempt
      on the original text. */
  lemma TryAtIgnoresCase(s: string, from: nat)
    requires from <= |s|
    ensures TryAt(Standalone(false), Upper(s), from) == TryAt(Standalone(true), s, from)
  {
    var u := Upper(s);
    forall k | 0 <= k < |s|
      ensures InClass(u[k], false) == InClass(s[k], true) && IsWordChar(u[k]) == IsWordChar(s[k])
    {
      UpperKeepsClasses(s[k]);
    }
    assert Boundary(u, from) == Boundary(s, from);
    RunEndIgnoresCase(s, from);
    var e := LetterRunEnd(s, from, true);
    assert Boundary(u, e) == Boundary(s, e);
  }

  lemma {:induction false} RunEndIgnoresCase(s: string, j: nat)
    requires j <= |s|
    ensures LetterRunEnd(Upper(s), j, false) == LetterRunEnd(s, j, true)
    decreases |s| - j
  {
    if j < |s| {
      UpperKeepsClasses(s[j]);
      RunEndIgnoresCase(s, j + 1);
    }
  }
}
