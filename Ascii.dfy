/**
 * Character classes, case mapping and substring search over the ASCII range,
 * as Python's `str.lower`, `str.upper`, the `in` operator and the `re` module
 * treat ASCII text. Characters outside ASCII are neither letters, digits,
 * word characters nor whitespace here, and case mapping leaves them alone.
 */
module Ascii {

  predicate IsUpper(c: char) { 'A' <= c <= 'Z' }

  predicate IsLower(c: char) { 'a' <= c <= 'z' }

  predicate IsLetter(c: char) { IsUpper(c) || IsLower(c) }

  predicate IsDigit(c: char) { '0' <= c <= '9' }

  /** The regular-expression class `\w`: letters, digits and the underscore. */
  predicate IsWordChar(c: char) { IsLetter(c) || IsDigit(c) || c == '_' }

  /** The regular-expression class `\s`: tab, line feed, vertical tab, form feed,
      carriage return, the separators 0x1C-0x1F and the space. */
  predicate IsSpace(c: char)
  {
    '\t' <= c <= '\r' || '\U{1C}' <= c <= '\U{1F}' || c == ' '
  }

  function ToUpper(c: char): char
  {
    if IsLower(c) then (c as int - 32) as char else c
  }

  function ToLower(c: char): char
  {
    if IsUpper(c) then (c as int + 32) as char else c
  }

  /** `s.upper()` */
  function Upper(s: string): (r: string)
    ensures |r| == |s|
    ensures forall i :: 0 <= i < |s| ==> r[i] == ToUpper(s[i])
  {
    seq(|s|, i requires 0 <= i < |s| => ToUpper(s[i]))
  }

  /** `s.lower()` */
  function Lower(s: string): (r: string)
    ensures |r| == |s|
    ensures forall i :: 0 <= i < |s| ==> r[i] == ToLower(s[i])
  {
    seq(|s|, i requires 0 <= i < |s| => ToLower(s[i]))
  }

  /** Upper-casing keeps every character in its class: a letter stays a letter,
      a word character a word character, and nothing else is touched. */
  lemma UpperKeepsClasses(c: char)
    ensures IsLetter(ToUpper(c)) == IsLetter(c)
    ensures IsUpper(ToUpper(c)) == IsLetter(c)
    ensures IsWordChar(ToUpper(c)) == IsWordChar(c)
    ensures !IsLetter(c) ==> ToUpper(c) == c
  {
  }

  /** `s.replace(c, with)` for a single-character pattern. */
  function ReplaceChar(s: string, c: char, with: string): (r: string)
    ensures c !in s ==> r == s
    ensures s == [c] ==> r == with
    ensures c !in with ==> c !in r
  {
    if s == [] then []
    else (if s[0] == c then with else [s[0]]) + ReplaceChar(s[1..], c, with)
  }

  /** Two texts that frame a field and a fixed-width field alike agree on both fields. */
  lemma FramedFieldsEqual(pre: string, mid: string, post: string, t1: string, s1: string, t2: string, s2: string)
    requires |s1| == |s2| && pre + t1 + mid + s1 + post == pre + t2 + mid + s2 + post
    ensures t1 == t2 && s1 == s2
  {
    var p1, p2 := pre + t1 + mid + s1 + post, pre + t2 + mid + s2 + post;
    assert |t1| == |t2|;
    assert p1[|pre|..|pre| + |t1|] == t1;
    assert p2[|pre|..|pre| + |t2|] == t2;
    var at := |pre| + |t1| + |mid|;
    assert p1[at..at + |s1|] == s1;
    assert p2[at..at + |s2|] == s2;
  }

  /** Replacing distributes over concatenation: every occurrence is replaced, wherever
      the text is cut. */
  lemma {:induction false} ReplaceCharAppend(s1: string, s2: string, c: char, with: string)
    ensures ReplaceChar(s1 + s2, c, with) == ReplaceChar(s1, c, with) + ReplaceChar(s2, c, with)
  {
    if s1 == [] {
      assert s1 + s2 == s2;
    } else {
      var s := s1 + s2;
      var head := if s1[0] == c then with else [s1[0]];
      var rest, tail := ReplaceChar(s1[1..], c, with), ReplaceChar(s2, c, with);
      assert ReplaceChar(s, c, with) == head + ReplaceChar(s1[1..] + s2, c, with) by {
        assert s[0] == s1[0] && s[1..] == s1[1..] + s2;
        ReplaceCharFirst(s, c, with);
      }
      assert ReplaceChar(s1, c, with) == head + rest by {
        ReplaceCharFirst(s1, c, with);
      }
      assert ReplaceChar(s1[1..] + s2, c, with) == rest + tail by {
        ReplaceCharAppend(s1[1..], s2, c, with);
      }
      assert head + (rest + tail) == (head + rest) + tail;
    }
  }

  /** Replacing in a non-empty text replaces its first character, then the rest. */
  lemma ReplaceCharFirst(s: string, c: char, with: string)
    requires s != []
    ensures ReplaceChar(s, c, with) == (if s[0] == c then with else [s[0]]) + ReplaceChar(s[1..], c, with)
  {
  }

  /** `needle` occurs in `hay` starting at index `i`. */
  ghost predicate OccursAt(hay: string, needle: string, i: nat)
  {
    i + |needle| <= |hay| && hay[i..i + |needle|] == needle
  }

  /** Python's `needle in hay` for strings, by trying each starting position in turn. */
  predicate Contains(hay: string, needle: string)
    decreases |hay|
  {
    |needle| <= |hay| && (hay[..|needle|] == needle || (0 < |hay| && Contains(hay[1..], needle)))
  }

  /** The scan finds the needle exactly when it occurs somewhere. */
  lemma {:induction false} ContainsIff(hay: string, needle: string)
    ensures Contains(hay, needle) <==> exists i: nat :: OccursAt(hay, needle, i)
    decreases |hay|
  {
    if |needle| <= |hay| && hay[..|needle|] != needle && 0 < |hay| {
      ContainsIff(hay[1..], needle);
      if exists i: nat :: OccursAt(hay, needle, i) {
        var i: nat :| OccursAt(hay, needle, i);
        assert i != 0;
        assert hay[1..][i - 1..i - 1 + |needle|] == hay[i..i + |needle|];
        assert OccursAt(hay[1..], needle, i - 1);
      }
      if exists i: nat :: OccursAt(hay[1..], needle, i) {
        var i: nat :| OccursAt(hay[1..], needle, i);
        assert hay[1..][i..i + |needle|] == hay[i + 1..i + 1 + |needle|];
        assert OccursAt(hay, needle, i + 1);
      }
    } else if |needle| <= |hay| && hay[..|needle|] == needle {
      assert OccursAt(hay, needle, 0);
    }
  }

  /** The regular-expression assertion `\b` at position `i` of `s`: exactly one of
      the characters on either side of `i` is a word character. */
  predicate Boundary(s: string, i: nat)
    requires i <= |s|
  {
    (0 < i && IsWordChar(s[i - 1])) != (i < |s| && IsWordChar(s[i]))
  }
}
