/** Texts as byte sequences in UTF-8, one character a byte: lines, and the white space that Unicode knows. */
module Text {
  // ----- White space -----

  predicate IsSpace(c: char) {
    c == ' ' || c == '\t' || c == '\n' || c == '\r' || c == '\U{0B}' || c == '\U{0C}'
  }

  /** U+0085 and U+00A0. */
  predicate IsSpace2(a: char, b: char) {
    a == '\U{C2}' && (b == '\U{85}' || b == '\U{A0}')
  }

  /** U+1680, U+2000 to U+200A, U+2028, U+2029, U+202F, U+205F and U+3000. */
  predicate IsSpace3(a: char, b: char, c: char) {
    || (a == '\U{E1}' && b == '\U{9A}' && c == '\U{80}')
    || (a == '\U{E2}' && b == '\U{80}' &&
      ('\U{80}' <= c <= '\U{8A}' || c == '\U{A8}' || c == '\U{A9}' || c == '\U{AF}'))
    || (a == '\U{E2}' && b == '\U{81}' && c == '\U{9F}')
    || (a == '\U{E3}' && b == '\U{80}' && c == '\U{80}')
  }

  /** The length of the white space character that s begins with, or 0. */
  function SpaceLen(s: string): (n: nat)
    ensures n <= |s|
  {
    if |s| >= 1 && IsSpace(s[0]) then 1
    else if |s| >= 2 && IsSpace2(s[0], s[1]) then 2
    else if |s| >= 3 && IsSpace3(s[0], s[1], s[2]) then 3
    else 0
  }

  /** The length of the white space character that s ends with, or 0. */
  function SpaceLenEnd(s: string): (n: nat)
    ensures n <= |s|
  {
    var k := |s|;
    if k >= 1 && IsSpace(s[k - 1]) then 1
    else if k >= 2 && IsSpace2(s[k - 2], s[k - 1]) then 2
    else if k >= 3 && IsSpace3(s[k - 3], s[k - 2], s[k - 1]) then 3
    else 0
  }

  function TrimRight(s: string): string {
    if SpaceLenEnd(s) > 0 then TrimRight(s[..|s| - SpaceLenEnd(s)]) else s
  }

  function TrimLeft(s: string): (r: string)
    ensures |r| <= |s| && SpaceLen(r) == 0
  {
    if SpaceLen(s) > 0 then TrimLeft(s[SpaceLen(s)..]) else s
  }

  /** `strings.TrimSpace` */
  function Trim(s: string): string {
    TrimLeft(TrimRight(s))
  }

  /** White space characters only. */
  ghost predicate Blank(s: string) {
    s == "" || (SpaceLen(s) > 0 && Blank(s[SpaceLen(s)..]))
  }

  lemma SpaceIsSpace(s: string)
    requires SpaceLenEnd(s) > 0
    ensures SpaceLen(s[|s| - SpaceLenEnd(s)..]) == SpaceLenEnd(s)
  {
  }

  lemma {:induction false} BlankAppend(s: string, w: string)
    requires Blank(s) && SpaceLen(w) == |w| > 0
    ensures Blank(s + w)
  {
    if s == "" {
      assert s + w == w && w[|w|..] == "";
    } else {
      var n := SpaceLen(s);
      BlankAppend(s[n..], w);
      assert (s + w)[n..] == s[n..] + w;
    }
  }

  lemma {:induction false} BlankPrepend(w: string, s: string)
    requires Blank(s) && SpaceLen(w) == |w| > 0
    ensures Blank(w + s)
  {
    assert (w + s)[|w|..] == s;
  }

  lemma {:induction false} TrimRightMeaning(s: string) returns (right: string)
    ensures s == TrimRight(s) + right && Blank(right) && SpaceLenEnd(TrimRight(s)) == 0
    decreases |s|
  {
    right := "";
    if SpaceLenEnd(s) > 0 {
      var k := |s| - SpaceLenEnd(s);
      SpaceIsSpace(s);
      right := TrimRightMeaning(s[..k]);
      BlankAppend(right, s[k..]);
      right := right + s[k..];
    }
  }

  lemma EndStays(s: string, n: nat)
    requires SpaceLenEnd(s) == 0 && n <= |s|
    ensures SpaceLenEnd(s[n..]) == 0
  {
  }

  lemma SpaceAlone(s: string)
    ensures SpaceLen(s[..SpaceLen(s)]) == SpaceLen(s)
  {
  }

  /** One step of trimming on the left. */
  lemma TrimOneLeft(s: string) returns (w: string, rest: string)
    requires SpaceLen(s) > 0 && SpaceLenEnd(s) == 0
    ensures s == w + rest && SpaceLen(w) == |w| > 0
    ensures TrimLeft(s) == TrimLeft(rest) && SpaceLenEnd(rest) == 0
  {
    w, rest := s[..SpaceLen(s)], s[SpaceLen(s)..];
    EndStays(s, SpaceLen(s));
    SpaceAlone(s);
  }

  lemma AssocText(a: string, b: string, c: string)
    ensures a + (b + c) == (a + b) + c
  {
  }

  lemma {:induction false} TrimLeftMeaning(s: string) returns (left: string)
    requires SpaceLenEnd(s) == 0
    ensures s == left + TrimLeft(s) && Blank(left) && SpaceLenEnd(TrimLeft(s)) == 0
    decreases |s|
  {
    left := "";
    if SpaceLen(s) > 0 {
      var w, rest := TrimOneLeft(s);
      left := TrimLeftMeaning(rest);
      BlankPrepend(w, left);
      AssocText(w, left, TrimLeft(rest));
      left := w + left;
    }
  }

  /** The text ends with a white space character. */
  ghost predicate EndsWithSpace(s: string) {
    exists i :: 0 <= i < |s| && SpaceLen(s[i..]) == |s| - i
  }

  lemma EndIsSpace(s: string, i: nat)
    requires i < |s| && SpaceLen(s[i..]) == |s| - i
    ensures SpaceLenEnd(s) > 0
  {
    assert forall j :: 0 <= j < |s| - i ==> s[i..][j] == s[i + j];
  }

  /** Trimming takes white space from both ends, and all of it. */
  lemma TrimMeaning(s: string) returns (left: string, right: string)
    ensures s == left + Trim(s) + right && Blank(left) && Blank(right)
    ensures SpaceLen(Trim(s)) == 0 && !EndsWithSpace(Trim(s))
  {
    right := TrimRightMeaning(s);
    left := TrimLeftMeaning(TrimRight(s));
    if i :| 0 <= i < |Trim(s)| && SpaceLen(Trim(s)[i..]) == |Trim(s)| - i {
      EndIsSpace(Trim(s), i);
    }
  }

  lemma NothingToTrim(s: string)
    requires SpaceLen(s) == 0 && SpaceLenEnd(s) == 0
    ensures Trim(s) == s
  {
  }

  /** No white space character begins at any position. */
  predicate NoSpace(s: string) {
    forall i :: 0 <= i < |s| ==> SpaceLen(s[i..]) == 0
  }

  // ----- Lines -----

  /** The position of the first newline of s, or its length. */
  function LineEnd(s: string): (n: nat)
    ensures n <= |s| && '\n' !in s[..n] && (n < |s| ==> s[n] == '\n')
  {
    if s == [] || s[0] == '\n' then 0 else 1 + LineEnd(s[1..])
  }

  lemma {:induction false} LineEndAt(line: string, rest: string)
    requires '\n' !in line && (rest != [] ==> rest[0] == '\n')
    ensures LineEnd(line + rest) == |line|
  {
    if line != [] {
      assert (line + rest)[1..] == line[1..] + rest;
      LineEndAt(line[1..], rest);
    } else {
      assert line + rest == rest;
    }
  }

  // ----- Parts -----

  /** w stands in s at position i. */
  predicate At(s: string, w: string, i: int) {
    0 <= i <= |s| - |w| && s[i..i + |w|] == w
  }

  predicate Contains(s: string, w: string) {
    exists i :: 0 <= i <= |s| && At(s, w, i)
  }
}
