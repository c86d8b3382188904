/** UTF-8 texts rune by rune, and their lower-casing, which may change the length of a text. */
module Unicode {
  import opened Text

  // ----- Runes -----

  predicate IsASCIIChar(c: char) {
    c < '\U{80}'
  }

  /** A byte that only continues a rune. */
  predicate IsCont(c: char) {
    '\U{80}' <= c <= '\U{BF}'
  }

  predicate Begins2(a: char, b: char) {
    '\U{C2}' <= a <= '\U{DF}' && IsCont(b)
  }

  predicate Begins3(a: char, b: char) {
    || (a == '\U{E0}' && '\U{A0}' <= b <= '\U{BF}')
    || (a == '\U{ED}' && '\U{80}' <= b <= '\U{9F}')
    || (('\U{E1}' <= a <= '\U{EC}' || '\U{EE}' <= a <= '\U{EF}') && IsCont(b))
  }

  predicate Begins4(a: char, b: char) {
    || (a == '\U{F0}' && '\U{90}' <= b <= '\U{BF}')
    || (a == '\U{F4}' && '\U{80}' <= b <= '\U{8F}')
    || ('\U{F1}' <= a <= '\U{F3}' && IsCont(b))
  }

  /** How many bytes the first rune of s takes; a byte that begins no rune stands alone. */
  function RuneLen(s: string): (n: nat)
    requires s != ""
    ensures 1 <= n <= |s|
  {
    if |s| >= 2 && Begins2(s[0], s[1]) then 2
    else if |s| >= 3 && Begins3(s[0], s[1]) && IsCont(s[2]) then 3
    else if |s| >= 4 && Begins4(s[0], s[1]) && IsCont(s[2]) && IsCont(s[3]) then 4
    else 1
  }

  /** A Unicode scalar value: a code point that is no surrogate. */
  predicate IsScalar(c: int) {
    0 <= c < 0xD800 || 0xE000 <= c < 0x11_0000
  }

  /** The last n digits of c to the base 64, as continuation bytes. */
  function Rest(c: nat, n: nat): string {
    if n == 0 then "" else Rest(c / 64, n - 1) + [(0x80 + c % 64) as char]
  }

  /** The UTF-8 encoding of a scalar value: section 3 of RFC 3629. */
  function Encode(c: int): (s: string)
    requires IsScalar(c)
    ensures s != ""
  {
    if c < 0x80 then [c as char]
    else if c < 0x800 then [(0xC0 + c / 64) as char] + Rest(c, 1)
    else if c < 0x1_0000 then [(0xE0 + c / 64 / 64) as char] + Rest(c, 2)
    else [(0xF0 + c / 64 / 64 / 64) as char] + Rest(c, 3)
  }

  /** A continuation byte has six bits of a code point. */
  function Bits(c: char): int {
    c as int - 0x80
  }

  lemma RestOf(c: nat)
    ensures Rest(c, 1) == [(0x80 + c % 64) as char]
    ensures Rest(c, 2) == [(0x80 + c / 64 % 64) as char, (0x80 + c % 64) as char]
    ensures Rest(c, 3) == [(0x80 + c / 64 / 64 % 64) as char, (0x80 + c / 64 % 64) as char, (0x80 + c % 64) as char]
  {
    assert Rest(c, 1) == Rest(c / 64, 0) + [(0x80 + c % 64) as char];
    assert Rest(c / 64, 1) == Rest(c / 64 / 64, 0) + [(0x80 + c / 64 % 64) as char];
    assert Rest(c / 64 / 64, 1) == Rest(c / 64 / 64 / 64, 0) + [(0x80 + c / 64 / 64 % 64) as char];
    assert Rest(c / 64, 2) == Rest(c / 64 / 64, 1) + [(0x80 + c / 64 % 64) as char];
    assert Rest(c, 2) == Rest(c / 64, 1) + [(0x80 + c % 64) as char];
    assert Rest(c, 3) == Rest(c / 64, 2) + [(0x80 + c % 64) as char];
  }

  lemma EncodingBegins(c: int)
    requires IsScalar(c)
    ensures var s := Encode(c);
      && (c < 0x80 ==> |s| == 1 && IsASCIIChar(s[0]))
      && (0x80 <= c < 0x800 ==> |s| == 2 && Begins2(s[0], s[1]))
      && (0x800 <= c < 0x1_0000 ==> |s| == 3 && Begins3(s[0], s[1]) && IsCont(s[2]))
      && (0x1_0000 <= c ==> |s| == 4 && Begins4(s[0], s[1]) && IsCont(s[2]) && IsCont(s[3]))
  {
    RestOf(c);
  }

  /** Whatever follows it, the encoding of a scalar value is one rune. */
  lemma EncodingIsRune(c: int, rest: string)
    requires IsScalar(c)
    ensures RuneLen(Encode(c) + rest) == |Encode(c)|
  {
    EncodingBegins(c);
    var (s, all) := (Encode(c), Encode(c) + rest);
    assert forall k :: 0 <= k < |s| ==> all[k] == s[k];
  }

  /** The code point of a continuation byte and of what stands before it. */
  function Joined(high: nat, b: char): (c: nat)
    requires IsCont(b)
    ensures c / 64 == high && c % 64 == Bits(b)
  {
    high * 64 + Bits(b)
  }

  lemma TwoBytes(a: char, b: char)
    requires Begins2(a, b)
    ensures var c := Joined(a as int - 0xC0, b); IsScalar(c) && Encode(c) == [a, b]
  {
    RestOf(Joined(a as int - 0xC0, b));
  }

  lemma ThreeBytes(a: char, b: char, d: char)
    requires Begins3(a, b) && IsCont(d)
    ensures var c := Joined(Joined(a as int - 0xE0, b), d); IsScalar(c) && Encode(c) == [a, b, d]
  {
    RestOf(Joined(Joined(a as int - 0xE0, b), d));
  }

  lemma FourBytes(a: char, b: char, d: char, e: char)
    requires Begins4(a, b) && IsCont(d) && IsCont(e)
    ensures var c := Joined(Joined(Joined(a as int - 0xF0, b), d), e); IsScalar(c) && Encode(c) == [a, b, d, e]
  {
    var c := Joined(Joined(Joined(a as int - 0xF0, b), d), e);
    RestOf(c);
    assert 0x1_0000 <= c < 0x11_0000;
  }

  /** A rune of several bytes is the encoding of a scalar value. */
  lemma RuneIsEncoding(s: string) returns (c: int)
    requires s != "" && RuneLen(s) > 1
    ensures IsScalar(c) && Encode(c) == s[..RuneLen(s)]
  {
    var n := RuneLen(s);
    if n == 2 {
      c := Joined(s[0] as int - 0xC0, s[1]);
      TwoBytes(s[0], s[1]);
    } else if n == 3 {
      c := Joined(Joined(s[0] as int - 0xE0, s[1]), s[2]);
      ThreeBytes(s[0], s[1], s[2]);
    } else {
      c := Joined(Joined(Joined(s[0] as int - 0xF0, s[1]), s[2]), s[3]);
      FourBytes(s[0], s[1], s[2], s[3]);
    }
  }

  lemma PrefixIsRune(s: string, c: int)
    requires s != "" && IsScalar(c) && Encode(c) <= s
    ensures RuneLen(s) == |Encode(c)| && Encode(c) == s[..RuneLen(s)]
  {
    EncodingIsRune(c, s[|Encode(c)|..]);
    assert s == Encode(c) + s[|Encode(c)|..];
  }

  /** The text begins with the encoding of a scalar value. */
  ghost predicate BeginsWithEncoding(s: string) {
    exists c :: IsScalar(c) && Encode(c) <= s
  }

  /** The first rune of a text is the encoding with which the text begins, or one byte if it begins with none. */
  lemma RuneMeaning(s: string)
    requires s != ""
    ensures forall c :: IsScalar(c) && Encode(c) <= s ==> Encode(c) == s[..RuneLen(s)]
    ensures !BeginsWithEncoding(s) ==> RuneLen(s) == 1
  {
    forall c | IsScalar(c) && Encode(c) <= s
      ensures Encode(c) == s[..RuneLen(s)]
    {
      PrefixIsRune(s, c);
    }
    if RuneLen(s) > 1 {
      var c := RuneIsEncoding(s);
      assert Encode(c) <= s;
    }
  }

  /** Unicode's property White_Space. */
  predicate IsWhiteSpace(c: int) {
    || 0x09 <= c <= 0x0D || c == 0x20 || c == 0x85 || c == 0xA0 || c == 0x1680 || 0x2000 <= c <= 0x200A
    || c == 0x2028 || c == 0x2029 || c == 0x202F || c == 0x205F || c == 0x3000
  }

  lemma ShortSpace(c: int)
    requires 0 <= c < 0x800
    ensures SpaceLen(Encode(c)) == if IsWhiteSpace(c) then |Encode(c)| else 0
  {
    RestOf(c);
  }

  lemma SpaceByDigits(h: nat, m: nat, l: nat)
    requires h < 16 && m < 64 && l < 64
    ensures IsSpace3((0xE0 + h) as char, (0x80 + m) as char, (0x80 + l) as char) <==>
      IsWhiteSpace((h * 64 + m) * 64 + l) && (h * 64 + m) * 64 + l >= 0x800
  {
  }

  lemma MiddleSpace(c: int)
    requires IsScalar(c) && 0x800 <= c < 0x1_0000
    ensures |Encode(c)| == 3 && (IsSpace3(Encode(c)[0], Encode(c)[1], Encode(c)[2]) <==> IsWhiteSpace(c))
  {
    RestOf(c);
    SpaceByDigits(c / 64 / 64, c / 64 % 64, c % 64);
  }

  lemma FirstByteIsNoSpace(c: int)
    requires IsScalar(c) && 0x800 <= c
    ensures Encode(c)[0] >= '\U{E0}'
  {
  }

  /** A text begins with white space if its first scalar value is white space. */
  lemma SpaceMeaning(c: int, rest: string)
    requires IsScalar(c)
    ensures SpaceLen(Encode(c) + rest) == if IsWhiteSpace(c) then |Encode(c)| else 0
  {
    EncodingBegins(c);
    var (s, all) := (Encode(c), Encode(c) + rest);
    assert forall k :: 0 <= k < |s| ==> all[k] == s[k];
    if c < 0x800 {
      ShortSpace(c);
    } else {
      FirstByteIsNoSpace(c);
      if c < 0x1_0000 {
        MiddleSpace(c);
      }
    }
  }

  // ----- Lower case -----

  /** What becomes of a rune of several bytes: any table. */
  type CaseTable = string -> string

  /** A table that makes no newlines and leaves white space alone, as that of Unicode does. */
  ghost predicate Lawful(table: CaseTable) {
    forall r :: ('\n' !in r ==> '\n' !in table(r)) && (SpaceLen(r) == |r| ==> table(r) == r)
  }

  /** U+FFFD, which stands for a byte that begins no rune. */
  const REPLACEMENT := "\U{EF}\U{BF}\U{BD}"

  function LowerChar(c: char): char {
    if 'A' <= c <= 'Z' then c + ('a' - 'A') else c
  }

  function LowerRune(r: string, table: CaseTable): string {
    if |r| != 1 then table(r) else if IsASCIIChar(r[0]) then [LowerChar(r[0])] else REPLACEMENT
  }

  /** `strings.ToLower` */
  function ToLower(s: string, table: CaseTable): string {
    if s == "" then "" else LowerRune(s[..RuneLen(s)], table) + ToLower(s[RuneLen(s)..], table)
  }

  lemma RuneLenAppend(a: string, b: string)
    requires a != "" && (b != "" ==> !IsCont(b[0]))
    ensures RuneLen(a + b) == RuneLen(a)
  {
  }

  lemma AssocText3(a: string, b: string, c: string)
    ensures a + (b + c) == a + b + c
  {
  }

  /** Lower-casing goes part by part, where a part does not begin in the middle of a rune. */
  lemma {:induction false} LowerAppend(a: string, b: string, table: CaseTable)
    requires b != "" ==> !IsCont(b[0])
    ensures ToLower(a + b, table) == ToLower(a, table) + ToLower(b, table)
  {
    if a == "" {
      assert a + b == b;
    } else {
      var n := RuneLen(a);
      RuneLenAppend(a, b);
      assert (a + b)[..n] == a[..n] && (a + b)[n..] == a[n..] + b;
      LowerAppend(a[n..], b, table);
      AssocText3(LowerRune(a[..n], table), ToLower(a[n..], table), ToLower(b, table));
    }
  }

  /** A whole rune stays one, whatever follows it. */
  lemma LowerAfterRune(r: string, b: string, table: CaseTable)
    requires r != "" && RuneLen(r) == |r| && (|r| == 1 ==> IsASCIIChar(r[0]))
    ensures ToLower(r + b, table) == LowerRune(r, table) + ToLower(b, table)
  {
    assert RuneLen(r + b) == |r|;
    assert (r + b)[..|r|] == r && (r + b)[|r|..] == b;
  }

  lemma LowerOne(r: string, table: CaseTable)
    requires r != "" && RuneLen(r) == |r|
    ensures ToLower(r, table) == LowerRune(r, table)
  {
    assert r[..|r|] == r;
  }

  lemma {:induction false} LowerMakesNoNewline(s: string, table: CaseTable)
    requires Lawful(table) && '\n' !in s
    ensures '\n' !in ToLower(s, table)
  {
    if s != "" {
      var n := RuneLen(s);
      LowerMakesNoNewline(s[n..], table);
      assert '\n' !in s[..n] && '\n' !in LowerRune(s[..n], table);
    }
  }

  /** Lower-casing keeps the lines apart. */
  lemma LowerLine(line: string, rest: string, table: CaseTable)
    ensures ToLower(line + "\n" + rest, table) == ToLower(line, table) + "\n" + ToLower(rest, table)
  {
    AssocText3(line, "\n", rest);
    LowerAppend(line, "\n" + rest, table);
    LowerAfterRune("\n", rest, table);
    AssocText3(ToLower(line, table), "\n", ToLower(rest, table));
  }

  // ----- Texts whose length is kept -----

  /** Every rune keeps its length. */
  predicate Steady(s: string, table: CaseTable) {
    s == "" || (|LowerRune(s[..RuneLen(s)], table)| == RuneLen(s) && Steady(s[RuneLen(s)..], table))
  }

  lemma {:induction false} SteadyLength(s: string, table: CaseTable)
    requires Steady(s, table)
    ensures |ToLower(s, table)| == |s|
  {
    if s != "" {
      SteadyLength(s[RuneLen(s)..], table);
    }
  }

  lemma {:induction false} SteadyAppend(a: string, b: string, table: CaseTable)
    requires b != "" ==> !IsCont(b[0])
    ensures Steady(a + b, table) <==> Steady(a, table) && Steady(b, table)
  {
    if a == "" {
      assert a + b == b;
    } else {
      var n := RuneLen(a);
      RuneLenAppend(a, b);
      assert (a + b)[..n] == a[..n] && (a + b)[n..] == a[n..] + b;
      SteadyAppend(a[n..], b, table);
    }
  }

  lemma SteadyAfterNewline(rest: string, table: CaseTable)
    ensures Steady("\n" + rest, table) <==> Steady(rest, table)
  {
    assert RuneLen("\n" + rest) == 1 && ("\n" + rest)[..1] == "\n" && ("\n" + rest)[1..] == rest;
  }

  lemma SteadyLine(line: string, rest: string, table: CaseTable)
    ensures Steady(line + "\n" + rest, table) <==> Steady(line, table) && Steady(rest, table)
  {
    AssocText3(line, "\n", rest);
    SteadyAppend(line, "\n" + rest, table);
    SteadyAfterNewline(rest, table);
  }

  predicate IsASCII(s: string) {
    forall i :: 0 <= i < |s| ==> IsASCIIChar(s[i])
  }

  /** On ASCII texts lower-casing goes letter by letter. */
  lemma {:induction false} LowerOfASCII(s: string, table: CaseTable)
    requires IsASCII(s)
    ensures Steady(s, table) && |ToLower(s, table)| == |s|
    ensures forall i :: 0 <= i < |s| ==> ToLower(s, table)[i] == LowerChar(s[i])
  {
    if s != "" {
      assert RuneLen(s) == 1;
      LowerOfASCII(s[1..], table);
    }
  }

  // ----- White space and phrases -----

  /** A phrase that Trim cannot cut: neither its first nor its last byte is part of white space. */
  predicate Solid(w: string) {
    w != "" && SolidChar(w[0]) && SolidChar(w[|w| - 1])
  }

  predicate SolidChar(c: char) {
    IsASCIIChar(c) && !IsSpace(c)
  }

  lemma LowerOfSpace(r: string, table: CaseTable)
    requires Lawful(table) && r != "" && SpaceLen(r) == |r|
    ensures RuneLen(r) == |r| && (|r| == 1 ==> IsASCIIChar(r[0])) && !IsCont(r[0]) && LowerRune(r, table) == r
    ensures forall i :: 0 <= i < |r| ==> !SolidChar(r[i])
  {
  }

  lemma SpaceStart(s: string)
    requires SpaceLen(s) > 0
    ensures var r := s[..SpaceLen(s)]; SpaceLen(r) == |r| && s == r + s[|r|..]
  {
  }

  lemma SpaceStop(s: string)
    requires SpaceLenEnd(s) > 0
    ensures var k := |s| - SpaceLenEnd(s); SpaceLen(s[k..]) == |s[k..]| > 0 && s == s[..k] + s[k..]
  {
  }

  lemma SolidNotBefore(r: string, s: string, w: string)
    requires Solid(w) && forall i :: 0 <= i < |r| ==> !SolidChar(r[i])
    ensures Contains(r + s, w) <==> Contains(s, w)
  {
    var t := r + s;
    assert forall i :: 0 <= i < |r| ==> t[i] == r[i];
    forall i | At(t, w, i)
      ensures i >= |r| && At(s, w, i - |r|)
    {
      assert t[i] == t[i..i + |w|][0] == w[0];
      assert i >= |r| ==> s[i - |r|..i - |r| + |w|] == t[i..i + |w|];
    }
    forall i | At(s, w, i)
      ensures At(t, w, i + |r|)
    {
      assert t[i + |r|..i + |r| + |w|] == s[i..i + |w|];
    }
  }

  lemma SolidNotAfter(s: string, r: string, w: string)
    requires Solid(w) && forall i :: 0 <= i < |r| ==> !SolidChar(r[i])
    ensures Contains(s + r, w) <==> Contains(s, w)
  {
    var t := s + r;
    assert forall i :: |s| <= i < |t| ==> t[i] == r[i - |s|];
    forall i | At(t, w, i)
      ensures At(s, w, i)
    {
      var k := i + |w| - 1;
      assert t[k] == t[i..i + |w|][|w| - 1] == w[|w| - 1];
      assert k < |s| ==> s[i..i + |w|] == t[i..i + |w|];
    }
    forall i | At(s, w, i)
      ensures At(t, w, i)
    {
      assert t[i..i + |w|] == s[i..i + |w|];
    }
  }

  lemma {:induction false} TrimLeftKeeps(s: string, w: string, table: CaseTable)
    requires Lawful(table) && Solid(w)
    ensures Contains(ToLower(TrimLeft(s), table), w) <==> Contains(ToLower(s, table), w)
  {
    if SpaceLen(s) > 0 {
      var (r, rest) := (s[..SpaceLen(s)], s[SpaceLen(s)..]);
      SpaceStart(s);
      LowerOfSpace(r, table);
      LowerAfterRune(r, rest, table);
      SolidNotBefore(r, ToLower(rest, table), w);
      TrimLeftKeeps(rest, w, table);
    }
  }

  lemma {:induction false} TrimRightKeeps(s: string, w: string, table: CaseTable)
    requires Lawful(table) && Solid(w)
    ensures Contains(ToLower(TrimRight(s), table), w) <==> Contains(ToLower(s, table), w)
  {
    if SpaceLenEnd(s) > 0 {
      var k := |s| - SpaceLenEnd(s);
      var (rest, r) := (s[..k], s[k..]);
      SpaceStop(s);
      LowerOfSpace(r, table);
      LowerAppend(rest, r, table);
      LowerOne(r, table);
      SolidNotAfter(ToLower(rest, table), r, w);
      TrimRightKeeps(rest, w, table);
    }
  }

  /** Trimming neither hides a phrase nor makes one. */
  lemma TrimKeeps(s: string, w: string, table: CaseTable)
    requires Lawful(table) && Solid(w)
    ensures Contains(ToLower(Trim(s), table), w) <==> Contains(ToLower(s, table), w)
  {
    TrimRightKeeps(s, w, table);
    TrimLeftKeeps(TrimRight(s), w, table);
  }
}
