/** Dotted quads: an instance of the hosts manager's address parser, which takes every loopback address. */
module IPv4 {
  import opened Wrappers
  import opened IPAllocator
  import opened Text
  import opened Hosts
  import opened HostsTheorems

  predicate IsDigit(c: char) {
    '0' <= c <= '9'
  }

  function Digit(n: int): char
    requires 0 <= n <= 9
  {
    '0' + n as char
  }

  function Value(field: string): int {
    if field == [] then 0
    else 10 * Value(field[..|field| - 1]) + (field[|field| - 1] as int - '0' as int)
  }

  /** One field of an address: a number up to 255 without leading zeros. */
  predicate IsField(field: string) {
    && 1 <= |field| <= 3
    && (forall i :: 0 <= i < |field| ==> IsDigit(field[i]))
    && (|field| > 1 ==> field[0] != '0')
    && Value(field) <= 255
  }

  function Decimal(n: int): (field: string)
    requires 0 <= n <= 255
  {
    if n < 10 then [Digit(n)]
    else if n < 100 then [Digit(n / 10), Digit(n % 10)]
    else [Digit(n / 100), Digit(n / 10 % 10), Digit(n % 10)]
  }

  lemma ValueSnoc(field: string, n: int)
    requires 0 <= n <= 9
    ensures Value(field + [Digit(n)]) == 10 * Value(field) + n
  {
  }

  lemma DigitsValue(a: int, b: int, c: int)
    requires 0 <= a <= 9 && 0 <= b <= 9 && 0 <= c <= 9
    ensures Value([Digit(a)]) == a
    ensures Value([Digit(a), Digit(b)]) == 10 * a + b
    ensures Value([Digit(a), Digit(b), Digit(c)]) == 100 * a + 10 * b + c
  {
    ValueSnoc([], a);
    ValueSnoc([Digit(a)], b);
    ValueSnoc([Digit(a), Digit(b)], c);
    assert [] + [Digit(a)] == [Digit(a)];
    assert [Digit(a)] + [Digit(b)] == [Digit(a), Digit(b)];
    assert [Digit(a), Digit(b)] + [Digit(c)] == [Digit(a), Digit(b), Digit(c)];
  }

  lemma ShortField(n: int)
    requires 0 <= n < 100
    ensures IsField(Decimal(n)) && Value(Decimal(n)) == n
  {
    if n < 10 {
      DigitsValue(n, 0, 0);
    } else {
      DigitsValue(n / 10, n % 10, 0);
    }
  }

  lemma LongField(n: int)
    requires 100 <= n <= 255
    ensures IsField(Decimal(n)) && Value(Decimal(n)) == n
  {
    assert n == 100 * (n / 100) + 10 * (n / 10 % 10) + n % 10;
    DigitsValue(n / 100, n / 10 % 10, n % 10);
  }

  lemma DecimalIsField(n: int)
    requires 0 <= n <= 255
    ensures IsField(Decimal(n)) && Value(Decimal(n)) == n
  {
    if n < 100 {
      ShortField(n);
    } else {
      LongField(n);
    }
  }

  function FieldEnd(s: string): (n: nat)
    ensures n <= |s|
  {
    if s == [] || s[0] == '.' then 0 else 1 + FieldEnd(s[1..])
  }

  /** `count` fields separated by dots. */
  predicate AreFields(s: string, count: nat) {
    count > 0 &&
    var n := FieldEnd(s);
    IsField(s[..n]) && if count == 1 then n == |s| else n < |s| && AreFields(s[n + 1..], count - 1)
  }

  /** A dotted quad has one spelling only, so what it parses to prints as the same text. */
  function ParseIPv4(s: string): Option<string> {
    if AreFields(s, 4) then Some(s) else None
  }

  lemma {:induction false} FieldEndAt(field: string, rest: string)
    requires (forall i :: 0 <= i < |field| ==> field[i] != '.') && (rest != [] ==> rest[0] == '.')
    ensures FieldEnd(field + rest) == |field|
  {
    if field == [] {
      assert field + rest == rest;
    } else {
      assert (field + rest)[1..] == field[1..] + rest;
      FieldEndAt(field[1..], rest);
    }
  }

  lemma {:induction false} FieldsAreNoSpaces(s: string, count: nat)
    requires AreFields(s, count)
    ensures s != "" && (forall i :: 0 <= i < |s| ==> IsDigit(s[i]) || s[i] == '.')
    decreases count
  {
    var n := FieldEnd(s);
    assert forall i :: 0 <= i < n ==> s[i] == s[..n][i];
    if count > 1 {
      FieldEndStops(s);
      FieldsAreNoSpaces(s[n + 1..], count - 1);
      assert forall i :: n < i < |s| ==> s[i] == s[n + 1..][i - n - 1];
    }
  }

  lemma {:induction false} FieldEndStops(s: string)
    ensures FieldEnd(s) < |s| ==> s[FieldEnd(s)] == '.'
  {
    if s != [] && s[0] != '.' {
      FieldEndStops(s[1..]);
    }
  }

  lemma ParseIPv4IsCanonical()
    ensures Canonical(ParseIPv4)
  {
    forall s | ParseIPv4(s).Some?
      ensures ParseIPv4(s) == Some(s) && IsWord(s) && s[0] != '#'
    {
      FieldsAreNoSpaces(s, 4);
    }
  }

  lemma FieldsCons(field: string, rest: string, count: nat)
    requires IsField(field) && AreFields(rest, count)
    ensures AreFields(field + "." + rest, count + 1)
  {
    var s := field + "." + rest;
    assert s == field + ("." + rest);
    assert forall i :: 0 <= i < |field| ==> IsDigit(field[i]) && field[i] != '.';
    FieldEndAt(field, "." + rest);
    assert s[..|field|] == field && s[|field| + 1..] == rest;
  }

  function Loopback(octet: int): string
    requires InRange(octet)
  {
    Decimal(127) + "." + (Decimal(0) + "." + (Decimal(0) + "." + Decimal(octet)))
  }

  lemma LoopbackParses(octet: int)
    requires InRange(octet)
    ensures ParseIPv4(Loopback(octet)) == Some(Loopback(octet)) && |Loopback(octet)| <= 15
  {
    var (a, b, c) := (Decimal(127), Decimal(0), Decimal(octet));
    DecimalIsField(octet);
    DecimalIsField(0);
    DecimalIsField(127);
    LastField(c);
    FieldsCons(b, c, 1);
    FieldsCons(b, b + "." + c, 2);
    FieldsCons(a, b + "." + (b + "." + c), 3);
  }

  lemma LastField(field: string)
    requires IsField(field)
    ensures AreFields(field, 1)
  {
    assert forall i :: 0 <= i < |field| ==> IsDigit(field[i]) && field[i] != '.';
    FieldEndAt(field, "");
    assert field + "" == field && field[..|field|] == field;
  }

  /** Every address that the allocator gives makes a well-formed hosts entry with any hostname that is
      one word of a length that the scanner can take. */
  lemma AllocatedEntryIsWellFormed(octet: int, hostname: string)
    requires InRange(octet) && IsWord(hostname) && |hostname| < MAX_TOKEN - 16
    ensures WellFormed(Entry(Loopback(octet), hostname), ParseIPv4)
  {
    LoopbackParses(octet);
    ParseIPv4IsCanonical();
    assert ParseIPv4(Loopback(octet)).Some?;
  }
}
