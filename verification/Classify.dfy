/** How an ended session's stderr is read: by phrases, without regard to letter case, on its last 8 KiB. */
module Classify {
  import opened Wrappers
  import opened Text
  import opened Unicode
  import opened RingBuffer

  const STDERR_CAPTURE_SIZE := 8192

  const LOADING := "Error loading SSO Token"
  const ASSOCIATED := "The SSO session associated " + "with this profile has expired"
  const REFRESH := "Token has expired " + "and refresh failed"
  const EXCEPTION := "ExpiredTokenException"
  const INCLUDED := "the security token included " + "in the request is expired"
  const SHORT_TERM := "Your short-term " + "credentials have expired"
  const INVALID := "the SSO session has " + "expired or is invalid"
  const CACHED := "cached SSO " + "token is expired"
  const NOT_CONNECTED := "TargetNotConnected"

  const EXPIRED_PATTERNS: seq<string> := [LOADING, ASSOCIATED, REFRESH, EXCEPTION, INCLUDED, SHORT_TERM, INVALID,
    CACHED]

  const TARGET_PATTERNS: seq<string> := [NOT_CONNECTED]

  /** `strings.Index` from position `from` on: the first position of w. */
  function Index(s: string, w: string, from: nat): (r: Option<nat>)
    requires from <= |s| + 1
    ensures r.None? ==> forall i :: from <= i <= |s| ==> !At(s, w, i)
    ensures r.Some? ==> from <= r.value && At(s, w, r.value) && forall i :: from <= i < r.value ==> !At(s, w, i)
    decreases |s| + 1 - from
  {
    if from > |s| then None else if At(s, w, from) then Some(from) else Index(s, w, from + 1)
  }

  /** One past the last newline of s, or 0. */
  function LineStart(s: string): (n: nat)
    ensures n <= |s| && '\n' !in s[n..] && (n > 0 ==> s[n - 1] == '\n')
  {
    if s == [] then 0 else if s[|s| - 1] == '\n' then |s| else LineStart(s[..|s| - 1])
  }

  /** The bounds of the line around a position. */
  function LineAround(lower: string, idx: nat): (r: (nat, nat))
    requires idx <= |lower|
    ensures r.0 <= idx <= r.1 <= |lower|
  {
    (LineStart(lower[..idx]), idx + LineEnd(lower[idx..]))
  }

  /** Some pattern of the list occurs in s, whatever the letter case. */
  predicate HoldsSome(s: string, patterns: seq<string>, table: CaseTable) {
    exists k :: 0 <= k < |patterns| && Contains(ToLower(s, table), ToLower(patterns[k], table))
  }

  predicate ContainsAnyPattern(stderr: string, patterns: seq<string>, table: CaseTable) {
    stderr != "" && HoldsSome(stderr, patterns, table)
  }

  /** The part of stderr from start to stop, trimmed; None when the slice is out of range, which panics. */
  function Slice(stderr: string, start: nat, stop: nat): Option<string> {
    if start <= stop <= |stderr| then Some(Trim(stderr[start..stop])) else None
  }

  /** `firstMatchingLine`: the bounds come from the lower-cased text, the line from the text itself. The
      last line of the text has no newline to end at and goes up to the end of stderr. */
  function FirstMatchingLine(stderr: string, patterns: seq<string>, table: CaseTable): Option<string> {
    if patterns == [] then Some("")
    else
      var lower := ToLower(stderr, table);
      var found := Index(lower, ToLower(patterns[0], table), 0);
      if found.None? then FirstMatchingLine(stderr, patterns[1..], table)
      else
        var (start, stop) := LineAround(lower, found.value);
        Slice(stderr, start, if stop == |lower| then |stderr| else stop)
  }

  /** What `Wait` answers: the process's own error, or one that wraps a sentinel with some detail. A panic
      of the goroutine that waits ends the daemon. */
  datatype Outcome =
    | NoError
    | CredentialsExpired(detail: string)
    | TargetNotConnected(detail: string)
    | ProcessError(text: string)
    | Panic

  function Detail(snippet: string, cause: string): string {
    if snippet == "" then cause else snippet
  }

  function Verdict(err: string, stderr: string, expired: seq<string>, target: seq<string>, table: CaseTable): Outcome {
    if ContainsAnyPattern(stderr, expired, table) then
      match FirstMatchingLine(stderr, expired, table)
      case None => Panic
      case Some(snippet) => CredentialsExpired(Detail(snippet, err))
    else if ContainsAnyPattern(stderr, target, table) then
      match FirstMatchingLine(stderr, target, table)
      case None => Panic
      case Some(snippet) => TargetNotConnected(Detail(snippet, err))
    else ProcessError(err)
  }

  /** `classify`: what the session ends with, from the process's error and the captured stderr. */
  function ClassifyExit(err: Option<string>, stderr: string, table: CaseTable): Outcome {
    if err.None? then NoError else Verdict(err.value, stderr, EXPIRED_PATTERNS, TARGET_PATTERNS, table)
  }

  /** A session whose process wrote these chunks to stderr and then exited. */
  method EndOfSession(chunks: seq<string>, err: Option<string>, table: CaseTable) returns (outcome: Outcome)
    ensures outcome == ClassifyExit(err, Tail(Concat(chunks), STDERR_CAPTURE_SIZE), table)
  {
    if err.None? {
      return NoError;
    }
    var stderr := WriteAll(chunks, STDERR_CAPTURE_SIZE);
    outcome := ClassifyExit(err, stderr, table);
  }

  // ----- The phrases -----

  /** A pattern is a phrase of printable ASCII characters that neither begins nor ends with a blank. */
  predicate IsPhrase(w: string) {
    w != "" && (forall i :: 0 <= i < |w| ==> ' ' <= w[i] <= '~') && w[0] != ' ' && w[|w| - 1] != ' '
  }

  predicate ArePhrases(patterns: seq<string>) {
    forall k :: 0 <= k < |patterns| ==> IsPhrase(patterns[k])
  }

  lemma PatternsArePhrases()
    ensures ArePhrases(EXPIRED_PATTERNS) && ArePhrases(TARGET_PATTERNS)
  {
    LongPhrases();
    MiddlePhrases();
    ShortPhrases();
    forall k | 0 <= k < |EXPIRED_PATTERNS|
      ensures IsPhrase(EXPIRED_PATTERNS[k])
    {
      assert EXPIRED_PATTERNS[k] in {LOADING, ASSOCIATED, REFRESH, EXCEPTION, INCLUDED, SHORT_TERM, INVALID, CACHED};
    }
  }

  lemma LongPhrases()
    ensures IsPhrase(ASSOCIATED) && IsPhrase(INCLUDED)
  {
  }

  lemma MiddlePhrases()
    ensures IsPhrase(REFRESH) && IsPhrase(SHORT_TERM) && IsPhrase(INVALID)
  {
  }

  lemma ShortPhrases()
    ensures IsPhrase(LOADING) && IsPhrase(EXCEPTION) && IsPhrase(CACHED) && IsPhrase(NOT_CONNECTED)
  {
  }

  /** A lower-cased pattern as it is searched for. */
  predicate IsWord(w: string) {
    Solid(w) && '\n' !in w
  }

  lemma LowerPhrase(w: string, table: CaseTable)
    requires IsPhrase(w)
    ensures IsWord(ToLower(w, table))
  {
    assert IsASCII(w);
    LowerOfASCII(w, table);
  }

  // ----- The first occurrence and the line around it -----

  /** w occurs in s at k and at no position before. */
  ghost predicate OccursFirst(s: string, w: string, k: int) {
    At(s, w, k) && forall i :: 0 <= i < k ==> !At(s, w, i)
  }

  /** The line around position k goes from start to stop. */
  ghost predicate Around(s: string, k: int, start: int, stop: int) {
    && 0 <= start <= k <= stop <= |s|
    && (start > 0 ==> s[start - 1] == '\n')
    && (forall i :: start <= i < stop ==> s[i] != '\n')
    && (stop < |s| ==> s[stop] == '\n')
  }

  lemma IndexIs(s: string, w: string, k: nat)
    requires OccursFirst(s, w, k)
    ensures Index(s, w, 0) == Some(k)
  {
    assert !Index(s, w, 0).None?;
  }

  lemma SearchIs(s: string, w: string, k: nat, start: nat, stop: nat)
    requires OccursFirst(s, w, k) && Around(s, k, start, stop)
    ensures Index(s, w, 0) == Some(k) && LineAround(s, k) == (start, stop)
  {
    IndexIs(s, w, k);
    StartIs(s[..k], start);
    StopIs(s[k..], stop - k);
  }

  lemma StartIs(s: string, start: nat)
    requires start <= |s| && (start > 0 ==> s[start - 1] == '\n') && forall i :: start <= i < |s| ==> s[i] != '\n'
    ensures LineStart(s) == start
  {
    var n := LineStart(s);
    assert forall i :: n <= i < |s| ==> s[i] == s[n..][i - n] && s[i] != '\n';
  }

  lemma StopIs(s: string, stop: nat)
    requires stop <= |s| && (stop < |s| ==> s[stop] == '\n') && forall i :: 0 <= i < stop ==> s[i] != '\n'
    ensures LineEnd(s) == stop
  {
    var n := LineEnd(s);
    assert forall i :: 0 <= i < n ==> s[i] == s[..n][i] && s[i] != '\n';
  }

  lemma AtInPart(s: string, i: nat, part: string, w: string, k: nat)
    requires i + |part| <= |s| && s[i..i + |part|] == part && k + |w| <= |part|
    ensures At(s, w, i + k) <==> At(part, w, k)
  {
    assert forall x :: 0 <= x < |part| ==> part[x] == s[i..i + |part|][x] == s[i + x];
    assert part[k..k + |w|] == s[i + k..i + k + |w|];
  }

  /** A word that occurs in the first line of s occurs there first. */
  lemma OccursInFirstLine(s: string, line: string, rest: string, w: string) returns (k: nat)
    requires s == line + rest && '\n' !in line && (rest != "" ==> rest[0] == '\n') && Contains(line, w)
    ensures OccursFirst(s, w, k) && Around(s, k, 0, |line|)
  {
    var i :| 0 <= i <= |line| && At(line, w, i);
    assert s[0..0 + |line|] == line;
    AtInPart(s, 0, line, w, i);
    k := FirstBefore(s, w, i);
  }

  lemma FirstBefore(s: string, w: string, i: nat) returns (k: nat)
    requires At(s, w, i)
    ensures k <= i && OccursFirst(s, w, k)
  {
    k := i;
    if j :| 0 <= j < i && At(s, w, j) {
      k := FirstBefore(s, w, j);
    }
  }

  /** An occurrence does not reach across a newline. */
  lemma NotAcross(s: string, w: string, i: int, n: nat)
    requires At(s, w, i) && '\n' !in w && n < |s| && s[n] == '\n'
    ensures i > n || i + |w| <= n
  {
    assert forall k :: 0 <= k < |w| ==> s[i..i + |w|][k] == w[k];
    assert forall m :: i <= m < i + |w| ==> s[m] == s[i..i + |w|][m - i] && s[m] != '\n';
  }

  lemma AtAfterFirstLine(s: string, line: string, rest: string, w: string, i: int)
    requires s == line + "\n" + rest && '\n' !in w && !Contains(line, w)
    ensures At(s, w, i) <==> i > |line| && At(rest, w, i - |line| - 1)
  {
    var n := |line|;
    assert s[n] == '\n' && s[0..0 + n] == line && s[n + 1..n + 1 + |rest|] == rest;
    if At(s, w, i) {
      NotAcross(s, w, i, n);
      if i + |w| <= n {
        AtInPart(s, 0, line, w, i);
      }
    }
    if i > n && i + |w| <= |s| {
      AtInPart(s, n + 1, rest, w, i - n - 1);
    }
  }

  /** A word that does not occur in the first line occurs first where it does in the text after that line. */
  lemma OccursAfterFirstLine(s: string, line: string, rest: string, w: string, k: int, start: int, stop: int)
    requires s == line + "\n" + rest && '\n' !in w && !Contains(line, w)
    requires OccursFirst(rest, w, k) && Around(rest, k, start, stop)
    ensures var n := |line| + 1; OccursFirst(s, w, n + k) && Around(s, n + k, n + start, n + stop)
  {
    var n := |line| + 1;
    assert s[n - 1] == '\n' && forall i :: n <= i < |s| ==> s[i] == rest[i - n];
    AtAfterFirstLine(s, line, rest, w, n + k);
    forall i | 0 <= i < n + k
      ensures !At(s, w, i)
    {
      AtAfterFirstLine(s, line, rest, w, i);
    }
  }

  lemma NeverAfterFirstLine(s: string, line: string, rest: string, w: string)
    requires s == line + "\n" + rest && '\n' !in w && !Contains(line, w) && !Contains(rest, w)
    ensures !Contains(s, w)
  {
    forall i | At(s, w, i)
      ensures false
    {
      AtAfterFirstLine(s, line, rest, w, i);
    }
  }

  // ----- The matched line -----

  /** A line of a text, with what comes before it and after it. */
  datatype Place = Place(head: string, line: string, rest: string)

  /** The first line of the text that holds the word when lower-cased. */
  function FindLine(text: string, w: string, table: CaseTable): Option<Place>
    decreases |text|
  {
    var n := LineEnd(text);
    if Contains(ToLower(text[..n], table), w) then Some(Place("", text[..n], text[n..]))
    else if n == |text| then None
    else match FindLine(text[n + 1..], w, table)
      case None => None
      case Some(p) => Some(Place(text[..n + 1] + p.head, p.line, p.rest))
  }

  /** The line for the first pattern of the list that occurs. */
  function MatchedLine(text: string, patterns: seq<string>, table: CaseTable): Option<Place> {
    if patterns == [] then None
    else
      var found := FindLine(text, ToLower(patterns[0], table), table);
      if found.Some? then found else MatchedLine(text, patterns[1..], table)
  }

  predicate IsLineOf(p: Place, text: string) {
    && text == p.head + p.line + p.rest
    && (p.head != "" ==> p.head[|p.head| - 1] == '\n')
    && '\n' !in p.line
    && (p.rest != "" ==> p.rest[0] == '\n')
  }

  lemma LaterLine(text: string, first: string, rest: string, p: Place)
    requires text == first + rest && first != "" && first[|first| - 1] == '\n' && IsLineOf(p, rest)
    ensures IsLineOf(p.(head := first + p.head), text)
  {
    AssocText3(first, p.head, p.line + p.rest);
    AssocText3(p.head, p.line, p.rest);
    AssocText3(first + p.head, p.line, p.rest);
  }

  lemma FirstLine(text: string, n: nat)
    requires n <= |text| && '\n' !in text[..n] && (n < |text| ==> text[n] == '\n')
    ensures IsLineOf(Place("", text[..n], text[n..]), text)
    ensures n < |text| ==> text == text[..n + 1] + text[n + 1..] && text[..n + 1] == text[..n] + "\n"
    ensures n < |text| ==> text == text[..n] + "\n" + text[n + 1..]
  {
  }

  lemma {:induction false} FoundIsLine(text: string, w: string, table: CaseTable)
    ensures var found := FindLine(text, w, table);
      found.Some? ==> IsLineOf(found.value, text) && Contains(ToLower(found.value.line, table), w)
    decreases |text|
  {
    var n := LineEnd(text);
    FirstLine(text, n);
    if !Contains(ToLower(text[..n], table), w) && n < |text| {
      FoundIsLine(text[n + 1..], w, table);
      var found := FindLine(text[n + 1..], w, table);
      if found.Some? {
        var p := found.value;
        LaterLine(text, text[..n + 1], text[n + 1..], p);
        assert FindLine(text, w, table) == Some(p.(head := text[..n + 1] + p.head));
      }
    }
  }

  /** Where the line stands in the lower-cased text. */
  function LowerStart(p: Place, table: CaseTable): nat {
    |ToLower(p.head, table)|
  }

  function LowerStop(p: Place, table: CaseTable): nat {
    LowerStart(p, table) + |ToLower(p.line, table)|
  }

  /** The search in the lower-cased text finds the line; it is the last one exactly when its end there is
      the end of the lower-cased text. */
  ghost predicate Finds(lower: string, w: string, p: Place, table: CaseTable) {
    && (exists k :: OccursFirst(lower, w, k) && Around(lower, k, LowerStart(p, table), LowerStop(p, table)))
    && (p.rest == "" <==> LowerStop(p, table) == |lower|)
  }

  lemma LowerOfRest(rest: string, table: CaseTable)
    ensures rest == "" ==> ToLower(rest, table) == ""
    ensures rest != "" && rest[0] == '\n' ==> ToLower(rest, table) != "" && ToLower(rest, table)[0] == '\n'
  {
    if rest != "" && rest[0] == '\n' {
      assert rest == "\n" + rest[1..];
      LowerAfterRune("\n", rest[1..], table);
    }
  }

  lemma FindsInFirstLine(text: string, line: string, rest: string, w: string, table: CaseTable)
    requires Lawful(table) && text == line + rest && '\n' !in line && (rest != "" ==> rest[0] == '\n')
    requires Contains(ToLower(line, table), w)
    ensures Finds(ToLower(text, table), w, Place("", line, rest), table)
  {
    LowerAppend(line, rest, table);
    LowerMakesNoNewline(line, table);
    LowerOfRest(rest, table);
    var k := OccursInFirstLine(ToLower(text, table), ToLower(line, table), ToLower(rest, table), w);
    assert LowerStart(Place("", line, rest), table) == 0;
  }

  lemma FindsLater(lower: string, first: string, rest: string, w: string, p: Place, later: Place, table: CaseTable)
    requires lower == first + "\n" + rest && '\n' !in w && !Contains(first, w) && Finds(rest, w, p, table)
    requires later.line == p.line && later.rest == p.rest &&
      LowerStart(later, table) == |first| + 1 + LowerStart(p, table)
    ensures Finds(lower, w, later, table)
  {
    var k :| OccursFirst(rest, w, k) && Around(rest, k, LowerStart(p, table), LowerStop(p, table));
    OccursAfterFirstLine(lower, first, rest, w, k, LowerStart(p, table), LowerStop(p, table));
    assert LowerStop(later, table) == |first| + 1 + LowerStop(p, table);
  }

  lemma FindsAfterFirstLine(text: string, line: string, rest: string, w: string, p: Place, table: CaseTable)
    requires Lawful(table) && IsWord(w) && text == line + "\n" + rest && !Contains(ToLower(line, table), w)
    requires Finds(ToLower(rest, table), w, p, table)
    ensures Finds(ToLower(text, table), w, p.(head := line + "\n" + p.head), table)
  {
    LowerLine(line, rest, table);
    LowerLine(line, p.head, table);
    FindsLater(ToLower(text, table), ToLower(line, table), ToLower(rest, table), w, p,
               p.(head := line + "\n" + p.head), table);
  }

  /** Searching the lower-cased text finds the line that holds the word, where its lower case stands. */
  lemma {:induction false} SearchFindsLine(text: string, w: string, table: CaseTable)
    requires Lawful(table) && IsWord(w)
    ensures var p := FindLine(text, w, table);
      if p.None? then !Contains(ToLower(text, table), w) else Finds(ToLower(text, table), w, p.value, table)
    decreases |text|
  {
    var n := LineEnd(text);
    FirstLine(text, n);
    if Contains(ToLower(text[..n], table), w) {
      assert text[..n] + text[n..] == text;
      FindsInFirstLine(text, text[..n], text[n..], w, table);
    } else if n == |text| {
      assert text[..n] == text;
    } else {
      var (line, rest) := (text[..n], text[n + 1..]);
      SearchFindsLine(rest, w, table);
      if FindLine(rest, w, table).Some? {
        FindsAfterFirstLine(text, line, rest, w, FindLine(rest, w, table).value, table);
      } else {
        LowerLine(line, rest, table);
        NeverAfterFirstLine(ToLower(text, table), ToLower(line, table), ToLower(rest, table), w);
      }
    }
  }

  // ----- The snippet -----

  /** The slice that should hold the matched line ends beyond stderr, or begins there when the line is the
      last: the lower case of what comes up to there is longer than the whole of stderr. */
  predicate OutOfRange(text: string, p: Place, table: CaseTable) {
    (if p.rest == "" then LowerStart(p, table) else LowerStop(p, table)) > |text|
  }

  /** What the slice holds: the matched line, shifted by how much longer or shorter the lower case is of
      what comes before it, and of the line. */
  function Shown(text: string, p: Place, table: CaseTable): string
    requires !OutOfRange(text, p, table)
  {
    text[LowerStart(p, table)..if p.rest == "" then |text| else LowerStop(p, table)]
  }

  /** The lower case of what comes before the line, and of the line unless it is the last, is as long. */
  predicate KeepsPlace(p: Place, table: CaseTable) {
    |ToLower(p.head, table)| == |p.head| && (p.rest != "" ==> |ToLower(p.line, table)| == |p.line|)
  }

  lemma HoldsSomeTail(s: string, patterns: seq<string>, table: CaseTable)
    requires patterns != []
    ensures HoldsSome(s, patterns, table) <==>
      Contains(ToLower(s, table), ToLower(patterns[0], table)) || HoldsSome(s, patterns[1..], table)
  {
  }

  /** Some pattern occurs exactly when some line holds one; and that line then holds one. */
  lemma {:induction false} MatchedLineHolds(text: string, patterns: seq<string>, table: CaseTable)
    requires Lawful(table) && ArePhrases(patterns)
    ensures HoldsSome(text, patterns, table) <==> MatchedLine(text, patterns, table).Some?
    ensures MatchedLine(text, patterns, table).Some? ==>
      var p := MatchedLine(text, patterns, table).value;
      IsLineOf(p, text) && HoldsSome(p.line, patterns, table)
  {
    if patterns != [] {
      var w := ToLower(patterns[0], table);
      LowerPhrase(patterns[0], table);
      SearchFindsLine(text, w, table);
      FoundIsLine(text, w, table);
      HoldsSomeTail(text, patterns, table);
      MatchedLineHolds(text, patterns[1..], table);
      if MatchedLine(text, patterns, table).Some? {
        HoldsSomeTail(MatchedLine(text, patterns, table).value.line, patterns, table);
      }
    }
  }

  lemma NotContained(s: string, w: string)
    requires !Contains(s, w)
    ensures Index(s, w, 0).None?
  {
  }

  /** The snippet is the slice where the lower case of the matched line stands; when that is out of range,
      taking it panics. */
  lemma {:induction false} SnippetIsShiftedLine(text: string, patterns: seq<string>, table: CaseTable)
    requires Lawful(table) && ArePhrases(patterns)
    ensures FirstMatchingLine(text, patterns, table) ==
      var p := MatchedLine(text, patterns, table);
      if p.None? then Some("")
      else if OutOfRange(text, p.value, table) then None
      else Some(Trim(Shown(text, p.value, table)))
  {
    if patterns != [] {
      var (lower, w) := (ToLower(text, table), ToLower(patterns[0], table));
      LowerPhrase(patterns[0], table);
      SearchFindsLine(text, w, table);
      var found := FindLine(text, w, table);
      if found.None? {
        NotContained(lower, w);
        SnippetIsShiftedLine(text, patterns[1..], table);
      } else {
        var p := found.value;
        var k :| OccursFirst(lower, w, k) && Around(lower, k, LowerStart(p, table), LowerStop(p, table));
        SearchIs(lower, w, k, LowerStart(p, table), LowerStop(p, table));
      }
    }
  }

  lemma TrimKeepsPhrases(s: string, patterns: seq<string>, table: CaseTable)
    requires Lawful(table) && ArePhrases(patterns)
    ensures HoldsSome(Trim(s), patterns, table) <==> HoldsSome(s, patterns, table)
  {
    forall i | 0 <= i < |patterns|
      ensures Contains(ToLower(Trim(s), table), ToLower(patterns[i], table)) <==>
        Contains(ToLower(s, table), ToLower(patterns[i], table))
    {
      LowerPhrase(patterns[i], table);
      TrimKeeps(s, ToLower(patterns[i], table), table);
    }
  }

  lemma NothingInEmpty(patterns: seq<string>, table: CaseTable)
    requires ArePhrases(patterns)
    ensures !HoldsSome("", patterns, table)
  {
    forall i | 0 <= i < |patterns|
      ensures !Contains("", ToLower(patterns[i], table))
    {
      LowerPhrase(patterns[i], table);
    }
  }

  /** The slice is the matched line's own place exactly when the line keeps its place in the lower-cased
      text; then it is in range, and the snippet shows a phrase. In any case trimming hides no phrase. */
  lemma SnippetShowsPhrase(text: string, patterns: seq<string>, p: Place, table: CaseTable)
    requires Lawful(table) && ArePhrases(patterns) && MatchedLine(text, patterns, table) == Some(p)
    ensures KeepsPlace(p, table) <==>
      LowerStart(p, table) == |p.head| && (p.rest == "" || LowerStop(p, table) == |p.head + p.line|)
    ensures KeepsPlace(p, table) ==> !OutOfRange(text, p, table) && Shown(text, p, table) == p.line
    ensures !OutOfRange(text, p, table) ==>
      var snippet := Trim(Shown(text, p, table));
      && (HoldsSome(snippet, patterns, table) <==> HoldsSome(Shown(text, p, table), patterns, table))
      && (KeepsPlace(p, table) ==> HoldsSome(snippet, patterns, table) && snippet != "")
  {
    MatchedLineHolds(text, patterns, table);
    assert text == p.head + p.line + p.rest;
    if !OutOfRange(text, p, table) {
      TrimKeepsPhrases(Shown(text, p, table), patterns, table);
      NothingInEmpty(patterns, table);
    }
  }

  /** Where every rune keeps its length, as in ASCII texts, every line keeps its place. */
  lemma SteadyKeepsPlace(text: string, p: Place, table: CaseTable)
    requires Steady(text, table) && IsLineOf(p, text)
    ensures KeepsPlace(p, table)
  {
    AssocText3(p.head, p.line, p.rest);
    if p.rest == "" {
      assert p.head + p.line + p.rest == p.head + p.line;
    } else {
      SteadyAppend(p.head + p.line, p.rest, table);
    }
    SteadyHead(p.head, p.line, table);
  }

  lemma SteadyHead(head: string, line: string, table: CaseTable)
    requires Steady(head + line, table) && (head != "" ==> head[|head| - 1] == '\n')
    ensures |ToLower(head, table)| == |head| && |ToLower(line, table)| == |line|
  {
    if head == "" {
      assert head + line == line;
    } else {
      var init := head[..|head| - 1];
      assert init + "\n" == head && init + "\n" + line == head + line && init + "\n" + "" == head;
      SteadyLine(init, line, table);
      SteadyLine(init, "", table);
      SteadyLength(head, table);
    }
    SteadyLength(line, table);
  }

  // ----- The verdict -----

  /** What the verdict is when a phrase of these occurs: a panic exactly when the matched line is out of
      range, else the snippet, or the process's error when the snippet is empty. */
  ghost predicate Reports(outcome: Outcome, err: string, text: string, patterns: seq<string>, table: CaseTable) {
    match MatchedLine(text, patterns, table)
    case None => false
    case Some(p) =>
      if OutOfRange(text, p, table) then outcome.Panic?
      else
        && (outcome.CredentialsExpired? || outcome.TargetNotConnected?)
        && outcome.detail == (var shown := Trim(Shown(text, p, table)); if shown == "" then err else shown)
        && (KeepsPlace(p, table) ==> HoldsSome(outcome.detail, patterns, table))
  }

  lemma VerdictByPhrases(err: string, stderr: string, expired: seq<string>, target: seq<string>, table: CaseTable)
    requires Lawful(table) && ArePhrases(expired) && ArePhrases(target)
    ensures var outcome := Verdict(err, stderr, expired, target, table);
      if HoldsSome(stderr, expired, table) then !outcome.TargetNotConnected? &&
        Reports(outcome, err, stderr, expired, table)
      else if HoldsSome(stderr, target, table) then
        !outcome.CredentialsExpired? && Reports(outcome, err, stderr, target, table)
      else outcome == ProcessError(err)
  {
    NothingInEmpty(expired, table);
    NothingInEmpty(target, table);
    MatchedLineHolds(stderr, expired, table);
    MatchedLineHolds(stderr, target, table);
    SnippetIsShiftedLine(stderr, expired, table);
    SnippetIsShiftedLine(stderr, target, table);
    if HoldsSome(stderr, expired, table) {
      SnippetShowsPhrase(stderr, expired, MatchedLine(stderr, expired, table).value, table);
    } else if HoldsSome(stderr, target, table) {
      SnippetShowsPhrase(stderr, target, MatchedLine(stderr, target, table).value, table);
    }
  }

  /** The verdict on a failed session, for any text and any table of letters: expired credentials take
      precedence, and the detail is the matched line where the lower-cased text has it. */
  lemma {:induction false} VerdictMeaning(err: string, stderr: string, table: CaseTable)
    requires Lawful(table)
    ensures var outcome := ClassifyExit(Some(err), stderr, table);
      if HoldsSome(stderr, EXPIRED_PATTERNS, table) then
        !outcome.TargetNotConnected? && Reports(outcome, err, stderr, EXPIRED_PATTERNS, table)
      else if HoldsSome(stderr, TARGET_PATTERNS, table) then
        !outcome.CredentialsExpired? && Reports(outcome, err, stderr, TARGET_PATTERNS, table)
      else outcome == ProcessError(err)
  {
    PatternsArePhrases();
    VerdictByPhrases(err, stderr, EXPIRED_PATTERNS, TARGET_PATTERNS, table);
  }

  /** On texts whose runes keep their length, ASCII texts among them, nothing panics and every verdict
      shows its phrase. */
  lemma {:induction false} VerdictOnSteadyText(err: string, stderr: string, table: CaseTable)
    requires Lawful(table) && (IsASCII(stderr) || Steady(stderr, table))
    ensures var outcome := ClassifyExit(Some(err), stderr, table);
      && (outcome.CredentialsExpired? <==> HoldsSome(stderr, EXPIRED_PATTERNS, table))
      && (outcome.TargetNotConnected? <==>
            HoldsSome(stderr, TARGET_PATTERNS, table) && !HoldsSome(stderr, EXPIRED_PATTERNS, table))
      && (outcome.CredentialsExpired? ==> HoldsSome(outcome.detail, EXPIRED_PATTERNS, table))
      && (outcome.TargetNotConnected? ==> HoldsSome(outcome.detail, TARGET_PATTERNS, table))
      && !outcome.Panic?
  {
    if IsASCII(stderr) {
      LowerOfASCII(stderr, table);
    }
    PatternsArePhrases();
    VerdictMeaning(err, stderr, table);
    MatchedIsSteady(stderr, EXPIRED_PATTERNS, table);
    MatchedIsSteady(stderr, TARGET_PATTERNS, table);
  }

  lemma MatchedIsSteady(text: string, patterns: seq<string>, table: CaseTable)
    requires Lawful(table) && ArePhrases(patterns) && Steady(text, table)
    ensures var p := MatchedLine(text, patterns, table);
      p.Some? ==> KeepsPlace(p.value, table) && !OutOfRange(text, p.value, table)
  {
    MatchedLineHolds(text, patterns, table);
    if MatchedLine(text, patterns, table).Some? {
      var p := MatchedLine(text, patterns, table).value;
      SteadyKeepsPlace(text, p, table);
      SnippetShowsPhrase(text, patterns, p, table);
    }
  }

  /** Two processes whose stderr agrees on its last 8 KiB get the same verdict, however it was chunked. */
  lemma {:induction false} VerdictDependsOnTail(err: Option<string>, chunks: seq<string>, others: seq<string>,
                                                table: CaseTable)
    requires Tail(Concat(chunks), STDERR_CAPTURE_SIZE) == Tail(Concat(others), STDERR_CAPTURE_SIZE)
    ensures ClassifyExit(err, Kept(chunks, STDERR_CAPTURE_SIZE), table) ==
      ClassifyExit(err, Kept(others, STDERR_CAPTURE_SIZE), table)
  {
    KeptIsTail(chunks, STDERR_CAPTURE_SIZE);
    KeptIsTail(others, STDERR_CAPTURE_SIZE);
  }

  // ----- Texts on which the offsets do not fit -----

  /** The capture may cut a rune in two: what is left of it begins no rune and grows in lower case. */
  lemma CaptureCutsRune(rune: string, rest: string, table: CaseTable)
    requires |rune| == 2 && Begins2(rune[0], rune[1]) && |rest| == STDERR_CAPTURE_SIZE - 1
    ensures var stderr := Tail(Concat([rune, rest]), STDERR_CAPTURE_SIZE);
      stderr == rune[1..] + rest && RuneLen(stderr) == 1 && |LowerRune(stderr[..1], table)| == 3 &&
        !Steady(stderr, table)
  {
    assert [rune, rest][..1] == [rune] && [rune][..0] == [];
    assert Concat([rune]) == "" + rune && Concat([rune, rest]) == rune + rest;
    assert (rune + rest)[1..] == rune[1..] + rest;
  }

  const INVALID_BYTE := "\U{FF}"

  lemma LowerOfInvalidByte(table: CaseTable)
    ensures ToLower(INVALID_BYTE, table) == REPLACEMENT
  {
    LowerOne(INVALID_BYTE, table);
  }

  /** A letter that a text does not have occurs in no part of it. */
  lemma NeedsLetter(s: string, w: string, c: char)
    requires c !in s && c in w
    ensures !Contains(s, w)
  {
    if Contains(s, w) {
      var i :| 0 <= i <= |s| && At(s, w, i);
      LettersOf(s, w, i);
    }
  }

  lemma LettersOf(s: string, w: string, i: int)
    requires At(s, w, i)
    ensures forall k :: 0 <= k < |w| ==> w[k] in s
  {
    var part := s[i..i + |w|];
    assert forall k :: 0 <= k < |part| ==> part[k] in s;
  }

  /** Where each phrase of expired credentials has an i. */
  const AN_I := [10, 12, 13, 3, 9, 23, 12, 17]

  lemma ExpiredLetters()
    ensures forall k :: 0 <= k < 8 ==> AN_I[k] < |EXPIRED_PATTERNS[k]| && EXPIRED_PATTERNS[k][AN_I[k]] == 'i'
  {
    assert LOADING[10] == 'i' && ASSOCIATED[12] == 'i' && REFRESH[13] == 'i' && EXCEPTION[3] == 'i';
    assert INCLUDED[9] == 'i' && SHORT_TERM[23] == 'i' && INVALID[12] == 'i' && CACHED[17] == 'i';
  }

  lemma LowerKeepsI(w: string, k: nat, table: CaseTable)
    requires IsPhrase(w) && k < |w| && w[k] == 'i'
    ensures 'i' in ToLower(w, table)
  {
    assert IsASCII(w);
    LowerOfASCII(w, table);
    assert ToLower(w, table)[k] == 'i';
  }

  lemma ExpiredPhrasesHaveI(table: CaseTable)
    ensures forall k :: 0 <= k < |EXPIRED_PATTERNS| ==> 'i' in ToLower(EXPIRED_PATTERNS[k], table)
  {
    PatternsArePhrases();
    ExpiredLetters();
    forall k | 0 <= k < |EXPIRED_PATTERNS|
      ensures 'i' in ToLower(EXPIRED_PATTERNS[k], table)
    {
      LowerKeepsI(EXPIRED_PATTERNS[k], AN_I[k], table);
    }
  }

  lemma NothingExpired(text: string, table: CaseTable)
    requires 'i' !in ToLower(text, table)
    ensures !HoldsSome(text, EXPIRED_PATTERNS, table)
  {
    ExpiredPhrasesHaveI(table);
    forall k | 0 <= k < |EXPIRED_PATTERNS|
      ensures !Contains(ToLower(text, table), ToLower(EXPIRED_PATTERNS[k], table))
    {
      NeedsLetter(ToLower(text, table), ToLower(EXPIRED_PATTERNS[k], table), 'i');
    }
  }

  lemma FindHere(line: string, rest: string, w: string, table: CaseTable)
    requires '\n' !in line && (rest != "" ==> rest[0] == '\n') && Contains(ToLower(line, table), w)
    ensures FindLine(line + rest, w, table) == Some(Place("", line, rest))
  {
    LineEndAt(line, rest);
    assert (line + rest)[..|line|] == line && (line + rest)[|line|..] == rest;
  }

  lemma FindBelow(line: string, rest: string, w: string, p: Place, table: CaseTable)
    requires '\n' !in line && !Contains(ToLower(line, table), w) && FindLine(rest, w, table) == Some(p)
    ensures FindLine(line + "\n" + rest, w, table) == Some(p.(head := line + "\n" + p.head))
  {
    var text := line + "\n" + rest;
    AssocText3(line, "\n", rest);
    LineEndAt(line, "\n" + rest);
    assert text[..|line|] == line && text[|line| + 1..] == rest && text[..|line| + 1] == line + "\n";
  }

  /** A byte that begins no rune, a phrase on the next line, and what follows it. */
  function ShiftedText(phrase: string, rest: string): string {
    INVALID_BYTE + "\n" + (phrase + "\n" + rest)
  }

  function ShiftedPlace(phrase: string, rest: string): Place {
    Place(INVALID_BYTE + "\n", phrase, "\n" + rest)
  }

  /** A phrase that nothing expired and no replacement character has a part in. */
  predicate Telling(phrase: string, table: CaseTable) {
    var w := ToLower(phrase, table);
    IsPhrase(phrase) && |w| == |phrase| && 'i' !in w && !Contains(REPLACEMENT, w)
  }

  lemma ContainsItself(w: string)
    ensures Contains(w, w)
  {
    assert w[0..0 + |w|] == w && At(w, w, 0);
  }

  lemma ShiftedLine(phrase: string, rest: string, table: CaseTable)
    requires Telling(phrase, table)
    ensures FindLine(ShiftedText(phrase, rest), ToLower(phrase, table), table) == Some(ShiftedPlace(phrase, rest))
  {
    var w := ToLower(phrase, table);
    LowerOfInvalidByte(table);
    ContainsItself(w);
    AssocText3(phrase, "\n", rest);
    FindHere(phrase, "\n" + rest, w, table);
    FindBelow(INVALID_BYTE, phrase + "\n" + rest, w, Place("", phrase, "\n" + rest), table);
    assert INVALID_BYTE + "\n" + "" == INVALID_BYTE + "\n";
  }

  lemma ShiftedHead(table: CaseTable)
    ensures |ToLower(INVALID_BYTE + "\n", table)| == 4 && |INVALID_BYTE + "\n"| == 2
  {
    LowerOfInvalidByte(table);
    LowerLine(INVALID_BYTE, "", table);
    assert INVALID_BYTE + "\n" + "" == INVALID_BYTE + "\n";
  }

  lemma NotInParts(a: string, b: string, c: string, d: char)
    requires d !in a && d !in b && d !in c
    ensures d !in a + b + c
  {
  }

  lemma ShiftedHasNoI(phrase: string, rest: string, table: CaseTable)
    requires Telling(phrase, table) && 'i' !in ToLower(rest, table)
    ensures 'i' !in ToLower(ShiftedText(phrase, rest), table)
  {
    LowerOfInvalidByte(table);
    LowerLine(phrase, rest, table);
    NotInParts(ToLower(phrase, table), "\n", ToLower(rest, table), 'i');
    LowerLine(INVALID_BYTE, phrase + "\n" + rest, table);
    NotInParts(REPLACEMENT, "\n", ToLower(phrase + "\n" + rest, table), 'i');
  }

  lemma ShiftedReport(err: string, phrase: string, rest: string, table: CaseTable)
    requires Lawful(table) && Telling(phrase, table) && TARGET_PATTERNS == [phrase] && 'i' !in ToLower(rest, table)
    ensures var (text, p) := (ShiftedText(phrase, rest), ShiftedPlace(phrase, rest));
      var outcome := ClassifyExit(Some(err), text, table);
      && MatchedLine(text, TARGET_PATTERNS, table) == Some(p) && LowerStart(p, table) == 4 &&
        LowerStop(p, table) == 4 + |phrase|
      && !outcome.CredentialsExpired? && Reports(outcome, err, text, TARGET_PATTERNS, table)
  {
    var text := ShiftedText(phrase, rest);
    PatternsArePhrases();
    ShiftedLine(phrase, rest, table);
    ShiftedHead(table);
    ShiftedHasNoI(phrase, rest, table);
    NothingExpired(text, table);
    MatchedLineHolds(text, TARGET_PATTERNS, table);
    VerdictMeaning(err, text, table);
  }

  lemma ShiftedPanic(err: string, phrase: string, table: CaseTable)
    requires Lawful(table) && Telling(phrase, table) && TARGET_PATTERNS == [phrase]
    ensures ClassifyExit(Some(err), ShiftedText(phrase, ""), table) == Panic
  {
    ShiftedReport(err, phrase, "", table);
    ShiftedHead(table);
    assert |ShiftedText(phrase, "")| == 3 + |phrase|;
    assert OutOfRange(ShiftedText(phrase, ""), ShiftedPlace(phrase, ""), table);
  }

  lemma ShiftedSlice(phrase: string, rest: string)
    requires |phrase| >= 2 && |rest| == 1
    ensures var text := ShiftedText(phrase, rest);
      |text| == 4 + |phrase| && text[4..4 + |phrase|] == phrase[2..] + "\n" + rest
  {
    var text := ShiftedText(phrase, rest);
    assert text == (INVALID_BYTE + "\n" + phrase[..2]) + (phrase[2..] + "\n" + rest);
  }

  lemma ShiftedShown(phrase: string, rest: string, table: CaseTable)
    requires |phrase| >= 2 && |rest| == 1
    requires var p := ShiftedPlace(phrase, rest); LowerStart(p, table) == 4 && LowerStop(p, table) == 4 + |phrase|
    ensures var (text, p) := (ShiftedText(phrase, rest), ShiftedPlace(phrase, rest));
      !OutOfRange(text, p, table) && Shown(text, p, table) == phrase[2..] + "\n" + rest
  {
    ShiftedSlice(phrase, rest);
  }

  lemma ShiftedDetail(err: string, phrase: string, rest: string, table: CaseTable)
    requires Lawful(table) && Telling(phrase, table) && TARGET_PATTERNS == [phrase] && 'i' !in ToLower(rest, table)
    requires |phrase| >= 2 && |rest| == 1
    ensures ClassifyExit(Some(err), ShiftedText(phrase, rest), table) ==
      TargetNotConnected(Detail(Trim(phrase[2..] + "\n" + rest), err))
  {
    ShiftedReport(err, phrase, rest, table);
    ShiftedShown(phrase, rest, table);
  }

  lemma TargetLetters()
    ensures IsPhrase(NOT_CONNECTED) && forall k :: 0 <= k < |NOT_CONNECTED| ==> LowerChar(NOT_CONNECTED[k]) != 'i'
  {
    PatternsArePhrases();
  }

  lemma TargetIsTelling(table: CaseTable)
    ensures Telling(NOT_CONNECTED, table)
  {
    TargetLetters();
    assert IsASCII(NOT_CONNECTED) && NOT_CONNECTED[0] == 'T';
    LowerOfASCII(NOT_CONNECTED, table);
    assert ToLower(NOT_CONNECTED, table)[0] == 't';
    NeedsLetter(REPLACEMENT, ToLower(NOT_CONNECTED, table), 't');
  }

  lemma TargetTells(phrase: string, table: CaseTable)
    requires TARGET_PATTERNS == [phrase]
    ensures Telling(phrase, table) && phrase == NOT_CONNECTED
  {
    assert [phrase][0] == phrase;
    TargetIsTelling(table);
  }

  /** Two lines, the first one byte that begins no rune, the second the phrase of a lost target: classifying
      this stderr panics, whatever the table of letters. */
  lemma InvalidByteEndsDaemon(err: string, phrase: string, table: CaseTable)
    requires Lawful(table) && TARGET_PATTERNS == [phrase]
    ensures ClassifyExit(Some(err), INVALID_BYTE + "\n" + (phrase + "\n" + ""), table) == Panic
  {
    TargetTells(phrase, table);
    ShiftedPanic(err, phrase, table);
  }

  const HIDDEN := "rgetNotConnected" + "\n1"

  lemma HiddenLetters()
    ensures IsASCII(HIDDEN) && (forall k :: 0 <= k < |HIDDEN| ==> LowerChar(HIDDEN[k]) != 'a')
    ensures HIDDEN == NOT_CONNECTED[2..] + "\n" + "1" && Trim(HIDDEN) == HIDDEN
  {
    NothingToTrim(HIDDEN);
  }

  lemma NoLetterA(shown: string, phrase: string, table: CaseTable)
    requires IsASCII(shown) && (forall k :: 0 <= k < |shown| ==> LowerChar(shown[k]) != 'a')
    requires IsPhrase(phrase) && |phrase| >= 2 && phrase[1] == 'a'
    ensures !HoldsSome(shown, [phrase], table)
  {
    LowerOfASCII(shown, table);
    assert IsASCII(phrase);
    LowerOfASCII(phrase, table);
    assert ToLower(phrase, table)[1] == 'a';
    NeedsLetter(ToLower(shown, table), ToLower(phrase, table), 'a');
  }

  lemma HiddenShows(phrase: string, table: CaseTable)
    requires TARGET_PATTERNS == [phrase]
    ensures |phrase| == 18 && phrase[2..] + "\n" + "1" == HIDDEN && Detail(Trim(HIDDEN), "") == HIDDEN != ""
    ensures !HoldsSome(HIDDEN, [phrase], table)
  {
    TargetTells(phrase, table);
    HiddenLetters();
    assert NOT_CONNECTED[1] == 'a';
    NoLetterA(HIDDEN, phrase, table);
  }

  lemma DigitHasNoI(table: CaseTable)
    ensures 'i' !in ToLower("1", table)
  {
    LowerOfASCII("1", table);
  }

  /** With one more byte behind them the slice is in range, and shows no phrase. */
  lemma InvalidByteHidesPhrase(err: string, phrase: string, table: CaseTable)
    requires Lawful(table) && TARGET_PATTERNS == [phrase]
    ensures ClassifyExit(Some(err), INVALID_BYTE + "\n" + (phrase + "\n" + "1"), table) == TargetNotConnected(HIDDEN)
    ensures !HoldsSome(HIDDEN, [phrase], table)
  {
    TargetTells(phrase, table);
    DigitHasNoI(table);
    HiddenShows(phrase, table);
    ShiftedDetail(err, phrase, "1", table);
  }
}
