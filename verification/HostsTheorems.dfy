/** What the hosts manager promises: the round trip of the block, and any sequence of edits as an ordered list. */
module HostsTheorems {
  import opened Wrappers
  import opened Text
  import opened Hosts

  // ----- Reading back what was printed -----

  /** A line that the scanner can deliver. */
  predicate Clean(line: string) {
    '\n' !in line && |line| < MAX_TOKEN
  }

  predicate AllClean(lines: seq<string>) {
    forall i :: 0 <= i < |lines| ==> Clean(lines[i])
  }

  lemma {:induction false} LinesClean(s: string)
    ensures AllClean(Lines(s))
    decreases |s|
  {
    if s != [] && LineEnd(s) < MAX_TOKEN && LineEnd(s) < |s| {
      LinesClean(s[LineEnd(s) + 1..]);
    }
  }

  lemma LinesCons(line: string, rest: string)
    requires Clean(line)
    ensures Lines(line + "\n" + rest) == [DropCR(line)] + Lines(rest)
  {
    var s := line + "\n" + rest;
    assert s == line + ("\n" + rest);
    LineEndAt(line, "\n" + rest);
    assert s[..|line|] == line && s[|line| + 1..] == rest;
  }

  /** The text of some lines, then a last line without its newline. */
  lemma {:induction false} LinesOfJoin(lines: seq<string>, last: string)
    requires AllClean(lines) && Clean(last)
    ensures Lines(Join(lines) + last) == DropCRs(lines) + if last == "" then [] else [DropCR(last)]
  {
    if lines == [] {
      assert Join(lines) + last == last;
      LineEndAt(last, "");
      assert last + "" == last && last[..|last|] == last;
    } else {
      LinesOfJoin(lines[1..], last);
      assert Join(lines) + last == lines[0] + "\n" + (Join(lines[1..]) + last);
      LinesCons(lines[0], Join(lines[1..]) + last);
    }
  }

  lemma MarkersTrim()
    ensures Trim(BEGIN) == BEGIN && Trim(END) == END && BEGIN != END
  {
    assert |BEGIN| == 17 && BEGIN[0] == '#' && BEGIN[15] == 'c' && BEGIN[16] == 'h';
    assert |END| == 15 && END[0] == '#' && END[13] == 'c' && END[14] == 'h';
    NothingToTrim(BEGIN);
    NothingToTrim(END);
  }

  /** A begin marker, and an end marker, at the head of some lines. */
  lemma BeginLine(rest: seq<string>, inBlock: bool, found: bool, parse: IPParser)
    ensures Before([BEGIN] + rest) == [] && After([BEGIN] + rest, inBlock, found) == After(rest, true, true)
    ensures ParseFrom([BEGIN] + rest, inBlock, parse) == ParseFrom(rest, true, parse)
  {
    MarkersTrim();
    assert ([BEGIN] + rest)[1..] == rest;
  }

  lemma EndLine(rest: seq<string>, inBlock: bool, found: bool, parse: IPParser)
    ensures After([END] + rest, inBlock, found) == After(rest, false, found) &&
      ParseFrom([END] + rest, inBlock, parse) == []
  {
    MarkersTrim();
    assert ([END] + rest)[1..] == rest;
  }

  predicate IsMarker(line: string) {
    Trim(line) == BEGIN || Trim(line) == END
  }

  predicate NoMarkers(lines: seq<string>) {
    forall i :: 0 <= i < |lines| ==> !IsMarker(lines[i])
  }

  lemma {:induction false} BeforeOutside(lines: seq<string>)
    requires AllClean(lines)
    ensures NoMarkers(Before(lines)) && AllClean(Before(lines))
  {
    if lines != [] {
      BeforeOutside(lines[1..]);
    }
  }

  lemma {:induction false} AfterOutside(lines: seq<string>, inBlock: bool, found: bool)
    requires AllClean(lines)
    ensures NoMarkers(After(lines, inBlock, found)) && AllClean(After(lines, inBlock, found))
  {
    if lines != [] {
      if Trim(lines[0]) == BEGIN {
        AfterOutside(lines[1..], true, true);
      } else if Trim(lines[0]) == END {
        AfterOutside(lines[1..], false, found);
      } else {
        AfterOutside(lines[1..], inBlock, found);
      }
    }
  }

  lemma DropCRsKeep(lines: seq<string>)
    requires NoMarkers(lines)
    ensures NoMarkers(DropCRs(lines))
  {
  }

  lemma {:induction false} DropCRsAppend(a: seq<string>, b: seq<string>)
    ensures DropCRs(a + b) == DropCRs(a) + DropCRs(b)
  {
  }

  // ----- Entries that the format can carry -----

  predicate IsWord(w: string) {
    w != "" && NoSpace(w)
  }

  /** What the address parser delivers is a printable address that parses to itself. */
  ghost predicate Canonical(parse: IPParser) {
    forall s :: parse(s).Some? ==>
      var t := parse(s).value;
      parse(t) == Some(t) && IsWord(t) && t[0] != '#'
  }

  predicate WellFormed(e: Entry, parse: IPParser) {
    IsWord(e.ip) && e.ip[0] != '#' && parse(e.ip) == Some(e.ip) && IsWord(e.hostname) && |Format(e)| < MAX_TOKEN
  }

  predicate AllWellFormed(entries: seq<Entry>, parse: IPParser) {
    forall i :: 0 <= i < |entries| ==> WellFormed(entries[i], parse)
  }

  /** White space does not begin within a word, whatever follows the word, if that is not inside a character. */
  lemma SpaceLenInWord(w: string, rest: string)
    requires w != "" && SpaceLen(w) == 0 && (rest != [] ==> rest[0] < '\U{80}')
    ensures SpaceLen(w + rest) == 0
  {
  }

  lemma SpaceLenEndOfWord(rest: string, w: string)
    requires w != "" && SpaceLenEnd(w) == 0 && (rest != [] ==> rest[|rest| - 1] < '\U{80}')
    ensures SpaceLenEnd(rest + w) == 0
  {
    var k := |rest + w|;
    assert (rest + w)[k - 1] == w[|w| - 1];
  }

  lemma NoSpaceTail(w: string, i: nat)
    requires NoSpace(w) && i <= |w|
    ensures NoSpace(w[i..])
  {
    assert forall k :: 0 <= k < |w| - i ==> w[i..][k..] == w[i + k..];
  }

  lemma SpaceAtEnd(w: string)
    requires SpaceLenEnd(w) > 0
    ensures |w| - SpaceLenEnd(w) < |w| && SpaceLen(w[|w| - SpaceLenEnd(w)..]) > 0
  {
    var s := w[|w| - SpaceLenEnd(w)..];
    assert forall i :: 0 <= i < |s| ==> s[i] == w[|w| - |s| + i];
  }

  lemma NoNewlineInWord(w: string, i: nat)
    requires NoSpace(w) && i < |w|
    ensures w[i] != '\n'
  {
    assert w[i..][0] == w[i];
  }

  lemma WordEnds(w: string)
    requires IsWord(w)
    ensures SpaceLen(w) == 0 && SpaceLenEnd(w) == 0 && '\n' !in w
  {
    assert w[0..] == w;
    if SpaceLenEnd(w) > 0 {
      SpaceAtEnd(w);
    }
    forall i | 0 <= i < |w|
      ensures w[i] != '\n'
    {
      NoNewlineInWord(w, i);
    }
  }

  lemma {:induction false} WordLenAt(w: string, rest: string)
    requires NoSpace(w) && (rest != [] ==> rest[0] == ' ')
    ensures WordLen(w + rest) == |w|
  {
    if w != [] {
      assert (w + rest)[1..] == w[1..] + rest;
      assert w[0..] == w;
      SpaceLenInWord(w, rest);
      NoSpaceTail(w, 1);
      WordLenAt(w[1..], rest);
    } else {
      assert w + rest == rest;
    }
  }

  lemma FormatEnds(e: Entry, parse: IPParser)
    requires WellFormed(e, parse)
    ensures Format(e)[0] == e.ip[0] && SpaceLen(Format(e)) == 0 && SpaceLenEnd(Format(e)) == 0
    ensures '\n' !in Format(e) && Format(e)[|Format(e)| - 1] != '\r'
  {
    WordEnds(e.ip);
    WordEnds(e.hostname);
    assert Format(e) == e.ip + (" " + e.hostname);
    SpaceLenInWord(e.ip, " " + e.hostname);
    SpaceLenEndOfWord(e.ip + " ", e.hostname);
  }

  lemma FormatTrims(e: Entry, parse: IPParser)
    requires WellFormed(e, parse)
    ensures Trim(Format(e)) == Format(e) && Clean(Format(e)) && DropCR(Format(e)) == Format(e) && !IsMarker(Format(e))
  {
    FormatEnds(e, parse);
  }

  lemma WordsCons(w: string, rest: string)
    requires IsWord(w) && (rest != [] ==> rest[0] == ' ')
    ensures Words(w + rest) == [w] + Words(rest)
  {
    WordEnds(w);
    WordLenAt(w, rest);
    SpaceLenInWord(w, rest);
    assert (w + rest)[..|w|] == w && (w + rest)[|w|..] == rest;
  }

  lemma WordsOfSpaced(w: string)
    requires IsWord(w)
    ensures Words(" " + w) == [w]
  {
    WordEnds(w);
    assert (" " + w)[1..] == w;
    WordsCons(w, "");
    assert w + "" == w;
  }

  lemma LineEntryOfTwo(line: string, ip: string, hostname: string, parse: IPParser)
    requires line != "" && line[0] != '#' && Words(line) == [ip, hostname] && parse(ip) == Some(ip)
    ensures LineEntry(line, parse) == [Entry(ip, hostname)]
  {
  }

  lemma WordsOfTwo(line: string, ip: string, hostname: string)
    requires IsWord(ip) && IsWord(hostname) && line == ip + (" " + hostname)
    ensures Words(line) == [ip, hostname]
  {
    WordsCons(ip, " " + hostname);
    WordsOfSpaced(hostname);
    assert [ip] + [hostname] == [ip, hostname];
  }

  lemma FormatParses(e: Entry, parse: IPParser)
    requires WellFormed(e, parse)
    ensures LineEntry(Format(e), parse) == [e]
  {
    FormatEnds(e, parse);
    assert Format(e) == e.ip + (" " + e.hostname);
    WordsOfTwo(Format(e), e.ip, e.hostname);
    LineEntryOfTwo(Format(e), e.ip, e.hostname, parse);
  }

  lemma {:induction false} ParseSkips(lines: seq<string>, rest: seq<string>, parse: IPParser)
    requires NoMarkers(lines)
    ensures ParseFrom(lines + rest, false, parse) == ParseFrom(rest, false, parse)
  {
    if lines == [] {
      assert lines + rest == rest;
    } else {
      assert (lines + rest)[1..] == lines[1..] + rest;
      ParseSkips(lines[1..], rest, parse);
    }
  }

  lemma ParseOne(e: Entry, more: seq<string>, parse: IPParser)
    requires WellFormed(e, parse)
    ensures ParseFrom([Format(e)] + more, true, parse) == [e] + ParseFrom(more, true, parse)
  {
    FormatTrims(e, parse);
    FormatParses(e, parse);
    assert ([Format(e)] + more)[1..] == more;
  }

  lemma Prepend(line: string, a: seq<string>, b: seq<string>)
    ensures [line] + a + b == [line] + (a + b)
  {
  }

  lemma {:induction false} ParseReads(entries: seq<Entry>, rest: seq<string>, parse: IPParser)
    requires AllWellFormed(entries, parse)
    ensures ParseFrom(FormatAll(entries) + ([END] + rest), true, parse) == entries
  {
    var last := [END] + rest;
    if entries == [] {
      EndLine(rest, true, true, parse);
      assert FormatAll(entries) + last == last;
    } else {
      ParseReads(entries[1..], rest, parse);
      ParseOne(entries[0], FormatAll(entries[1..]) + last, parse);
      assert FormatAll(entries) == [Format(entries[0])] + FormatAll(entries[1..]);
      Prepend(Format(entries[0]), FormatAll(entries[1..]), last);
      assert [entries[0]] + entries[1..] == entries;
    }
  }

  /** What `replaceManagedBlock` prints for some entries, line by line. */
  function Printed(content: string, entries: seq<Entry>): seq<string> {
    Before(Lines(content)) + ([BEGIN] + FormatAll(entries) + [END]) + After(Lines(content), false, false)
  }

  lemma OutsideClean(content: string)
    ensures NoMarkers(Before(Lines(content))) && AllClean(Before(Lines(content)))
    ensures NoMarkers(After(Lines(content), false, false)) && AllClean(After(Lines(content), false, false))
    ensures NoMarkers(Outside(content)) && AllClean(Outside(content))
  {
    LinesClean(content);
    BeforeOutside(Lines(content));
    AfterOutside(Lines(content), false, false);
  }

  lemma FormatAllClean(entries: seq<Entry>, parse: IPParser)
    requires AllWellFormed(entries, parse)
    ensures AllClean(FormatAll(entries)) && NoMarkers(FormatAll(entries)) &&
      DropCRs(FormatAll(entries)) == FormatAll(entries)
  {
    forall i | 0 <= i < |entries|
      ensures Clean(FormatAll(entries)[i]) && !IsMarker(FormatAll(entries)[i])
      ensures DropCRs(FormatAll(entries))[i] == FormatAll(entries)[i]
    {
      FormatTrims(entries[i], parse);
    }
  }

  lemma Regroup(b: seq<string>, x: seq<string>, f: seq<string>, y: seq<string>, a: seq<string>)
    ensures b + (x + f + y) + a == b + (x + (f + (y + a)))
  {
  }

  lemma DropCRsPrinted(b: seq<string>, x: seq<string>, f: seq<string>, y: seq<string>, a: seq<string>)
    requires DropCRs(f) == f && DropCRs(x) == x && DropCRs(y) == y
    ensures DropCRs(b + (x + f + y) + a) == DropCRs(b) + (x + (f + (y + DropCRs(a))))
  {
    DropCRsAppend(b + (x + f + y), a);
    DropCRsAppend(b, x + f + y);
    DropCRsAppend(x + f, y);
    DropCRsAppend(x, f);
    Regroup(DropCRs(b), x, f, y, DropCRs(a));
  }

  lemma PrintedJoin(content: string, entries: seq<Entry>)
    requires entries != []
    ensures Replaced(content, entries) == Join(Printed(content, entries))
  {
    var (b, mid, a) := (Before(Lines(content)), [BEGIN] + FormatAll(entries) + [END],
      After(Lines(content), false, false));
    JoinAppend(b, mid);
    JoinAppend(b + mid, a);
  }

  lemma CleanAppend(a: seq<string>, b: seq<string>)
    requires AllClean(a) && AllClean(b)
    ensures AllClean(a + b)
  {
  }

  lemma PrintedClean(content: string, entries: seq<Entry>, parse: IPParser)
    requires AllWellFormed(entries, parse)
    ensures AllClean(Printed(content, entries))
  {
    OutsideClean(content);
    FormatAllClean(entries, parse);
    var block := FormatAll(entries);
    CleanAppend([BEGIN], block);
    CleanAppend([BEGIN] + block, [END]);
    CleanAppend(Before(Lines(content)), [BEGIN] + block + [END]);
    CleanAppend(Before(Lines(content)) + ([BEGIN] + block + [END]), After(Lines(content), false, false));
  }

  lemma PrintedLines(content: string, entries: seq<Entry>, parse: IPParser)
    requires AllWellFormed(entries, parse) && entries != []
    ensures Lines(Replaced(content, entries)) ==
      DropCRs(Before(Lines(content))) +
        ([BEGIN] + (FormatAll(entries) + ([END] + DropCRs(After(Lines(content), false, false)))))
  {
    PrintedJoin(content, entries);
    PrintedClean(content, entries, parse);
    FormatAllClean(entries, parse);
    assert DropCRs([BEGIN]) == [BEGIN] && DropCRs([END]) == [END];
    DropCRsPrinted(Before(Lines(content)), [BEGIN], FormatAll(entries), [END], After(Lines(content), false, false));
    LinesOfJoin(Printed(content, entries), "");
    assert Join(Printed(content, entries)) + "" == Join(Printed(content, entries));
  }

  // ----- Printing without a block -----

  predicate AllBlank(lines: seq<string>) {
    forall i :: 0 <= i < |lines| ==> lines[i] == ""
  }

  function DropBlank(lines: seq<string>): seq<string> {
    if lines != [] && lines[|lines| - 1] == "" then DropBlank(lines[..|lines| - 1]) else lines
  }

  lemma BlankTail(lines: seq<string>, init: seq<string>, k: nat)
    requires lines == init + [""] && k <= |init| && AllBlank(init[k..])
    ensures AllBlank(lines[k..])
  {
    assert lines[k..] == init[k..] + [""];
  }

  lemma {:induction false} DropBlankPrefix(lines: seq<string>)
    ensures DropBlank(lines) <= lines && AllBlank(lines[|DropBlank(lines)|..])
    ensures DropBlank(lines) == [] || DropBlank(lines)[|DropBlank(lines)| - 1] != ""
  {
    if lines != [] && lines[|lines| - 1] == "" {
      var init := lines[..|lines| - 1];
      DropBlankPrefix(init);
      BlankTail(lines, init, |DropBlank(init)|);
    }
  }

  /** The text of the lines, the last one without its newline. */
  function JoinLast(lines: seq<string>): string {
    if lines == [] then "" else Join(lines)[..|Join(lines)| - 1]
  }

  lemma JoinPlusLast(init: seq<string>, last: string)
    ensures Join(init + [last]) == Join(init) + last + "\n" && JoinLast(init + [last]) == Join(init) + last
  {
    JoinSnoc(init, last);
    AssocText(Join(init), last, "\n");
  }

  lemma TrimOneNewline(s: string)
    ensures TrimNewlines(s + "\n") == TrimNewlines(s)
  {
  }

  lemma {:induction false} TrimJoin(lines: seq<string>)
    requires AllClean(lines)
    ensures TrimNewlines(Join(lines)) == JoinLast(DropBlank(lines))
  {
    if lines != [] {
      var (init, last) := (lines[..|lines| - 1], lines[|lines| - 1]);
      assert lines == init + [last];
      JoinPlusLast(init, last);
      TrimOneNewline(Join(init) + last);
      if last == "" {
        TrimJoin(init);
        assert Join(init) + last == Join(init);
      } else {
        var text := Join(init) + last;
        assert text[|text| - 1] == last[|last| - 1];
      }
    }
  }

  lemma LinesOfPlusLast(kept: seq<string>, init: seq<string>, last: string)
    requires kept == init + [last] && AllClean(init) && Clean(last) && last != ""
    ensures Lines(JoinLast(kept)) == DropCRs(kept)
  {
    JoinPlusLast(init, last);
    LinesOfJoin(init, last);
    DropCRsAppend(init, [last]);
    assert DropCRs([last]) == [DropCR(last)];
  }

  lemma SplitLast(lines: seq<string>)
    requires lines != [] && AllClean(lines)
    ensures lines == lines[..|lines| - 1] + [lines[|lines| - 1]] && AllClean(lines[..|lines| - 1])
  {
  }

  lemma LinesOfJoinLast(kept: seq<string>)
    requires AllClean(kept) && (kept == [] || kept[|kept| - 1] != "")
    ensures Lines(JoinLast(kept)) == DropCRs(kept)
  {
    if kept != [] {
      SplitLast(kept);
      LinesOfPlusLast(kept, kept[..|kept| - 1], kept[|kept| - 1]);
    }
  }

  lemma UnprintedLines(content: string)
    ensures Replaced(content, []) == JoinLast(DropBlank(Outside(content)))
    ensures Lines(Replaced(content, [])) == DropCRs(DropBlank(Outside(content)))
  {
    OutsideClean(content);
    JoinAppend(Before(Lines(content)), After(Lines(content), false, false));
    TrimJoin(Outside(content));
    DropBlankPrefix(Outside(content));
    LinesOfJoinLast(DropBlank(Outside(content)));
  }

  // ----- Round trip -----

  /** Reading a printed block: nothing before it, its entries, nothing after it. */
  lemma ParsePrinted(b: seq<string>, entries: seq<Entry>, a: seq<string>, parse: IPParser)
    requires NoMarkers(b) && AllWellFormed(entries, parse)
    ensures ParseFrom(b + ([BEGIN] + (FormatAll(entries) + ([END] + a))), false, parse) == entries
  {
    var tail := FormatAll(entries) + ([END] + a);
    ParseSkips(b, [BEGIN] + tail, parse);
    BeginLine(tail, false, false, parse);
    ParseReads(entries, a, parse);
  }

  /** For any content, stray and repeated markers included, the parser gives back exactly the entries written. */
  lemma {:induction false} ParseOfReplace(content: string, entries: seq<Entry>, parse: IPParser)
    requires AllWellFormed(entries, parse)
    ensures Block(Replaced(content, entries), parse) == entries
  {
    OutsideClean(content);
    if entries == [] {
      UnprintedLines(content);
      DropBlankPrefix(Outside(content));
      var kept := DropBlank(Outside(content));
      DropCRsKeep(kept);
      ParseSkips(DropCRs(kept), [], parse);
      assert DropCRs(kept) + [] == DropCRs(kept);
    } else {
      PrintedLines(content, entries, parse);
      DropCRsKeep(Before(Lines(content)));
      ParsePrinted(DropCRs(Before(Lines(content))), entries, DropCRs(After(Lines(content), false, false)), parse);
    }
  }

  // ----- The lines that belong to somebody else -----

  lemma {:induction false} BeforeSkips(lines: seq<string>, rest: seq<string>)
    requires NoMarkers(lines)
    ensures Before(lines + rest) == lines + Before(rest)
  {
    if lines == [] {
      assert lines + rest == rest;
    } else {
      assert (lines + rest)[1..] == lines[1..] + rest;
      BeforeSkips(lines[1..], rest);
    }
  }

  lemma {:induction false} AfterSkips(lines: seq<string>, rest: seq<string>, inBlock: bool, found: bool)
    requires NoMarkers(lines)
    ensures After(lines + rest, inBlock, found) ==
      (if found && !inBlock then lines else []) + After(rest, inBlock, found)
  {
    if lines == [] {
      assert lines + rest == rest;
    } else {
      assert (lines + rest)[1..] == lines[1..] + rest;
      AfterSkips(lines[1..], rest, inBlock, found);
    }
  }

  lemma OutsidePrinted(b: seq<string>, f: seq<string>, a: seq<string>)
    requires NoMarkers(b) && NoMarkers(f) && NoMarkers(a)
    ensures var lines := b + ([BEGIN] + (f + ([END] + a)));
      Before(lines) == b && After(lines, false, false) == a
  {
    var (inner, last) := (f + ([END] + a), [END] + a);
    BeforeSkips(b, [BEGIN] + inner);
    AfterSkips(b, [BEGIN] + inner, false, false);
    BeginLine(inner, false, false, s => None);
    AfterSkips(f, last, true, true);
    EndLine(a, true, true, s => None);
    AfterSkips(a, [], false, true);
    assert a + [] == a && b + [] == b;
  }

  predicate EndsWithCR(line: string) {
    line != "" && line[|line| - 1] == '\r'
  }

  predicate NoCR(lines: seq<string>) {
    forall i :: 0 <= i < |lines| ==> !EndsWithCR(lines[i])
  }

  /** What an edit leaves of the lines outside of the block: all of them in order, less one carriage
      return at the end of a line that ended in two, and less trailing blank lines when no entry is left. */
  lemma {:induction false} OutsideOfReplace(content: string, entries: seq<Entry>, parse: IPParser)
    requires AllWellFormed(entries, parse)
    ensures Outside(Replaced(content, entries)) ==
      DropCRs(if entries == [] then DropBlank(Outside(content)) else Outside(content))
  {
    OutsideClean(content);
    if entries == [] {
      UnprintedLines(content);
      DropBlankPrefix(Outside(content));
      var kept := DropBlank(Outside(content));
      DropCRsKeep(kept);
      BeforeSkips(DropCRs(kept), []);
      AfterSkips(DropCRs(kept), [], false, false);
      assert DropCRs(kept) + [] == DropCRs(kept);
    } else {
      PrintedLines(content, entries, parse);
      FormatAllClean(entries, parse);
      var (b, a) := (Before(Lines(content)), After(Lines(content), false, false));
      DropCRsKeep(b);
      DropCRsKeep(a);
      OutsidePrinted(DropCRs(b), FormatAll(entries), DropCRs(a));
      DropCRsAppend(b, a);
    }
  }

  lemma NoCRFixed(lines: seq<string>)
    ensures NoCR(lines) <==> DropCRs(lines) == lines
  {
  }

  lemma {:induction false} DropBlankTwice(lines: seq<string>)
    ensures DropBlank(DropBlank(lines)) == DropBlank(lines)
  {
    DropBlankPrefix(lines);
  }

  lemma NoCRKept(lines: seq<string>)
    requires NoCR(lines)
    ensures DropCRs(lines) == lines && NoCR(DropBlank(lines)) && DropCRs(DropBlank(lines)) == DropBlank(lines)
  {
    NoCRFixed(lines);
    DropBlankPrefix(lines);
    NoCRFixed(DropBlank(lines));
  }

  /** Lines outside of the block that do not end in a carriage return keep their content and order
      through any edit, up to trailing blank lines. */
  lemma {:induction false} OutsideKept(content: string, entries: seq<Entry>, parse: IPParser)
    requires AllWellFormed(entries, parse) && NoCR(Outside(content))
    ensures NoCR(Outside(Replaced(content, entries)))
    ensures DropBlank(Outside(Replaced(content, entries))) == DropBlank(Outside(content))
  {
    OutsideOfReplace(content, entries, parse);
    NoCRKept(Outside(content));
    DropBlankTwice(Outside(content));
  }

  // ----- Writing the same entries twice -----

  lemma {:induction false} DropCRsShorter(lines: seq<string>)
    ensures |Join(DropCRs(lines))| <= |Join(lines)|
    ensures !NoCR(lines) ==> |Join(DropCRs(lines))| < |Join(lines)|
  {
    if lines != [] {
      DropCRsShorter(lines[1..]);
    }
  }

  lemma NoCRAppend(a: seq<string>, b: seq<string>)
    ensures NoCR(a + b) <==> NoCR(a) && NoCR(b)
  {
    if NoCR(a + b) {
      assert forall i :: 0 <= i < |a| ==> (a + b)[i] == a[i];
      assert forall i :: 0 <= i < |b| ==> (a + b)[|a| + i] == b[i];
    }
  }

  lemma ReplacePrintedTwice(content: string, entries: seq<Entry>, parse: IPParser)
    requires AllWellFormed(entries, parse) && entries != []
    ensures Replaced(Replaced(content, entries), entries) == Replaced(content, entries) <==> NoCR(Outside(content))
  {
    OutsideClean(content);
    PrintedLines(content, entries, parse);
    FormatAllClean(entries, parse);
    var (b, a) := (Before(Lines(content)), After(Lines(content), false, false));
    DropCRsKeep(b);
    DropCRsKeep(a);
    OutsidePrinted(DropCRs(b), FormatAll(entries), DropCRs(a));
    NoCRAppend(b, a);
    NoCRFixed(b);
    NoCRFixed(a);
    DropCRsShorter(b);
    DropCRsShorter(a);
  }

  lemma {:induction false} DropBlankShorter(lines: seq<string>)
    ensures |Join(DropBlank(lines))| <= |Join(lines)|
  {
    DropBlankPrefix(lines);
    JoinAppend(DropBlank(lines), lines[|DropBlank(lines)|..]);
    assert lines == DropBlank(lines) + lines[|DropBlank(lines)|..];
  }

  lemma JoinLastTwice(kept: seq<string>)
    requires DropBlank(kept) == kept
    ensures JoinLast(DropBlank(DropCRs(kept))) == JoinLast(kept) <==> NoCR(kept)
  {
    if NoCR(kept) {
      NoCRFixed(kept);
    } else {
      DropCRsShorter(kept);
      DropBlankShorter(DropCRs(kept));
    }
  }

  lemma ReplaceNothingTwice(content: string, parse: IPParser)
    ensures Replaced(Replaced(content, []), []) == Replaced(content, []) <==> NoCR(Outside(content))
  {
    var kept := DropBlank(Outside(content));
    UnprintedLines(content);
    OutsideOfReplace(content, [], parse);
    UnprintedLines(Replaced(content, []));
    DropBlankPrefix(Outside(content));
    NoCRAppend(kept, Outside(content)[|kept|..]);
    assert Outside(content) == kept + Outside(content)[|kept|..];
    DropBlankTwice(Outside(content));
    JoinLastTwice(kept);
  }

  /** Writing the same entries twice equals writing them once, exactly for the files in which no line
      outside of the block is left with a carriage return at its end by the scanner. */
  lemma {:induction false} ReplaceIsIdempotent(content: string, entries: seq<Entry>, parse: IPParser)
    requires AllWellFormed(entries, parse)
    ensures Replaced(Replaced(content, entries), entries) == Replaced(content, entries) <==> NoCR(Outside(content))
  {
    if entries == [] {
      ReplaceNothingTwice(content, parse);
    } else {
      ReplacePrintedTwice(content, entries, parse);
    }
  }

  /** A file whose only line is two carriage returns changes with every edit. */
  lemma TwoCarriageReturns()
    ensures Replaced(Replaced("\r\r", []), []) != Replaced("\r\r", [])
  {
    LinesOfJoin([], "\r\r");
    assert Join([]) + "\r\r" == "\r\r" && DropCR("\r\r") == "\r";
    BeforeSkips(["\r"], []);
    AfterSkips(["\r"], [], false, false);
    assert ["\r"] + [] == ["\r"] && Trim("\r") == "";
    assert Outside("\r\r") == ["\r"];
    assert EndsWithCR(Outside("\r\r")[0]);
    ReplaceNothingTwice("\r\r", s => None);
  }

  // ----- What the parser delivers can be printed -----

  lemma SpaceLenOfPrefix(s: string, n: nat)
    requires SpaceLen(s) == 0 && n <= |s|
    ensures SpaceLen(s[..n]) == 0
  {
  }

  lemma {:induction false} NoSpaceBeforeWordEnd(s: string, i: nat)
    requires i < WordLen(s)
    ensures SpaceLen(s[i..]) == 0
  {
    if i == 0 {
      assert s[0..] == s;
    } else {
      NoSpaceBeforeWordEnd(s[1..], i - 1);
      assert s[1..][i - 1..] == s[i..];
    }
  }

  lemma WordLenIsWord(s: string, i: nat)
    requires i < WordLen(s)
    ensures SpaceLen(s[..WordLen(s)][i..]) == 0
  {
    NoSpaceBeforeWordEnd(s, i);
    SpaceLenOfPrefix(s[i..], WordLen(s) - i);
    assert s[..WordLen(s)][i..] == s[i..][..WordLen(s) - i];
  }

  lemma {:induction false} WordsAreWords(s: string)
    ensures forall i :: 0 <= i < |Words(s)| ==> IsWord(Words(s)[i])
    decreases |s|
  {
    var t := TrimLeft(s);
    if t != [] {
      forall i | 0 <= i < WordLen(t)
        ensures SpaceLen(t[..WordLen(t)][i..]) == 0
      {
        WordLenIsWord(t, i);
      }
      WordsAreWords(t[WordLen(t)..]);
    }
  }

  predicate AllFit(entries: seq<Entry>) {
    forall i :: 0 <= i < |entries| ==> |Format(entries[i])| < MAX_TOKEN
  }

  lemma LineEntryWellFormed(line: string, parse: IPParser)
    requires Canonical(parse) && AllFit(LineEntry(line, parse))
    ensures AllWellFormed(LineEntry(line, parse), parse)
  {
    WordsAreWords(line);
  }

  lemma FitParts(a: seq<Entry>, b: seq<Entry>)
    requires AllFit(a + b)
    ensures AllFit(a) && AllFit(b)
  {
    assert forall i :: 0 <= i < |a| ==> a[i] == (a + b)[i];
    assert forall i :: 0 <= i < |b| ==> b[i] == (a + b)[|a| + i];
  }

  lemma WellFormedParts(a: seq<Entry>, b: seq<Entry>, parse: IPParser)
    requires AllWellFormed(a, parse) && AllWellFormed(b, parse)
    ensures AllWellFormed(a + b, parse)
  {
  }

  /** The entries of any block are well-formed, but for the length that the scanner can take. */
  lemma {:induction false} ParsedWellFormed(lines: seq<string>, inBlock: bool, parse: IPParser)
    requires Canonical(parse)
    requires AllFit(ParseFrom(lines, inBlock, parse))
    ensures AllWellFormed(ParseFrom(lines, inBlock, parse), parse)
  {
    if lines != [] {
      var line := Trim(lines[0]);
      if line == BEGIN {
        ParsedWellFormed(lines[1..], true, parse);
      } else if line != END && !inBlock {
        ParsedWellFormed(lines[1..], inBlock, parse);
      } else if line != END {
        var (own, rest) := (LineEntry(line, parse), ParseFrom(lines[1..], inBlock, parse));
        FitParts(own, rest);
        ParsedWellFormed(lines[1..], inBlock, parse);
        LineEntryWellFormed(line, parse);
        WellFormedParts(own, rest, parse);
      }
    }
  }

  // ----- Any sequence of edits -----

  /** What `RemoveEntries` and `Remove` do is a subtraction; `Remove` subtracts everything. */
  datatype Edit = AddEntries(added: seq<Entry>) | RemoveEntries(removed: seq<Entry>) | RemoveBlock

  function EditBlock(block: seq<Entry>, edit: Edit): seq<Entry> {
    match edit
    case AddEntries(entries) => Merged(block, entries)
    case RemoveEntries(entries) => Subtracted(block, entries)
    case RemoveBlock => []
  }

  function EditFile(content: string, edit: Edit, parse: IPParser): string {
    Replaced(content, EditBlock(Block(content, parse), edit))
  }

  function EditFiles(content: string, edits: seq<Edit>, parse: IPParser): string
    decreases edits
  {
    if edits == [] then content else EditFiles(EditFile(content, edits[0], parse), edits[1..], parse)
  }

  function EditBlocks(block: seq<Entry>, edits: seq<Edit>): seq<Entry>
    decreases edits
  {
    if edits == [] then block else EditBlocks(EditBlock(block, edits[0]), edits[1..])
  }

  lemma {:induction false} InsertAllWellFormed(result: seq<Entry>, additions: seq<Entry>, parse: IPParser)
    requires AllWellFormed(result, parse) && AllWellFormed(additions, parse)
    ensures AllWellFormed(InsertAll(result, additions), parse)
    decreases additions
  {
    if additions != [] {
      var next := if HasHost(result, additions[0].hostname) then result else result + [additions[0]];
      InsertAllWellFormed(next, additions[1..], parse);
    }
  }

  lemma {:induction false} SubtractedWellFormed(existing: seq<Entry>, removals: seq<Entry>, parse: IPParser)
    requires AllWellFormed(existing, parse)
    ensures AllWellFormed(Subtracted(existing, removals), parse)
  {
    if existing != [] {
      SubtractedWellFormed(existing[1..], removals, parse);
    }
  }

  lemma EditBlockWellFormed(block: seq<Entry>, edit: Edit, parse: IPParser)
    requires AllWellFormed(block, parse) && (edit.AddEntries? ==> AllWellFormed(edit.added, parse))
    ensures AllWellFormed(EditBlock(block, edit), parse)
  {
    match edit
    case AddEntries(entries) =>
      InsertAllWellFormed([], block, parse);
      InsertAllWellFormed(InsertAll([], block), entries, parse);
    case RemoveEntries(entries) => SubtractedWellFormed(block, entries, parse);
    case RemoveBlock =>
  }

  /** Any sequence of edits of any file: the block reads as the ordered list that the same edits build
      from what the block read before them. */
  lemma {:induction false} EditsAreAnOrderedList(content: string, edits: seq<Edit>, parse: IPParser)
    requires AllWellFormed(Block(content, parse), parse)
    requires forall i :: 0 <= i < |edits| && edits[i].AddEntries? ==> AllWellFormed(edits[i].added, parse)
    ensures Block(EditFiles(content, edits, parse), parse) == EditBlocks(Block(content, parse), edits)
    decreases edits
  {
    if edits != [] {
      EditBlockWellFormed(Block(content, parse), edits[0], parse);
      ParseOfReplace(content, EditBlock(Block(content, parse), edits[0]), parse);
      EditsAreAnOrderedList(EditFile(content, edits[0], parse), edits[1..], parse);
    }
  }

  /** A file without marker lines has an empty block, and all its lines are outside of it. */
  lemma NoMarkersNoBlock(content: string, parse: IPParser)
    requires NoMarkers(Lines(content))
    ensures Block(content, parse) == [] && Outside(content) == Lines(content)
  {
    ParseSkips(Lines(content), [], parse);
    BeforeSkips(Lines(content), []);
    AfterSkips(Lines(content), [], false, false);
    assert Lines(content) + [] == Lines(content);
  }

  // ----- The ordered list, by hostname -----

  /** The address that the list gives a hostname: that of the first entry with it. */
  function Lookup(entries: seq<Entry>, hostname: string): Option<string> {
    if entries == [] then None
    else if entries[0].hostname == hostname then Some(entries[0].ip)
    else Lookup(entries[1..], hostname)
  }

  lemma {:induction false} LookupAppend(a: seq<Entry>, b: seq<Entry>, hostname: string)
    ensures Lookup(a + b, hostname) == if HasHost(a, hostname) then Lookup(a, hostname) else Lookup(b, hostname)
  {
    if a == [] {
      assert a + b == b;
    } else {
      assert (a + b)[1..] == a[1..] + b;
      LookupAppend(a[1..], b, hostname);
      if HasHost(a, hostname) && a[0].hostname != hostname {
        var i :| 0 <= i < |a| && a[i].hostname == hostname;
        assert a[1..][i - 1].hostname == hostname;
      }
      if HasHost(a[1..], hostname) {
        var i :| 0 <= i < |a[1..]| && a[1..][i].hostname == hostname;
        assert a[i + 1].hostname == hostname;
      }
    }
  }

  lemma {:induction false} InsertAllLookup(result: seq<Entry>, additions: seq<Entry>, hostname: string)
    ensures Lookup(InsertAll(result, additions), hostname) ==
      if HasHost(result, hostname) then Lookup(result, hostname) else Lookup(additions, hostname)
    decreases additions
  {
    if additions == [] {
      LookupAppend(result, [], hostname);
      assert result + [] == result;
    } else if HasHost(result, additions[0].hostname) {
      InsertAllLookup(result, additions[1..], hostname);
    } else {
      var longer := result + [additions[0]];
      InsertAllLookup(longer, additions[1..], hostname);
      LookupAppend(result, [additions[0]], hostname);
      assert longer[|result|] == additions[0];
      assert forall i :: 0 <= i < |result| ==> longer[i] == result[i];
    }
  }

  /** Adding never changes the address of a hostname that is there; removing removes the named hostnames only. */
  lemma {:induction false} EditLookup(block: seq<Entry>, edit: Edit, hostname: string)
    ensures Lookup(EditBlock(block, edit), hostname) ==
      if edit.AddEntries? then
        if HasHost(block, hostname) then Lookup(block, hostname) else Lookup(edit.added, hostname)
      else if edit.RemoveEntries? && !HasHost(edit.removed, hostname) then Lookup(block, hostname)
      else None
  {
    match edit
    case AddEntries(entries) =>
      InsertAllLookup([], block, hostname);
      InsertAllLookup(InsertAll([], block), entries, hostname);
      LookupHasHost(block, hostname);
      LookupHasHost(InsertAll([], block), hostname);
    case RemoveEntries(entries) => SubtractedLookup(block, entries, hostname);
    case RemoveBlock =>
  }

  lemma {:induction false} LookupHasHost(entries: seq<Entry>, hostname: string)
    ensures Lookup(entries, hostname).Some? <==> HasHost(entries, hostname)
  {
    LookupAppend(entries, [], hostname);
    assert entries + [] == entries;
    if entries != [] {
      LookupHasHost(entries[1..], hostname);
      if HasHost(entries, hostname) && entries[0].hostname != hostname {
        var i :| 0 <= i < |entries| && entries[i].hostname == hostname;
        assert entries[1..][i - 1].hostname == hostname;
      }
    }
  }

  lemma {:induction false} SubtractedLookup(existing: seq<Entry>, removals: seq<Entry>, hostname: string)
    ensures Lookup(Subtracted(existing, removals), hostname) ==
      if HasHost(removals, hostname) then None else Lookup(existing, hostname)
  {
    if existing != [] {
      var rest := Subtracted(existing[1..], removals);
      SubtractedLookup(existing[1..], removals, hostname);
      assert [] + rest == rest && ([existing[0]] + rest)[1..] == rest;
    }
  }

  predicate DistinctHosts(entries: seq<Entry>) {
    forall i, j :: 0 <= i < j < |entries| ==> entries[i].hostname != entries[j].hostname
  }

  /** After an add, no hostname is listed twice. */
  lemma {:induction false} InsertAllDistinct(result: seq<Entry>, additions: seq<Entry>)
    requires DistinctHosts(result)
    ensures DistinctHosts(InsertAll(result, additions))
    decreases additions
  {
    if additions != [] {
      assert !HasHost(result, additions[0].hostname) ==>
          forall i :: 0 <= i < |result| ==> result[i].hostname != additions[0].hostname;
      var next := if HasHost(result, additions[0].hostname) then result else result + [additions[0]];
      InsertAllDistinct(next, additions[1..]);
    }
  }

  lemma AddsAreDistinct(block: seq<Entry>, entries: seq<Entry>)
    ensures DistinctHosts(EditBlock(block, AddEntries(entries)))
  {
    InsertAllDistinct([], block);
    InsertAllDistinct(InsertAll([], block), entries);
  }
}
