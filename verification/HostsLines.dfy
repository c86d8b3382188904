/** What an edit of the hosts file does to somebody else's lines, as they stand in the file. */
module HostsLines {
  import opened Wrappers
  import opened Text
  import opened Hosts
  import opened HostsTheorems

  // ----- The scanner's limit -----

  /** The lines before the first one that is too long for the scanner. */
  function ShortPrefix(raw: seq<string>): (r: seq<string>)
    ensures |r| <= |raw|
  {
    if raw == [] || |raw[0]| >= MAX_TOKEN then [] else [raw[0]] + ShortPrefix(raw[1..])
  }

  lemma {:induction false} ShortPrefixLength(raw: seq<string>)
    ensures |ShortPrefix(raw)| == |raw| <==> forall i :: 0 <= i < |raw| ==> |raw[i]| < MAX_TOKEN
  {
    if raw != [] {
      ShortPrefixLength(raw[1..]);
    }
  }

  /** The scanner delivers the lines before the first overlong one. */
  lemma {:induction false} ScannerStopsAtLongLine(s: string)
    ensures Lines(s) == DropCRs(ShortPrefix(RawLines(s)))
    decreases |s|
  {
    if s != [] {
      var n := LineEnd(s);
      if n < |s| {
        ScannerStopsAtLongLine(s[n + 1..]);
        assert RawLines(s)[1..] == RawLines(s[n + 1..]);
      }
    }
  }

  lemma {:induction false} ShortPrefixIsPrefix(raw: seq<string>)
    ensures ShortPrefix(raw) <= raw
  {
    if raw != [] {
      ShortPrefixIsPrefix(raw[1..]);
    }
  }

  /** The scanner delivers every line, less a carriage return, exactly when none is overlong. */
  lemma EditSeesAllLines(s: string)
    ensures Lines(s) == DropCRs(RawLines(s)) <==> forall i :: 0 <= i < |RawLines(s)| ==> |RawLines(s)[i]| < MAX_TOKEN
  {
    ScannerStopsAtLongLine(s);
    ShortPrefixLength(RawLines(s));
    ShortPrefixIsPrefix(RawLines(s));
  }

  // ----- The lines outside of any block -----

  /** The lines outside of any block, when the first line stands inside one or not. */
  function OutsideOf(lines: seq<string>, inBlock: bool): seq<string> {
    if lines == [] then []
    else if Trim(lines[0]) == BEGIN then OutsideOf(lines[1..], true)
    else if Trim(lines[0]) == END then OutsideOf(lines[1..], false)
    else (if inBlock then [] else [lines[0]]) + OutsideOf(lines[1..], inBlock)
  }

  /** Whether what follows the lines stands inside a block. */
  function InBlockAfter(lines: seq<string>, inBlock: bool): bool {
    if lines == [] then inBlock
    else if Trim(lines[0]) == BEGIN then InBlockAfter(lines[1..], true)
    else if Trim(lines[0]) == END then InBlockAfter(lines[1..], false)
    else InBlockAfter(lines[1..], inBlock)
  }

  /** The lines of the file that are not the manager's. */
  function RawOutside(content: string): seq<string> {
    OutsideOf(RawLines(content), false)
  }

  /** Those from the first overlong line on. */
  function BeyondScanner(content: string): seq<string> {
    var short := ShortPrefix(RawLines(content));
    OutsideOf(RawLines(content)[|short|..], InBlockAfter(short, false))
  }

  lemma {:induction false} OutsideOfAppend(a: seq<string>, b: seq<string>, inBlock: bool)
    ensures OutsideOf(a + b, inBlock) == OutsideOf(a, inBlock) + OutsideOf(b, InBlockAfter(a, inBlock))
  {
    if a == [] {
      assert a + b == b;
    } else {
      assert (a + b)[1..] == a[1..] + b && (a + b)[0] == a[0];
      if Trim(a[0]) == BEGIN {
        OutsideOfAppend(a[1..], b, true);
      } else if Trim(a[0]) == END {
        OutsideOfAppend(a[1..], b, false);
      } else {
        OutsideOfAppend(a[1..], b, inBlock);
        if inBlock {
          assert OutsideOf(a + b, inBlock) == OutsideOf(a[1..] + b, inBlock) &&
            OutsideOf(a, inBlock) == OutsideOf(a[1..], inBlock);
        } else {
          Prepend(a[0], OutsideOf(a[1..], inBlock), OutsideOf(b, InBlockAfter(a[1..], inBlock)));
        }
      }
    }
  }

  /** With the block found, what the printer puts after it. */
  lemma {:induction false} AfterIsOutside(lines: seq<string>, inBlock: bool)
    ensures After(lines, inBlock, true) == OutsideOf(lines, inBlock)
  {
    if lines != [] {
      if Trim(lines[0]) == BEGIN {
        AfterIsOutside(lines[1..], true);
      } else if Trim(lines[0]) == END {
        AfterIsOutside(lines[1..], false);
      } else {
        AfterIsOutside(lines[1..], inBlock);
      }
    }
  }

  /** What the printer puts before and after the block are together the lines outside of any. */
  lemma {:induction false} PartsAreOutside(lines: seq<string>)
    ensures Before(lines) + After(lines, false, false) == OutsideOf(lines, false)
  {
    if lines != [] {
      if Trim(lines[0]) == BEGIN {
        AfterIsOutside(lines[1..], true);
      } else {
        PartsAreOutside(lines[1..]);
      }
    }
  }

  lemma {:induction false} OutsideOfDropCRs(lines: seq<string>, inBlock: bool)
    ensures OutsideOf(DropCRs(lines), inBlock) == DropCRs(OutsideOf(lines, inBlock))
  {
    if lines != [] {
      assert DropCRs(lines)[1..] == DropCRs(lines[1..]);
      TrimDropCR(lines[0]);
      if Trim(lines[0]) == BEGIN {
        OutsideOfDropCRs(lines[1..], true);
      } else if Trim(lines[0]) == END {
        OutsideOfDropCRs(lines[1..], false);
      } else {
        OutsideOfDropCRs(lines[1..], inBlock);
        DropCRsAppend(if inBlock then [] else [lines[0]], OutsideOf(lines[1..], inBlock));
      }
    }
  }

  lemma TrimDropCR(line: string)
    ensures Trim(DropCR(line)) == Trim(line)
  {
  }

  lemma {:induction false} PlainLines(lines: seq<string>, inBlock: bool)
    requires NoMarkers(lines)
    ensures OutsideOf(lines, inBlock) == (if inBlock then [] else lines) && InBlockAfter(lines, inBlock) == inBlock
  {
    if lines != [] {
      PlainLines(lines[1..], inBlock);
    }
  }

  /** The lines that an edit sees and keeps, out of those that are there. */
  lemma SeenOutside(content: string)
    ensures var seen := OutsideOf(ShortPrefix(RawLines(content)), false);
      Outside(content) == DropCRs(seen) && RawOutside(content) == seen + BeyondScanner(content)
  {
    var raw := RawLines(content);
    var short := ShortPrefix(raw);
    ScannerStopsAtLongLine(content);
    PartsAreOutside(Lines(content));
    OutsideOfDropCRs(short, false);
    ShortPrefixIsPrefix(raw);
    OutsideOfAppend(short, raw[|short|..], false);
    assert raw == short + raw[|short|..];
  }

  // ----- The file after an edit -----

  lemma {:induction false} RawLinesOfJoin(lines: seq<string>, last: string)
    requires AllClean(lines) && Clean(last)
    ensures RawLines(Join(lines) + last) == lines + if last == "" then [] else [last]
  {
    if lines == [] {
      assert Join(lines) + last == last;
      LineEndAt(last, "");
      assert last + "" == last && last[..|last|] == last;
    } else {
      RawLinesOfJoin(lines[1..], last);
      assert Join(lines) + last == lines[0] + "\n" + (Join(lines[1..]) + last);
      RawLinesCons(lines[0], Join(lines[1..]) + last);
    }
  }

  lemma RawLinesCons(line: string, rest: string)
    requires '\n' !in line
    ensures RawLines(line + "\n" + rest) == [line] + RawLines(rest)
  {
    var s := line + "\n" + rest;
    assert s == line + ("\n" + rest);
    LineEndAt(line, "\n" + rest);
    assert s[..|line|] == line && s[|line| + 1..] == rest;
  }

  lemma RawLinesOfPlusLast(kept: seq<string>, init: seq<string>, last: string)
    requires kept == init + [last] && AllClean(init) && Clean(last) && last != ""
    ensures RawLines(JoinLast(kept)) == kept
  {
    JoinPlusLast(init, last);
    RawLinesOfJoin(init, last);
  }

  lemma RawLinesOfJoinLast(kept: seq<string>)
    requires AllClean(kept) && (kept == [] || kept[|kept| - 1] != "")
    ensures RawLines(JoinLast(kept)) == kept
  {
    if kept != [] {
      SplitLast(kept);
      RawLinesOfPlusLast(kept, kept[..|kept| - 1], kept[|kept| - 1]);
    }
  }

  lemma OutsideOfPrinted(b: seq<string>, f: seq<string>, a: seq<string>)
    requires NoMarkers(b) && NoMarkers(f) && NoMarkers(a)
    ensures OutsideOf(b + ([BEGIN] + f + [END]) + a, false) == b + a
  {
    var (inner, last) := (f + ([END] + a), [END] + a);
    var lines := b + ([BEGIN] + inner);
    Regroup(b, [BEGIN], f, [END], a);
    OutsidePrinted(b, f, a);
    PartsAreOutside(lines);
  }

  lemma RawOutsideOfText(text: string, kept: seq<string>)
    requires text == JoinLast(kept) && AllClean(kept) && NoMarkers(kept) && (kept == [] || kept[|kept| - 1] != "")
    ensures RawLines(text) == kept && RawOutside(text) == kept
  {
    RawLinesOfJoinLast(kept);
    PlainLines(kept, false);
  }

  lemma DropBlankClean(lines: seq<string>)
    requires AllClean(lines) && NoMarkers(lines)
    ensures var kept := DropBlank(lines);
      AllClean(kept) && NoMarkers(kept) && (kept == [] || kept[|kept| - 1] != "")
  {
    DropBlankPrefix(lines);
  }

  lemma RawOutsideOfNothing(content: string)
    ensures RawLines(Replaced(content, [])) == DropBlank(Outside(content)) && AllClean(DropBlank(Outside(content)))
    ensures RawOutside(Replaced(content, [])) == DropBlank(Outside(content))
  {
    OutsideClean(content);
    UnprintedLines(content);
    DropBlankClean(Outside(content));
    RawOutsideOfText(Replaced(content, []), DropBlank(Outside(content)));
  }

  lemma RawOutsideOfJoined(text: string, lines: seq<string>)
    requires text == Join(lines) && AllClean(lines)
    ensures RawLines(text) == lines && RawOutside(text) == OutsideOf(lines, false)
  {
    RawLinesOfJoin(lines, "");
    assert Join(lines) + "" == Join(lines);
  }

  lemma OutsideOfPrinting(content: string, entries: seq<Entry>, parse: IPParser)
    requires AllWellFormed(entries, parse)
    ensures OutsideOf(Printed(content, entries), false) == Outside(content)
  {
    OutsideClean(content);
    FormatAllClean(entries, parse);
    OutsideOfPrinted(Before(Lines(content)), FormatAll(entries), After(Lines(content), false, false));
  }

  lemma RawOutsideOfSome(content: string, entries: seq<Entry>, parse: IPParser)
    requires AllWellFormed(entries, parse) && entries != []
    ensures RawOutside(Replaced(content, entries)) == Outside(content) && AllClean(RawLines(Replaced(content, entries)))
  {
    PrintedJoin(content, entries);
    PrintedClean(content, entries, parse);
    RawOutsideOfJoined(Replaced(content, entries), Printed(content, entries));
    OutsideOfPrinting(content, entries, parse);
  }

  /** What the file's own lines are after an edit: those that the scanner delivered, less trailing blank
      ones when no entry is left; and every line of it fits the scanner. */
  lemma RawOutsideOfReplace(content: string, entries: seq<Entry>, parse: IPParser)
    requires AllWellFormed(entries, parse)
    ensures RawOutside(Replaced(content, entries)) == if entries == [] then DropBlank(Outside(content))
      else Outside(content)
    ensures AllClean(RawLines(Replaced(content, entries)))
  {
    if entries == [] {
      RawOutsideOfNothing(content);
    } else {
      RawOutsideOfSome(content, entries, parse);
    }
  }

  // ----- What an edit loses -----

  /** The scanner delivers whole every line outside of the block, but for blank ones at the end: none of
      them ends in a carriage return, and from the first overlong line on they are blank. */
  predicate SafeToEdit(content: string) {
    NoCR(RawOutside(content)) && AllBlank(BeyondScanner(content))
  }

  lemma {:induction false} DropBlankAppend(a: seq<string>, b: seq<string>)
    ensures DropBlank(a + b) == if AllBlank(b) then DropBlank(a) else a + DropBlank(b)
  {
    if b == [] {
      assert a + b == a;
    } else {
      var init := b[..|b| - 1];
      assert (a + b)[..|a + b| - 1] == a + init;
      assert b == init + [b[|b| - 1]];
      if b[|b| - 1] == "" {
        DropBlankAppend(a, init);
        assert AllBlank(b) <==> AllBlank(init);
      }
    }
  }

  lemma BlankLinesHaveNoCR(lines: seq<string>)
    requires AllBlank(lines)
    ensures NoCR(lines)
  {
  }

  /** Dropping carriage returns and later lines keeps the lines, up to trailing blank ones, exactly when
      there is nothing to drop; else the text gets shorter. */
  lemma DroppingShortens(a: seq<string>, b: seq<string>)
    ensures NoCR(a + b) && AllBlank(b) ==> DropBlank(DropCRs(a)) == DropBlank(a + b)
    ensures !(NoCR(a + b) && AllBlank(b)) ==> |Join(DropBlank(DropCRs(a)))| < |Join(DropBlank(a + b))|
  {
    DropBlankAppend(a, b);
    NoCRAppend(a, b);
    if AllBlank(b) {
      BlankLinesHaveNoCR(b);
      DroppingCRsShortens(a);
    } else {
      DropBlankShorter(DropCRs(a));
      DropCRsShorter(a);
      JoinAppend(a, DropBlank(b));
      NonBlankIsLonger(b);
    }
  }

  lemma NonBlankIsLonger(b: seq<string>)
    requires !AllBlank(b)
    ensures |Join(DropBlank(b))| > 0
  {
    DropBlankPrefix(b);
    assert b[0..] == b;
  }

  lemma DroppingCRsShortens(a: seq<string>)
    ensures NoCR(a) ==> DropBlank(DropCRs(a)) == DropBlank(a)
    ensures !NoCR(a) ==> |Join(DropBlank(DropCRs(a)))| < |Join(DropBlank(a))|
  {
    NoCRFixed(a);
    DropBlankPrefix(a);
    assert a == DropBlank(a) + a[|DropBlank(a)|..];
    if !NoCR(a) {
      KeptGetShorter(a, DropBlank(a), a[|DropBlank(a)|..]);
    }
  }

  lemma KeptGetShorter(a: seq<string>, kept: seq<string>, blank: seq<string>)
    requires a == kept + blank && AllBlank(blank) && !NoCR(a)
    ensures |Join(DropBlank(DropCRs(a)))| < |Join(kept)|
  {
    BlankLinesHaveNoCR(blank);
    NoCRFixed(blank);
    NoCRAppend(kept, blank);
    DropCRsAppend(kept, blank);
    DropBlankAppend(DropCRs(kept), blank);
    DropBlankShorter(DropCRs(kept));
    DropCRsShorter(kept);
  }

  /** The lines of the file's own that are seen and not seen, and those that are left after the edit. */
  lemma LinesLoseOrKeep(seen: seq<string>, beyond: seq<string>, after: seq<string>)
    requires after == DropCRs(seen) || after == DropBlank(DropCRs(seen))
    ensures if NoCR(seen + beyond) && AllBlank(beyond) then NoCR(after) && DropBlank(after) == DropBlank(seen + beyond)
      else |Join(DropBlank(after))| < |Join(DropBlank(seen + beyond))|
  {
    DropBlankTwice(DropCRs(seen));
    DroppingShortens(seen, beyond);
    NoCRAppend(seen, beyond);
    if NoCR(seen) {
      NoCRKept(seen);
    }
  }

  lemma EditLosesOrKeeps(content: string, entries: seq<Entry>, parse: IPParser)
    requires AllWellFormed(entries, parse)
    ensures var after := Replaced(content, entries);
      if SafeToEdit(content) then SafeToEdit(after) && DropBlank(RawOutside(after)) == DropBlank(RawOutside(content))
      else |Join(DropBlank(RawOutside(after)))| < |Join(DropBlank(RawOutside(content)))|
  {
    var after := Replaced(content, entries);
    RawOutsideOfReplace(content, entries, parse);
    SeenOutside(content);
    LinesLoseOrKeep(OutsideOf(ShortPrefix(RawLines(content)), false), BeyondScanner(content), RawOutside(after));
    NothingBeyond(after);
  }

  lemma NothingBeyond(content: string)
    requires AllClean(RawLines(content))
    ensures BeyondScanner(content) == []
  {
    ShortPrefixLength(RawLines(content));
  }

  ghost predicate AddsWellFormed(edits: seq<Edit>, parse: IPParser) {
    forall i :: 0 <= i < |edits| && edits[i].AddEntries? ==> AllWellFormed(edits[i].added, parse)
  }

  lemma {:induction false} EditsOnlyLose(content: string, edits: seq<Edit>, parse: IPParser)
    requires AllWellFormed(Block(content, parse), parse) && AddsWellFormed(edits, parse)
    ensures SafeToEdit(content) ==>
      DropBlank(RawOutside(EditFiles(content, edits, parse))) == DropBlank(RawOutside(content))
    ensures |Join(DropBlank(RawOutside(EditFiles(content, edits, parse))))| <= |Join(DropBlank(RawOutside(content)))|
    ensures edits != [] && !SafeToEdit(content) ==>
      |Join(DropBlank(RawOutside(EditFiles(content, edits, parse))))| < |Join(DropBlank(RawOutside(content)))|
    decreases edits
  {
    if edits != [] {
      var block := EditBlock(Block(content, parse), edits[0]);
      EditBlockWellFormed(Block(content, parse), edits[0], parse);
      ParseOfReplace(content, block, parse);
      EditLosesOrKeeps(content, block, parse);
      EditsOnlyLose(EditFile(content, edits[0], parse), edits[1..], parse);
    }
  }

  /** Any number of edits keeps the file's other lines, as they stand in the file, up to trailing blank
      lines, exactly when the file was safe to edit. */
  lemma {:induction false} EditsKeepOtherLines(content: string, edits: seq<Edit>, parse: IPParser)
    requires edits != [] && AllWellFormed(Block(content, parse), parse) && AddsWellFormed(edits, parse)
    ensures DropBlank(RawOutside(EditFiles(content, edits, parse))) == DropBlank(RawOutside(content)) <==>
      SafeToEdit(content)
  {
    EditsOnlyLose(content, edits, parse);
  }

  /** Without overlong lines, the files that are safe to edit are those without a carriage return at the
      end of a line outside of the block. */
  lemma ShortLinesAreSafe(content: string)
    requires AllClean(RawLines(content))
    ensures SafeToEdit(content) <==> NoCR(RawOutside(content))
  {
    NothingBeyond(content);
  }

  // ----- Removing the block -----

  predicate EndsInNewline(s: string) {
    s != "" && s[|s| - 1] == '\n'
  }

  /** What `Remove` leaves as it is: a file without markers, overlong lines, carriage returns at the end
      of a line and a newline at its own end. */
  predicate NothingToRemove(content: string) {
    && NoMarkers(RawLines(content)) && AllClean(RawLines(content)) && NoCR(RawLines(content))
    && !EndsInNewline(content)
  }

  /** `Remove` finds nothing to write exactly for these files. */
  lemma RemoveWritesNothing(content: string)
    ensures Replaced(content, []) == content <==> NothingToRemove(content)
  {
    if NothingToRemove(content) {
      RemoveKeeps(content);
    }
    if Replaced(content, []) == content {
      KeptByRemove(content);
    }
  }

  lemma JoinCons(line: string, lines: seq<string>)
    ensures Join([line] + lines) == line + "\n" + Join(lines)
  {
    assert ([line] + lines)[1..] == lines;
  }

  lemma RawLinesOfCut(s: string, line: string, rest: string)
    requires s == line + "\n" + rest && LineEnd(s) == |line|
    ensures RawLines(s) == [line] + RawLines(rest)
  {
    assert s[..|line|] == line && s[|line| + 1..] == rest;
  }

  /** A text is its lines, if it does not end in a newline. */
  lemma {:induction false} TextOfRawLines(s: string)
    requires s != "" && !EndsInNewline(s)
    ensures Join(RawLines(s)) == s + "\n" && RawLines(s) != [] && RawLines(s)[|RawLines(s)| - 1] != ""
    decreases |s|
  {
    var n := LineEnd(s);
    if n < |s| {
      var (line, rest) := (s[..n], s[n + 1..]);
      TextOfRawLines(rest);
      assert s == line + "\n" + rest;
      RawLinesOfCut(s, line, rest);
      JoinCons(line, RawLines(rest));
      AssocText(line + "\n", rest, "\n");
    } else {
      assert s[..n] == s;
      OneLine(s);
      JoinCons(s, []);
    }
  }

  lemma LastOfText(kept: seq<string>, init: seq<string>, last: string)
    requires kept == init + [last] && AllClean(kept) && last != ""
    ensures !EndsInNewline(JoinLast(kept))
  {
    JoinPlusLast(init, last);
    assert last == kept[|kept| - 1];
  }

  lemma AllSeen(content: string)
    requires AllClean(RawLines(content))
    ensures Lines(content) == DropCRs(RawLines(content))
  {
    ScannerStopsAtLongLine(content);
    ShortPrefixLength(RawLines(content));
    ShortPrefixIsPrefix(RawLines(content));
  }

  lemma NothingBlankAtEnd(lines: seq<string>)
    requires lines == [] || lines[|lines| - 1] != ""
    ensures DropBlank(lines) == lines
  {
  }

  lemma RemoveKeeps(content: string)
    requires NothingToRemove(content)
    ensures Replaced(content, []) == content
  {
    var raw := RawLines(content);
    AllSeen(content);
    NoCRFixed(raw);
    NoMarkersNoBlock(content, s => None);
    UnprintedLines(content);
    if content != "" {
      TextOfRawLines(content);
    }
    NothingBlankAtEnd(raw);
  }

  /** Lines of which an edit keeps as many as there are have no carriage return to lose. */
  lemma KeptLinesHaveNoCR(raw: seq<string>)
    requires raw == DropBlank(DropCRs(raw))
    ensures NoCR(raw)
  {
    DropBlankPrefix(DropCRs(raw));
    NoCRFixed(raw);
  }

  lemma KeptByRemove(content: string)
    requires Replaced(content, []) == content
    ensures NothingToRemove(content)
  {
    var raw := RawLines(content);
    OutsideClean(content);
    UnprintedLines(content);
    RawOutsideOfNothing(content);
    DropBlankClean(Outside(content));
    AllSeen(content);
    DropCRsKeep(raw);
    NoMarkersNoBlock(content, s => None);
    KeptLinesHaveNoCR(raw);
    if raw != [] {
      SplitLast(raw);
      LastOfText(raw, raw[..|raw| - 1], raw[|raw| - 1]);
    }
  }

  /** A file without a block that ends in a newline is written all the same, without that newline. */
  lemma RemoveTrimsNewline()
    ensures !NothingToRemove("a\n") && Replaced("a\n", []) != "a\n" && NoMarkers(RawLines("a\n"))
  {
    RemoveWritesNothing("a\n");
  }

  // ----- A file that is cut off -----

  lemma OneLine(s: string)
    requires s != "" && '\n' !in s
    ensures RawLines(s) == [s] && (|s| >= MAX_TOKEN ==> Lines(s) == [])
  {
    LineEndAt(s, "");
    assert s + "" == s && s[..|s|] == s;
  }

  /** An edit of a file whose only line is 64 KiB long leaves nothing of it. */
  lemma OverlongLineIsLost()
    ensures var content := seq(MAX_TOKEN, _ => 'a');
      RawOutside(content) == [content] && Replaced(content, []) == "" && !SafeToEdit(content)
  {
    var content := seq(MAX_TOKEN, _ => 'a');
    OneLine(content);
    NothingToTrim(content);
    assert |Trim(content)| != |BEGIN| && |Trim(content)| != |END|;
    PlainLines([content], false);
    assert ShortPrefix([content]) == [] && [content][0..] == [content];
    assert content != "" && !AllBlank([content]);
  }
}
