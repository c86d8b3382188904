/**
 The managed block of a hosts file: its line scanner, its parser, its printer and the manager that
 edits it. A file is a sequence of one-byte characters. The address parser is a parameter: an address
 is known by the text that `IP.String` prints for it.
*/
module Hosts {
  import opened Wrappers
  import opened Text

  const BEGIN := "# BEGIN holepunch"
  const END := "# END holepunch"

  /** The scanner gives up at the first line of this many bytes or more. */
  const MAX_TOKEN := 65536

  datatype Entry = Entry(ip: string, hostname: string)

  /** `net.ParseIP` followed by `String`. */
  type IPParser = string -> Option<string>

  // ----- Lines -----

  function DropCR(s: string): string {
    if s != [] && s[|s| - 1] == '\r' then s[..|s| - 1] else s
  }

  function DropCRs(lines: seq<string>): (r: seq<string>)
    ensures |r| == |lines| && forall i :: 0 <= i < |lines| ==> r[i] == DropCR(lines[i])
  {
    if lines == [] then [] else [DropCR(lines[0])] + DropCRs(lines[1..])
  }

  /** The lines that the scanner delivers. */
  function Lines(s: string): seq<string>
    decreases |s|
  {
    if s == [] then []
    else
      var n := LineEnd(s);
      if n >= MAX_TOKEN then []
      else [DropCR(s[..n])] + if n < |s| then Lines(s[n + 1..]) else []
  }

  /** All lines of the text, without the scanner's limit. */
  function RawLines(s: string): seq<string>
    decreases |s|
  {
    if s == [] then []
    else
      var n := LineEnd(s);
      [s[..n]] + if n < |s| then RawLines(s[n + 1..]) else []
  }

  function Join(lines: seq<string>): string {
    if lines == [] then "" else lines[0] + "\n" + Join(lines[1..])
  }

  function TrimNewlines(s: string): string {
    if s != [] && s[|s| - 1] == '\n' then TrimNewlines(s[..|s| - 1]) else s
  }

  // ----- Words -----

  /** The length of the word that s begins with: it goes up to the first white space character. */
  function WordLen(s: string): (n: nat)
    ensures n <= |s| && (s != [] && SpaceLen(s) == 0 ==> n > 0)
  {
    if s == [] || SpaceLen(s) > 0 then 0 else 1 + WordLen(s[1..])
  }

  /** `strings.Fields` */
  function Words(s: string): seq<string>
    decreases |s|
  {
    var t := TrimLeft(s);
    if t == [] then [] else [t[..WordLen(t)]] + Words(t[WordLen(t)..])
  }

  // ----- The parser -----

  /** What one trimmed line inside the block contributes. */
  function LineEntry(line: string, parse: IPParser): seq<Entry> {
    if line == "" || line[0] == '#' then []
    else
      var parts := Words(line);
      if |parts| < 2 then []
      else
        var ip := parse(parts[0]);
        if ip.None? then [] else [Entry(ip.value, parts[1])]
  }

  function ParseFrom(lines: seq<string>, inBlock: bool, parse: IPParser): seq<Entry> {
    if lines == [] then []
    else
      var line := Trim(lines[0]);
      if line == BEGIN then ParseFrom(lines[1..], true, parse)
      else if line == END then []
      else if inBlock then LineEntry(line, parse) + ParseFrom(lines[1..], inBlock, parse)
      else ParseFrom(lines[1..], inBlock, parse)
  }

  /** The entries of the managed block. */
  function Block(content: string, parse: IPParser): seq<Entry> {
    ParseFrom(Lines(content), false, parse)
  }

  lemma ParseUnfold(lines: seq<string>, i: nat, inBlock: bool, parse: IPParser)
    requires i < |lines|
    ensures var (line, rest) := (Trim(lines[i]), lines[i + 1..]);
      ParseFrom(lines[i..], inBlock, parse) ==
        if line == BEGIN then ParseFrom(rest, true, parse)
        else if line == END then []
        else if inBlock then LineEntry(line, parse) + ParseFrom(rest, inBlock, parse)
        else ParseFrom(rest, inBlock, parse)
  {
  }

  method ParseManagedBlock(content: string, parse: IPParser) returns (entries: seq<Entry>)
    ensures entries == Block(content, parse)
  {
    entries := [];
    var inBlock := false;
    var lines := Lines(content);
    var i := 0;
    while i < |lines|
      invariant 0 <= i <= |lines|
      invariant entries + ParseFrom(lines[i..], inBlock, parse) == ParseFrom(lines, false, parse)
    {
      ParseUnfold(lines, i, inBlock, parse);
      var line := Trim(lines[i]);
      i := i + 1;
      if line == BEGIN {
        inBlock := true;
      } else if line == END {
        return;
      } else if inBlock {
        var more := ParseLine(line, parse);
        AssocEntries(entries, more, ParseFrom(lines[i..], true, parse));
        entries := entries + more;
      }
    }
  }

  lemma AssocEntries(a: seq<Entry>, b: seq<Entry>, c: seq<Entry>)
    ensures a + (b + c) == a + b + c
  {
  }

  method ParseLine(line: string, parse: IPParser) returns (entries: seq<Entry>)
    ensures entries == LineEntry(line, parse)
  {
    if line == "" || line[0] == '#' {
      return [];
    }
    var parts := Words(line);
    if |parts| >= 2 {
      var ip := parse(parts[0]);
      if ip.Some? {
        return [Entry(ip.value, parts[1])];
      }
    }
    return [];
  }

  // ----- Merge and subtract -----

  predicate HasHost(entries: seq<Entry>, hostname: string) {
    exists i :: 0 <= i < |entries| && entries[i].hostname == hostname
  }

  /** Appends the entries whose hostname is not there yet, one after the other. */
  function InsertAll(result: seq<Entry>, additions: seq<Entry>): seq<Entry>
    decreases additions
  {
    if additions == [] then result
    else InsertAll(if HasHost(result, additions[0].hostname) then result else result + [additions[0]], additions[1..])
  }

  function Merged(existing: seq<Entry>, additions: seq<Entry>): seq<Entry> {
    InsertAll(InsertAll([], existing), additions)
  }

  function Subtracted(existing: seq<Entry>, removals: seq<Entry>): seq<Entry> {
    if existing == [] then []
    else (if HasHost(removals, existing[0].hostname) then [] else [existing[0]]) + Subtracted(existing[1..], removals)
  }

  /** One of the two loops of `mergeEntries`, which share `seen` and `result`. */
  method AppendUnseen(entries: seq<Entry>, seen0: set<string>, result0: seq<Entry>)
    returns (seen: set<string>, result: seq<Entry>)
    requires forall h :: h in seen0 <==> HasHost(result0, h)
    ensures result == InsertAll(result0, entries)
    ensures forall h :: h in seen <==> HasHost(result, h)
  {
    seen, result := seen0, result0;
    for i := 0 to |entries|
      invariant InsertAll(result, entries[i..]) == InsertAll(result0, entries)
      invariant forall h :: h in seen <==> HasHost(result, h)
    {
      assert entries[i..][1..] == entries[i + 1..];
      var e := entries[i];
      if e.hostname !in seen {
        seen := seen + {e.hostname};
        ghost var was := result;
        result := result + [e];
        assert result[|was|] == e;
        assert forall k :: 0 <= k < |was| ==> result[k] == was[k];
      }
    }
  }

  method MergeEntries(existing: seq<Entry>, additions: seq<Entry>) returns (result: seq<Entry>)
    ensures result == Merged(existing, additions)
  {
    var seen;
    seen, result := AppendUnseen(existing, {}, []);
    seen, result := AppendUnseen(additions, seen, result);
  }

  method SubtractEntries(existing: seq<Entry>, removals: seq<Entry>) returns (result: seq<Entry>)
    ensures result == Subtracted(existing, removals)
  {
    var removeSet: set<string> := {};
    for i := 0 to |removals|
      invariant forall h :: h in removeSet <==> HasHost(removals[..i], h)
    {
      removeSet := removeSet + {removals[i].hostname};
      assert removals[..i + 1] == removals[..i] + [removals[i]];
      assert removals[..i + 1][i] == removals[i];
      assert forall k :: 0 <= k < i ==> removals[..i + 1][k] == removals[..i][k];
    }
    assert removals[..|removals|] == removals;
    result := [];
    for i := 0 to |existing|
      invariant result + Subtracted(existing[i..], removals) == Subtracted(existing, removals)
    {
      assert existing[i..][1..] == existing[i + 1..];
      if existing[i].hostname !in removeSet {
        result := result + [existing[i]];
      }
    }
  }

  // ----- The printer -----

  function Format(e: Entry): string {
    e.ip + " " + e.hostname
  }

  function FormatAll(entries: seq<Entry>): (r: seq<string>)
    ensures |r| == |entries| && forall i :: 0 <= i < |entries| ==> r[i] == Format(entries[i])
  {
    if entries == [] then [] else [Format(entries[0])] + FormatAll(entries[1..])
  }

  /** The lines outside of any block, before and after the first begin marker. */
  function Before(lines: seq<string>): seq<string> {
    if lines == [] || Trim(lines[0]) == BEGIN then []
    else if Trim(lines[0]) == END then Before(lines[1..])
    else [lines[0]] + Before(lines[1..])
  }

  function After(lines: seq<string>, inBlock: bool, found: bool): seq<string> {
    if lines == [] then []
    else if Trim(lines[0]) == BEGIN then After(lines[1..], true, true)
    else if Trim(lines[0]) == END then After(lines[1..], false, found)
    else if found && !inBlock then [lines[0]] + After(lines[1..], inBlock, found)
    else After(lines[1..], inBlock, found)
  }

  function Outside(content: string): seq<string> {
    Before(Lines(content)) + After(Lines(content), false, false)
  }

  function Replaced(content: string, entries: seq<Entry>): string {
    var before := Before(Lines(content));
    var after := After(Lines(content), false, false);
    if entries == [] then TrimNewlines(Join(before) + Join(after))
    else Join(before) + Join([BEGIN] + FormatAll(entries) + [END]) + Join(after)
  }

  lemma {:induction false} JoinAppend(a: seq<string>, b: seq<string>)
    ensures Join(a + b) == Join(a) + Join(b)
  {
    if a == [] {
      assert a + b == b;
    } else {
      assert (a + b)[1..] == a[1..] + b;
      JoinAppend(a[1..], b);
    }
  }

  lemma JoinSnoc(lines: seq<string>, line: string)
    ensures Join(lines + [line]) == Join(lines) + (line + "\n")
  {
    JoinAppend(lines, [line]);
    assert Join([line]) == line + "\n" + Join([]);
  }

  lemma OutsideUnfold(lines: seq<string>, i: nat, inBlock: bool, found: bool)
    requires i < |lines|
    ensures var (line, rest) := (lines[i], lines[i + 1..]);
      && Before(lines[i..]) ==
           (if Trim(line) == BEGIN then [] else if Trim(line) == END then Before(rest) else [line] + Before(rest))
      && After(lines[i..], inBlock, found) ==
           (if Trim(line) == BEGIN then After(rest, true, true)
            else if Trim(line) == END then After(rest, false, found)
            else if found && !inBlock then [line] + After(rest, inBlock, found)
            else After(rest, inBlock, found))
  {
  }

  /** What the rest of the lines still adds to the text before, and after, the block. */
  function RestBefore(lines: seq<string>, found: bool): seq<string> {
    if found then [] else Before(lines)
  }

  lemma Assoc(a: seq<string>, line: string, rest: seq<string>)
    ensures a + ([line] + rest) == a + [line] + rest
  {
  }

  /** The line loop of `replaceManagedBlock`. */
  method SplitOutside(lines: seq<string>) returns (before: string, after: string)
    ensures before == Join(Before(lines)) && after == Join(After(lines, false, false))
  {
    before, after := "", "";
    var inBlock, foundBlock := false, false;
    ghost var b: seq<string>, a: seq<string> := [], [];
    for i := 0 to |lines|
      invariant inBlock ==> foundBlock
      invariant before == Join(b) && after == Join(a)
      invariant b + RestBefore(lines[i..], foundBlock) == Before(lines)
      invariant a + After(lines[i..], inBlock, foundBlock) == After(lines, false, false)
    {
      OutsideUnfold(lines, i, inBlock, foundBlock);
      var line := lines[i];
      var trimmed := Trim(line);
      if trimmed == BEGIN {
        inBlock, foundBlock := true, true;
      } else if trimmed == END {
        inBlock := false;
      } else if !inBlock {
        if foundBlock {
          JoinSnoc(a, line);
          Assoc(a, line, After(lines[i + 1..], inBlock, foundBlock));
          after, a := after + (line + "\n"), a + [line];
        } else {
          JoinSnoc(b, line);
          Assoc(b, line, Before(lines[i + 1..]));
          before, b := before + (line + "\n"), b + [line];
        }
      }
    }
    assert b + [] == b && a + [] == a;
  }

  method ReplaceManagedBlock(content: string, entries: seq<Entry>) returns (r: string)
    ensures r == Replaced(content, entries)
  {
    var before, after := SplitOutside(Lines(content));
    if |entries| == 0 {
      return TrimNewlines(before + after);
    }
    var block := "" + (BEGIN + "\n");
    JoinSnoc([], BEGIN);
    for i := 0 to |entries|
      invariant block == Join([BEGIN] + FormatAll(entries)[..i])
    {
      block := block + (Format(entries[i]) + "\n");
      JoinSnoc([BEGIN] + FormatAll(entries)[..i], Format(entries[i]));
      assert [BEGIN] + FormatAll(entries)[..i] + [Format(entries[i])] == [BEGIN] + FormatAll(entries)[..i + 1];
    }
    assert FormatAll(entries)[..|entries|] == FormatAll(entries);
    JoinSnoc([BEGIN] + FormatAll(entries), END);
    block := block + (END + "\n");
    r := before + block + after;
  }

  // ----- The manager -----

  /** The hosts file as the manager's three edits see it. The mutex is left out: each edit is one
      critical section. `writes` says whether the write function succeeds; when it fails, nothing
      is written. */
  class Manager {
    const parse: IPParser
    var file: string

    constructor (parse: IPParser, content: string)
      ensures this.parse == parse && file == content
    {
      this.parse := parse;
      file := content;
    }

    method Add(entries: seq<Entry>, writes: bool)
      modifies this
      ensures file == if writes then Replaced(old(file), Merged(Block(old(file), parse), entries)) else old(file)
    {
      var existing := ParseManagedBlock(file, parse);
      var merged := MergeEntries(existing, entries);
      var content := ReplaceManagedBlock(file, merged);
      if writes {
        file := content;
      }
    }

    /** `called` says whether the write function was called. */
    method Remove(writes: bool) returns (called: bool)
      modifies this
      ensures called <==> Replaced(old(file), []) != old(file)
      ensures file == if called && writes then Replaced(old(file), []) else old(file)
    {
      var content := ReplaceManagedBlock(file, []);
      called := content != file;
      if called && writes {
        file := content;
      }
    }

    method RemoveEntries(entries: seq<Entry>, writes: bool)
      modifies this
      ensures file == if writes then Replaced(old(file), Subtracted(Block(old(file), parse), entries)) else old(file)
    {
      var existing := ParseManagedBlock(file, parse);
      var filtered := SubtractEntries(existing, entries);
      var content := ReplaceManagedBlock(file, filtered);
      if writes {
        file := content;
      }
    }
  }
}
