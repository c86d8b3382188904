/** The embedded resolver's records, and the adapter through which the engine changes them. */
module Resolver {
  import opened Wrappers

  /** How many backslashes a text ends in. */
  function Backslashes(s: string): nat {
    if s != "" && s[|s| - 1] == '\\' then 1 + Backslashes(s[..|s| - 1]) else 0
  }

  /** A name that ends in a dot which is not escaped, as the DNS library decides it. */
  predicate IsFqdn(s: string) {
    s != "" && s[|s| - 1] == '.' && Backslashes(s[..|s| - 1]) % 2 == 0
  }

  /** An address is the last octet of a loopback address, or None when there is none. */
  type Records = map<string, Option<int>>

  datatype Entry = Entry(ip: Option<int>, hostname: string)

  function Fqdn(h: string): string {
    if IsFqdn(h) then h else h + "."
  }

  /** b is a with the dot that makes it fully qualified. */
  predicate DottedTwin(a: string, b: string) {
    !IsFqdn(a) && IsFqdn(b) && b == a + "."
  }

  /** Two hostnames share a record exactly when they are equal or one is the other's dotted twin. */
  lemma FqdnCollides(a: string, b: string)
    ensures Fqdn(a) == Fqdn(b) <==> a == b || DottedTwin(a, b) || DottedTwin(b, a)
  {
  }

  function AddAll(records: Records, entries: seq<Entry>): Records {
    if entries == [] then records
    else
      var e := entries[|entries| - 1];
      AddAll(records, entries[..|entries| - 1])[Fqdn(e.hostname) := e.ip]
  }

  function NamesOf(entries: seq<Entry>): set<string> {
    set e | e in entries :: Fqdn(e.hostname)
  }

  class Server {
    var records: Records

    constructor ()
      ensures records == map[]
    {
      records := map[];
    }

    method Register(hostname: string, ip: Option<int>)
      modifies this
      ensures records == old(records)[Fqdn(hostname) := ip]
    {
      var fqdn := Fqdn(hostname);
      records := records[fqdn := ip];
    }

    method Unregister(hostname: string)
      modifies this
      ensures records == old(records) - {Fqdn(hostname)}
    {
      var fqdn := Fqdn(hostname);
      records := records - {fqdn};
    }
  }

  class DNSAdapter {
    const server: Server

    constructor (server: Server)
      ensures this.server == server
    {
      this.server := server;
    }

    method Add(entries: seq<Entry>)
      modifies server
      ensures server.records == AddAll(old(server.records), entries)
    {
      var k := 0;
      while k < |entries|
        invariant k <= |entries| && server.records == AddAll(old(server.records), entries[..k])
      {
        assert entries[..k + 1][..k] == entries[..k];
        server.Register(entries[k].hostname, entries[k].ip);
        k := k + 1;
      }
      assert entries[..k] == entries;
    }

    method RemoveEntries(entries: seq<Entry>)
      modifies server
      ensures server.records == old(server.records) - NamesOf(entries)
    {
      var k := 0;
      while k < |entries|
        invariant k <= |entries| && server.records == old(server.records) - NamesOf(entries[..k])
      {
        assert entries[..k + 1] == entries[..k] + [entries[k]];
        server.Unregister(entries[k].hostname);
        k := k + 1;
      }
      assert entries[..k] == entries;
    }

    /** Unregisters every name of a copy of the records. */
    method Remove()
      modifies server
      ensures server.records == Emptied(old(server.records))
    {
      var copy := server.records;
      var left := copy.Keys;
      assert FqdnsOf({}) == {} && copy.Keys - left == {};
      while left != {}
        invariant left <= copy.Keys
        invariant server.records == Without(copy, left)
        decreases |left|
      {
        var h :| h in left;
        server.Unregister(h);
        WithoutOne(copy, left, h);
        left := left - {h};
      }
    }
  }

  function FqdnsOf(names: set<string>): set<string> {
    set h | h in names :: Fqdn(h)
  }

  /** The records once the names of all but some hostnames are unregistered. */
  function Without(records: Records, left: set<string>): Records {
    records - FqdnsOf(records.Keys - left)
  }

  lemma WithoutOne(records: Records, left: set<string>, h: string)
    requires h in left && left <= records.Keys
    ensures Without(records, left - {h}) == Without(records, left) - {Fqdn(h)}
  {
  }

  function Emptied(records: Records): Records {
    Without(records, {})
  }

  // ----- What the records answer -----

  /** The address of the last entry for that fully qualified name. */
  function LastFor(entries: seq<Entry>, fqdn: string): Option<Option<int>> {
    if entries == [] then None
    else if Fqdn(entries[|entries| - 1].hostname) == fqdn then Some(entries[|entries| - 1].ip)
    else LastFor(entries[..|entries| - 1], fqdn)
  }

  lemma {:induction false} LastForMeaning(entries: seq<Entry>, fqdn: string)
    ensures LastFor(entries, fqdn).Some? <==> fqdn in NamesOf(entries)
  {
    if entries != [] {
      var k := |entries| - 1;
      LastForMeaning(entries[..k], fqdn);
      assert entries == entries[..k] + [entries[k]];
    }
  }

  /** After an `Add`, a name answers with the last entry for it, and with what it answered before when
      there is none. */
  lemma {:induction false} AddAnswers(records: Records, entries: seq<Entry>, fqdn: string)
    ensures var (after, last) := (AddAll(records, entries), LastFor(entries, fqdn));
      if last.Some? then fqdn in after && after[fqdn] == last.value
      else (fqdn in after <==> fqdn in records) && (fqdn in records ==> after[fqdn] == records[fqdn])
  {
    if entries != [] {
      AddAnswers(records, entries[..|entries| - 1], fqdn);
    }
  }

  /** Removing the entries just added gives back the records exactly when none of the names had one. */
  lemma {:induction false} RemoveUndoesAdd(records: Records, entries: seq<Entry>)
    ensures AddAll(records, entries) - NamesOf(entries) == records
      <==> records.Keys !! NamesOf(entries)
  {
    var after := AddAll(records, entries) - NamesOf(entries);
    forall fqdn
      ensures fqdn in after <==> fqdn in records && fqdn !in NamesOf(entries)
      ensures fqdn in after ==> after[fqdn] == records[fqdn]
    {
      AddAnswers(records, entries, fqdn);
      LastForMeaning(entries, fqdn);
    }
    if records.Keys !! NamesOf(entries) {
      assert after == records;
    }
  }

  /** `Remove` empties the records exactly when all their names are fully qualified. */
  lemma RemoveEmptiesKeys(records: Records)
    ensures Emptied(records) == map[] <==> forall h :: h in records ==> IsFqdn(h)
  {
    if h :| h in records && !IsFqdn(h) {
      var kept := ShortestStays(records, h);
      assert kept in Emptied(records);
    } else {
      assert forall h :: h in records ==> Fqdn(h) == h;
    }
  }

  lemma {:induction false} ShortestStays(records: Records, h: string) returns (kept: string)
    requires h in records && !IsFqdn(h)
    ensures kept in Emptied(records)
    decreases |h|
  {
    kept := h;
    if g :| g in records && Fqdn(g) == h {
      kept := ShortestStays(records, g);
    }
  }

  /** The name ends in a backslash that escapes what comes after it. */
  predicate EndsEscaping(h: string) {
    Backslashes(h) % 2 == 1
  }

  lemma FqdnIsFqdn(h: string)
    ensures IsFqdn(Fqdn(h)) <==> !EndsEscaping(h)
  {
    assert (h + ".")[..|h|] == h;
  }

  /** `Remove` empties the records that some hostnames have exactly when none of the hostnames ends in a
      backslash that would escape the final dot. */
  lemma RemoveEmpties(records: Records, hostnames: set<string>)
    requires records.Keys == FqdnsOf(hostnames)
    ensures Emptied(records) == map[] <==> forall h :: h in hostnames ==> !EndsEscaping(h)
  {
    RemoveEmptiesKeys(records);
    forall h | h in hostnames
      ensures IsFqdn(Fqdn(h)) <==> !EndsEscaping(h)
    {
      FqdnIsFqdn(h);
    }
    if forall h :: h in records ==> IsFqdn(h) {
      assert forall h :: h in hostnames ==> Fqdn(h) in records;
    }
  }

  /** A hostname whose record `Remove` leaves behind. */
  lemma EscapedNameStays()
    ensures EndsEscaping("x\\") && Emptied(AddAll(map[], [Entry(Some(2), "x\\")])) != map[]
  {
    var (h, e) := ("x\\", Entry(Some(2), "x\\"));
    assert h[..1] == "x" && Backslashes("x") == 0 && Backslashes(h) == 1;
    var records := AddAll(map[], [e]);
    assert [e][..|[e]| - 1] == [] && AddAll(map[], []) == map[] && [e][|[e]| - 1] == e;
    assert records.Keys == {Fqdn(h)} == FqdnsOf({h});
    RemoveEmpties(records, {h});
    assert h in {h};
  }
}
