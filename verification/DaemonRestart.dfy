/** The runs in which an old goroutine spoils what a command did, and exactly when a restart is safe from them. */
module DaemonRestart {
  import opened Wrappers
  import opened IPAllocator
  import opened State
  import opened Lifecycle
  import opened LifecycleInvariant
  import opened Daemon
  import opened DaemonInvariant
  import opened DaemonAddress
  import opened DaemonRelease
  import opened DaemonRuns

  // ----- Runs that end in what a stop should have undone -----

  lemma InitialInv(sys: System)
    ensures DaemonInv(sys, BOOT) && AddressInv(BOOT)
  {
  }

  /** The only instance, of a key, past its context check. */
  lemma PastFromBoot(sys: System, key: string) returns (events: seq<Event>, d: Daemon, octet: Byte)
    requires |sys.keys| <= RANGE_SIZE && key in sys.keys
    ensures DaemonRun(sys, BOOT, events) == Some(d) && ValidTable(d.table) && octet in d.table && d.table[octet] == key
    ensures d.cmd.Idle? && |d.insts| == 1 && IsLive(d, 0) && d.insts[0] == Instance(key, octet, PAST)
  {
    InitialInv(sys);
    var table;
    octet, table := UpRun(sys, BOOT, key);
    AllocateMeaning(BOOT.table, sys.hash, key);
    var up := Inserted(BOOT, key, octet, table);
    PassRun(sys.asg(key));
    PlainRun(sys, up, 0, [Go], PAST);
    events := [UpCheck(key)] + [UpAllocate] + [UpInsert];
    RunAppend(sys, BOOT, events, up, Threads(0, [Go]));
    events, d := events + Threads(0, [Go]), With(up, 0, PAST);
  }

  /** In any configuration a key's address can be owned again after its release, without an up. */
  lemma AddressComesBack(sys: System, key: string)
    returns (events: seq<Event>, before: Daemon, d: Daemon, more: seq<Event>, n: Daemon)
    requires |sys.keys| <= RANGE_SIZE && key in sys.keys
    ensures DaemonRun(sys, BOOT, events) == Some(before) && before.cmd.Cleaning? && before.cmd.phase.ReleaseIP?
    ensures DaemonStep(sys, before, CleanNext) == Some(d) && key !in d.table.Values
    ensures NoUp(more, key) && DaemonRun(sys, d, more) == Some(n) && key in n.table.Values
  {
    var start, past, octet := PastFromBoot(sys, key);
    var stop := ReleasingRun(sys, past, 0, octet);
    before := Releasing(With(past, 0, Stopped(PAST)), 0);
    RunAppend(sys, BOOT, start, past, stop);
    events := start + stop;
    ReleaseStep(sys, before, 0);
    d := Freed(before, 0, key);
    ReleaseMeaning(before.table, key);
    InitialInv(sys);
    DaemonRunKeepsInv(sys, BOOT, before, events);
    DaemonStepKeepsInv(sys, before, d, CleanNext);
    more, n := PastCheckAllocates(sys, d, 0);
  }

  /** The only instance, of a key, at its registration. */
  lemma AddingFromBoot(sys: System, key: string) returns (events: seq<Event>, d: Daemon, octet: Byte)
    requires |sys.keys| <= RANGE_SIZE && key in sys.keys
    ensures DaemonRun(sys, BOOT, events) == Some(d) && ValidTable(d.table) && octet in d.table && d.table[octet] == key
    ensures AllocateSpec(map[], sys.hash, key) == (d.table, Ok(octet)) && d.live == map[key := 0] && d.records == map[]
    ensures d.cmd.Idle? && d.insts == [Instance(key, octet, Adding(Some(octet)))] && CalmRun(sys, BOOT, events)
  {
    InitialInv(sys);
    var table;
    octet, table := UpRun(sys, BOOT, key);
    AllocateMeaning(BOOT.table, sys.hash, key);
    var up := Inserted(BOOT, key, octet, table);
    var toAdd := AddingRun(sys, up, 0, octet);
    var start := [UpCheck(key)] + [UpAllocate] + [UpInsert];
    RunAppend(sys, BOOT, start, up, toAdd);
    events, d := start + toAdd, With(up, 0, Adding(Some(octet)));
    CalmUp(sys, BOOT, key, octet, table);
    CalmWithoutUps(sys, up, toAdd);
    CalmAppend(sys, BOOT, start, up, toAdd);
  }

  lemma {:induction false} CalmAppend(sys: System, d: Daemon, xs: seq<Event>, mid: Daemon, ys: seq<Event>)
    requires DaemonRun(sys, d, xs) == Some(mid) && CalmRun(sys, d, xs) && CalmRun(sys, mid, ys)
    ensures CalmRun(sys, d, xs + ys)
    decreases |xs|
  {
    if xs == [] {
      assert xs + ys == ys;
    } else {
      assert (xs + ys)[1..] == xs[1..] + ys && (xs + ys)[0] == xs[0];
      CalmAppend(sys, DaemonStep(sys, d, xs[0]).value, xs[1..], mid, ys);
    }
  }

  lemma {:induction false} CalmWithoutUps(sys: System, d: Daemon, events: seq<Event>)
    requires forall e :: e in events ==> !e.UpInsert?
    ensures CalmRun(sys, d, events)
    decreases |events|
  {
    if events != [] {
      assert events[0] in events;
      var next := DaemonStep(sys, d, events[0]);
      if next.Some? {
        CalmWithoutUps(sys, next.value, events[1..]);
      }
    }
  }

  /** The start of a key that no goroutine has is calm. */
  lemma CalmUp(sys: System, d: Daemon, key: string, octet: int, table: Table)
    requires DaemonRun(sys, d, [UpCheck(key)] + [UpAllocate]) == Some(Given(sys, d, key, octet, table))
    requires DaemonStep(sys, Given(sys, d, key, octet, table), UpInsert) == Some(Inserted(d, key, octet, table))
    requires forall j: nat :: NotStale(d, key, octet, j)
    ensures CalmRun(sys, d, [UpCheck(key)] + [UpAllocate] + [UpInsert])
  {
    var given := Given(sys, d, key, octet, table);
    forall j: nat
      ensures NotStale(given, key, octet, j)
    {
      assert NotStale(d, key, octet, j);
    }
    assert [UpInsert][1..] == [] && CalmRun(sys, given, [UpInsert]);
    CalmWithoutUps(sys, d, [UpCheck(key)] + [UpAllocate]);
    CalmAppend(sys, d, [UpCheck(key)] + [UpAllocate], given, [UpInsert]);
  }

  /** In any configuration a key's name can have a record again after its removal, without an up, though no
      goroutine is left that could allocate. */
  lemma RecordComesBack(sys: System, key: string)
    returns (events: seq<Event>, before: Daemon, d: Daemon, more: seq<Event>, n: Daemon)
    requires |sys.keys| <= RANGE_SIZE && key in sys.keys
    ensures DaemonRun(sys, BOOT, events) == Some(before) && before.cmd.Removing?
    ensures DaemonStep(sys, before, RemoveNext) == Some(d) && d.cmd.Idle? && sys.fqdn(key) !in d.records
    ensures |d.insts| == 1 && !PastCheck(d.insts[0].s.go) && AtAddDNS(d.insts[0].s.go)
    ensures NoUp(more, key) && DaemonRun(sys, d, more) == Some(n) && sys.fqdn(key) in n.records
  {
    var start, adding, octet := AddingFromBoot(sys, key);
    var stop := RemovingRun(sys, adding, 0, octet);
    before := Deleted(Freed(With(adding, 0, Stopped(Adding(Some(octet)))), 0, key), 0, key);
    RunAppend(sys, BOOT, start, adding, stop);
    events := start + stop;
    RemoveStep(sys, before, 0);
    d := Removed(sys, before, key);
    RegisterStep(sys, d, 0);
    n := DaemonStep(sys, d, Thread(0, GoSucceeds)).value;
    more := [Thread(0, GoSucceeds)];
    RunOne(sys, d, Thread(0, GoSucceeds), n);
  }

  // ----- Restarting a key -----

  /** A stale goroutine that registers after the new instance did. */
  lemma StaleRegisters(sys: System, d: Daemon, i: nat, j: nat) returns (events: seq<Event>, n: Daemon)
    requires ValidTable(d.table) && i < |d.insts| && j < |d.insts| && i != j && d.insts[i].key == d.insts[j].key
    requires d.insts[i].s == INIT && d.cmd.Idle? && IsLive(d, i)
    requires 0 <= d.insts[i].localIP < 0x100 && d.insts[i].localIP in d.table &&
      d.table[d.insts[i].localIP] == d.insts[i].key
    requires AtAddDNS(d.insts[j].s.go) && d.insts[j].s.ip != Some(d.insts[i].localIP)
    ensures DaemonRun(sys, d, events) == Some(n) && i < |n.insts| && Bound(n, i) && Registered(n.insts[i].s)
    ensures n.insts[i].key == d.insts[i].key && !Answers(sys, n, d.insts[i].key, d.insts[i].localIP)
    ensures forall e :: e in events ==> e.Thread?
  {
    var octet: Byte := d.insts[i].localIP;
    var toAdd := AddingRun(sys, d, i, octet);
    var adding := With(d, i, Adding(Some(octet)));
    RegisterStep(sys, adding, i);
    var added := DaemonStep(sys, adding, Thread(i, GoSucceeds)).value;
    assert added.insts[j] == d.insts[j];
    RegisterStep(sys, added, j);
    n := DaemonStep(sys, added, Thread(j, GoSucceeds)).value;
    RunOne(sys, added, Thread(j, GoSucceeds), n);
    RunOne(sys, adding, Thread(i, GoSucceeds), added);
    RunAppend(sys, adding, [Thread(i, GoSucceeds)], added, [Thread(j, GoSucceeds)]);
    RunAppend(sys, d, toAdd, adding, [Thread(i, GoSucceeds)] + [Thread(j, GoSucceeds)]);
    events := toAdd + ([Thread(i, GoSucceeds)] + [Thread(j, GoSucceeds)]);
  }

  /** While it is running, a registered instance's name is answered with its address. */
  ghost predicate AnsweredAt(sys: System, d: Daemon, i: nat, key: string, octet: int) {
    i < |d.insts| && Bound(d, i) && Registered(d.insts[i].s) ==> Answers(sys, d, key, octet)
  }

  ghost predicate AlwaysAnswered(sys: System, d: Daemon, i: nat, key: string, octet: int) {
    forall more, n :: DaemonRun(sys, d, more) == Some(n) ==> AnsweredAt(sys, n, i, key, octet)
  }

  lemma CalmRestart(sys: System, before: Daemon, d: Daemon, key: string, octet: int)
    requires DaemonInv(sys, d) && AddressInv(d) && before.cmd == Allocated(key, octet) && OwnName(sys, key)
    requires DaemonStep(sys, before, UpInsert) == Some(d) && NoneStale(before, key, octet)
    ensures AlwaysAnswered(sys, d, |before.insts|, key, octet)
  {
    var i := |before.insts|;
    NewRecordOk(sys, before, d, UpInsert, i);
    forall more, n | DaemonRun(sys, d, more) == Some(n)
      ensures AnsweredAt(sys, n, i, key, octet)
    {
      RunKeepsRecord(sys, d, n, more, i);
    }
  }

  lemma StaleRestart(sys: System, before: Daemon, d: Daemon, key: string, octet: int)
    requires DaemonInv(sys, d) && AddressInv(d) && before.cmd == Allocated(key, octet)
    requires DaemonStep(sys, before, UpInsert) == Some(d) && !NoneStale(before, key, octet)
    ensures !AlwaysAnswered(sys, d, |before.insts|, key, octet)
  {
    var i := |before.insts|;
    var j: nat :| !NotStale(before, key, octet, j);
    assert AddressOk(d, i) && Bound(d, i);
    var more, n := StaleRegisters(sys, d, i, j);
    assert !AnsweredAt(sys, n, i, key, octet);
  }

  /** An up command has just inserted an instance of a key whose name is its own. In every continuation,
      for as long as it is running, the resolver answers with its address once it has registered, if and
      only if no goroutine of the key was about to register another address. */
  lemma RestartIsSafe(sys: System, before: Daemon, events: seq<Event>, d: Daemon, key: string, octet: int)
    requires DaemonRun(sys, BOOT, events) == Some(before) && before.cmd == Allocated(key, octet) && OwnName(sys, key)
    requires DaemonStep(sys, before, UpInsert) == Some(d)
    ensures NoneStale(before, key, octet) <==> AlwaysAnswered(sys, d, |before.insts|, key, octet)
  {
    InitialInv(sys);
    RunKeepsAddressInv(sys, BOOT, before, events);
    DaemonStepKeepsInv(sys, before, d, UpInsert);
    StepKeepsAddressInv(sys, before, d, UpInsert);
    if NoneStale(before, key, octet) {
      CalmRestart(sys, before, d, key, octet);
    } else {
      StaleRestart(sys, before, d, key, octet);
    }
  }

  lemma FirstOctetIsHash(sys: System, key: string)
    ensures AllocateSpec(map[], sys.hash, key) ==
      (map[HashToOctet(sys.hash, key) := key], Ok(HashToOctet(sys.hash, key)))
  {
    AllocatesFirstFree(map[], sys.hash, key, HashToOctet(sys.hash, key));
  }

  /** A key that was started and stopped, with its goroutine about to register. */
  lemma LeftBehind(sys: System, key: string) returns (events: seq<Event>, d: Daemon, octet: Byte)
    requires |sys.keys| <= RANGE_SIZE && key in sys.keys
    ensures DaemonRun(sys, BOOT, events) == Some(d) && DaemonInv(sys, d) && d.cmd.Idle? && d.live == map[] &&
      d.table == map[]
    ensures octet == HashToOctet(sys.hash, key) && d.insts == [Instance(key, octet, Stopped(Adding(Some(octet))))]
  {
    FirstOctetIsHash(sys, key);
    var start, adding;
    start, adding, octet := AddingFromBoot(sys, key);
    var stop := DownRun(sys, adding, 0, octet);
    RunAppend(sys, BOOT, start, adding, stop);
    events := start + stop;
    d := DaemonRun(sys, adding, stop).value;
    InitialInv(sys);
    DaemonRunKeepsInv(sys, BOOT, d, events);
    assert d.table == map[] && d.live == map[];
    assert d.insts == [Instance(key, octet, Stopped(Adding(Some(octet))))];
  }

  lemma OtherTakesOctet(sys: System, d: Daemon, other: string) returns (up: Daemon)
    requires DaemonInv(sys, d) && |sys.keys| <= RANGE_SIZE && d.cmd.Idle? && other in sys.keys
    requires d.live == map[] && d.table == map[] && |d.insts| == 1
    ensures DaemonRun(sys, d, [UpCheck(other)] + [UpAllocate] + [UpInsert]) == Some(up)
    ensures up.cmd.Idle? && up.live == map[other := 1] && up.table.Keys == {HashToOctet(sys.hash, other)}
    ensures |up.insts| == 2 && up.insts[0] == d.insts[0] && up.table.Values == {other}
  {
    FirstOctetIsHash(sys, other);
    var octet, table := UpRun(sys, d, other);
    up := Inserted(d, other, octet, table);
  }

  lemma KeyGetsAnother(sys: System, up: Daemon, key: string) returns (before: Daemon, octet: Byte)
    requires DaemonInv(sys, up) && |sys.keys| <= RANGE_SIZE && up.cmd.Idle? && key in sys.keys && key !in up.live
    requires key !in up.table.Values && |up.insts| > 0 && up.insts[0].key == key && AtAddDNS(up.insts[0].s.go)
    requires up.insts[0].s.ip.Some? && up.insts[0].s.ip.value in up.table.Keys
    ensures DaemonRun(sys, up, [UpCheck(key)] + [UpAllocate]) == Some(before)
    ensures before.cmd == Allocated(key, octet) && !NoneStale(before, key, octet)
  {
    var table;
    octet, table := UpRun(sys, up, key);
    before := Given(sys, up, key, octet, table);
    AllocateMeaning(up.table, sys.hash, key);
    assert !NotStale(before, key, octet, 0);
  }

  /** Whenever two keys have the same hash octet, a key can be started while an old goroutine of it is about
      to register another address, that the other key has meanwhile. */
  lemma StaleRestartExists(sys: System, key: string, other: string)
    returns (events: seq<Event>, before: Daemon, octet: Byte)
    requires |sys.keys| <= RANGE_SIZE && key in sys.keys && other in sys.keys && key != other
    requires HashToOctet(sys.hash, key) == HashToOctet(sys.hash, other)
    ensures DaemonRun(sys, BOOT, events) == Some(before) && before.cmd == Allocated(key, octet)
    ensures !NoneStale(before, key, octet)
  {
    var start, down, o := LeftBehind(sys, key);
    var up := OtherTakesOctet(sys, down, other);
    var more := [UpCheck(other)] + [UpAllocate] + [UpInsert];
    DaemonRunKeepsInv(sys, down, up, more);
    RunAppend(sys, BOOT, start, down, more);
    before, octet := KeyGetsAnother(sys, up, key);
    RunAppend(sys, BOOT, start + more, up, [UpCheck(key)] + [UpAllocate]);
    events := start + more + ([UpCheck(key)] + [UpAllocate]);
  }

  // ----- Names -----

  /** In every calm run, at every moment, every running instance of the key that has registered is answered. */
  ghost predicate AnsweredInCalmRuns(sys: System, key: string) {
    forall events, d, i: nat ::
      DaemonRun(sys, BOOT, events) == Some(d) && CalmRun(sys, BOOT, events) && i < |d.insts| && d.insts[i].key == key
      ==> AnsweredAt(sys, d, i, key, d.insts[i].localIP)
  }

  /** The only instance, of a key, registered. */
  lemma RegisteredFromBoot(sys: System, key: string) returns (events: seq<Event>, d: Daemon, octet: Byte)
    requires |sys.keys| <= RANGE_SIZE && key in sys.keys
    ensures DaemonRun(sys, BOOT, events) == Some(d) && CalmRun(sys, BOOT, events) && DaemonInv(sys, d)
    ensures d.cmd.Idle? && d.live == map[key := 0] && d.insts == [Instance(key, octet, Added(Some(octet)))]
    ensures octet in d.table && d.table[octet] == key
  {
    InitialInv(sys);
    var start, adding;
    start, adding, octet := AddingFromBoot(sys, key);
    var e := Thread(0, GoSucceeds);
    RegisterStep(sys, adding, 0);
    d := DaemonStep(sys, adding, e).value;
    RunOne(sys, adding, e, d);
    RunAppend(sys, BOOT, start, adding, [e]);
    CalmWithoutUps(sys, adding, [e]);
    CalmAppend(sys, BOOT, start, adding, [e]);
    events := start + [e];
    DaemonRunKeepsInv(sys, BOOT, d, events);
  }

  lemma TwinRegisters(sys: System, d: Daemon, twin: string) returns (events: seq<Event>, n: Daemon)
    requires DaemonInv(sys, d) && |sys.keys| <= RANGE_SIZE && d.cmd.Idle? && twin in sys.keys && twin !in d.live
    requires forall j :: 0 <= j < |d.insts| ==> d.insts[j].key != twin
    ensures DaemonRun(sys, d, events) == Some(n) && CalmRun(sys, d, events)
    ensures |n.insts| == |d.insts| + 1 && n.insts[..|d.insts|] == d.insts && n.live == d.live[twin := |d.insts|] &&
      n.cmd.Idle?
    ensures var r := AllocateSpec(d.table, sys.hash, twin).1;
      r.Ok? && Answers(sys, n, twin, r.value) && n.table == AllocateSpec(d.table, sys.hash, twin).0
  {
    var o, table := UpRun(sys, d, twin);
    AllocateMeaning(d.table, sys.hash, twin);
    var up := Inserted(d, twin, o, table);
    var i := |d.insts|;
    var toAdd := AddingRun(sys, up, i, o);
    var adding := With(up, i, Adding(Some(o)));
    RegisterStep(sys, adding, i);
    n := DaemonStep(sys, adding, Thread(i, GoSucceeds)).value;
    RunOne(sys, adding, Thread(i, GoSucceeds), n);
    RunAppend(sys, up, toAdd, adding, [Thread(i, GoSucceeds)]);
    var start := [UpCheck(twin)] + [UpAllocate] + [UpInsert];
    var rest := toAdd + [Thread(i, GoSucceeds)];
    RunAppend(sys, d, start, up, rest);
    CalmUp(sys, d, twin, o, table);
    CalmWithoutUps(sys, up, rest);
    CalmAppend(sys, d, start, up, rest);
    events := start + rest;
  }

  lemma TwinAnswers(sys: System, t: Table, d: Daemon, key: string, octet: Byte, twin: string)
    requires ValidTable(t) && octet in t && t[octet] == key && key != twin && sys.fqdn(key) == sys.fqdn(twin)
    requires |d.insts| == 2 && d.insts[..1] == [Instance(key, octet, Added(Some(octet)))]
    requires d.cmd.Idle? && d.live == map[key := 0][twin := 1]
    requires var r := AllocateSpec(t, sys.hash, twin).1; r.Ok? && Answers(sys, d, twin, r.value)
    ensures d.insts[0].key == key && !AnsweredAt(sys, d, 0, key, d.insts[0].localIP)
  {
    AllocateMeaning(t, sys.hash, twin);
    assert d.insts[0] == d.insts[..1][0];
    assert Bound(d, 0) && Registered(d.insts[0].s);
  }

  /** A second key that has the same FQDN takes the record over. */
  lemma TwinTakesOver(sys: System, key: string, twin: string) returns (events: seq<Event>, d: Daemon)
    requires |sys.keys| <= RANGE_SIZE && key in sys.keys && twin in sys.keys && key != twin &&
      sys.fqdn(key) == sys.fqdn(twin)
    ensures DaemonRun(sys, BOOT, events) == Some(d) && CalmRun(sys, BOOT, events)
    ensures 0 < |d.insts| && d.insts[0].key == key && !AnsweredAt(sys, d, 0, key, d.insts[0].localIP)
  {
    var start, first, octet := RegisteredFromBoot(sys, key);
    var more;
    more, d := TwinRegisters(sys, first, twin);
    RunAppend(sys, BOOT, start, first, more);
    CalmAppend(sys, BOOT, start, first, more);
    events := start + more;
    TwinAnswers(sys, first.table, d, key, octet, twin);
  }

  /** A key's service is answered in all calm runs if and only if its name is its own. */
  lemma NameMustBeOwn(sys: System, key: string)
    requires |sys.keys| <= RANGE_SIZE && key in sys.keys
    ensures OwnName(sys, key) <==> AnsweredInCalmRuns(sys, key)
  {
    if OwnName(sys, key) {
      InitialInv(sys);
      forall events, d, i: nat |
        DaemonRun(sys, BOOT, events) == Some(d) && CalmRun(sys, BOOT, events) && i < |d.insts| && d.insts[i].key == key
        ensures AnsweredAt(sys, d, i, key, d.insts[i].localIP)
      {
        CalmRunKeepsRecords(sys, BOOT, d, events, i);
      }
    } else {
      var twin :| twin in sys.keys && sys.fqdn(twin) == sys.fqdn(key) && twin != key;
      var events, d := TwinTakesOver(sys, key, twin);
    }
  }
}
