/**
 What a down command leaves in the allocator. It releases the address of each stopped service, but does
 not wait for the service's goroutine: one that had passed its context check allocates again.
*/
module DaemonRelease {
  import opened Wrappers
  import opened IPAllocator
  import opened State
  import opened Lifecycle
  import opened LifecycleInvariant
  import opened Daemon
  import opened DaemonInvariant
  import opened DaemonAddress

  /** The goroutine is between its context check and the allocation of `connect`. */
  predicate PastCheck(pc: GoPc) {
    (pc.Loop? && (pc.l.ReadFrom? || pc.l.EnterStarting?)) || (pc.Connect? && pc.c.AllocateIP?)
  }

  /** A goroutine with a cancelled context that is not past its check never allocates. */
  lemma CancelledNeverPasses(s: Service, n: Service, asg: bool, a: Action)
    requires s.cancelled && !PastCheck(s.go) && IsGo(a) && GoStep(s, asg, a) == Some(n)
    ensures n.cancelled && !PastCheck(n.go) && !a.GoAllocated?
  {
    if s.go.Loop? {
      assert LoopStep(s, s.go.l, a) == Some(n);
    }
  }

  lemma NeverPasses(s: Service, n: Service, asg: bool, a: Action)
    requires s.cancelled && !PastCheck(s.go) && Step(s, asg, a) == Some(n)
    ensures n.cancelled && !PastCheck(n.go) && !a.GoAllocated?
  {
    if IsGo(a) {
      CancelledNeverPasses(s, n, asg, a);
    } else {
      OthersKeepRank(s, n, asg, a);
    }
  }

  /** The goroutine of instance i will not allocate, if i has this key. */
  ghost predicate Harmless(d: Daemon, key: string, i: nat) {
    i < |d.insts| && d.insts[i].key == key ==>
      !Bound(d, i) && d.insts[i].s.cancelled && !PastCheck(d.insts[i].s.go)
  }

  /** The key owns no octet, and nobody is left who would allocate one for it. */
  ghost predicate Released(d: Daemon, key: string) {
    && key !in d.table.Values
    && !(d.cmd.Checked? && d.cmd.key == key)
    && !(d.cmd.Allocated? && d.cmd.key == key)
    && forall i: nat :: Harmless(d, key, i)
  }

  lemma ThreadAllocatesForOthers(sys: System, d: Daemon, n: Daemon, i: nat, a: Action, key: string)
    requires TableOk(sys, d) && Released(d, key) && i < |d.insts| && ThreadStep(sys, d, i, a) == Some(n)
    requires d.insts[i].key == key ==> !a.GoAllocated?
    ensures key !in n.table.Values
  {
  }

  lemma ThreadKeepsReleased(sys: System, d: Daemon, n: Daemon, i: nat, a: Action, key: string)
    requires TableOk(sys, d) && Released(d, key) && i < |d.insts| && ThreadStep(sys, d, i, a) == Some(n)
    ensures Released(n, key)
  {
    assert Harmless(d, key, i);
    if d.insts[i].key == key {
      NeverPasses(d.insts[i].s, n.insts[i].s, sys.asg(key), a);
    }
    ThreadAllocatesForOthers(sys, d, n, i, a, key);
    forall j: nat
      ensures Harmless(n, key, j)
    {
      assert Harmless(d, key, j);
    }
  }

  lemma UpKeepsReleased(sys: System, d: Daemon, n: Daemon, e: Event, key: string)
    requires TableOk(sys, d) && CommandOk(d) && Released(d, key)
    requires UpStep(sys, d, e) == Some(n) && e != UpCheck(key)
    ensures Released(n, key)
  {
    if d.cmd.Checked? {
      AllocateMeaning(d.table, sys.hash, d.cmd.key);
    }
    forall j: nat
      ensures Harmless(n, key, j)
    {
      assert Harmless(d, key, j);
    }
  }

  lemma CleaningKeepsReleased(sys: System, d: Daemon, n: Daemon, e: Event, key: string)
    requires TableOk(sys, d) && CommandOk(d) && Released(d, key) && DownStep(sys, d, e) == Some(n) && d.cmd.Cleaning?
    ensures key !in n.table.Values
  {
    var i := d.cmd.ids[d.cmd.k];
    assert Harmless(d, key, i);
    match d.cmd.phase
    case ReAllocate => AllocateMeaning(d.table, sys.hash, d.insts[i].key);
    case ReleaseIP => ReleaseMeaning(d.table, d.insts[i].key);
    case DeleteKey =>
  }

  lemma DownKeepsReleased(sys: System, d: Daemon, n: Daemon, e: Event, key: string)
    requires TableOk(sys, d) && CommandOk(d) && Released(d, key) && DownStep(sys, d, e) == Some(n)
    ensures Released(n, key)
  {
    if d.cmd.Cleaning? {
      CleaningKeepsReleased(sys, d, n, e, key);
    }
    forall j: nat
      ensures Harmless(n, key, j)
    {
      assert Harmless(d, key, j);
    }
  }

  ghost predicate NoUp(events: seq<Event>, key: string) {
    UpCheck(key) !in events
  }

  lemma {:induction false} RunKeepsReleased(sys: System, d: Daemon, n: Daemon, events: seq<Event>, key: string)
    requires DaemonInv(sys, d) && Released(d, key) && NoUp(events, key) && DaemonRun(sys, d, events) == Some(n)
    ensures Released(n, key)
    decreases |events|
  {
    if events != [] {
      var next := DaemonStep(sys, d, events[0]).value;
      DaemonStepKeepsInv(sys, d, next, events[0]);
      if events[0].Thread? {
        ThreadKeepsReleased(sys, d, next, events[0].i, events[0].a, key);
      } else if events[0].UpCheck? || events[0].UpAllocate? || events[0].UpInsert? {
        UpKeepsReleased(sys, d, next, events[0], key);
      } else {
        DownKeepsReleased(sys, d, next, events[0], key);
      }
      RunKeepsReleased(sys, next, n, events[1..], key);
    }
  }

  lemma LateAllocation(sys: System, d: Daemon, i: nat) returns (a: Action, n: Daemon)
    requires DaemonInv(sys, d) && |sys.keys| <= RANGE_SIZE && i < |d.insts|
    requires d.insts[i].s.stop.StopDone? && d.insts[i].s.go == Connect(AllocateIP)
    ensures ThreadStep(sys, d, i, a) == Some(n) && d.insts[i].key in n.table.Values
  {
    var key := d.insts[i].key;
    a := GoAllocated(OctetGiven(AllocateSpec(d.table, sys.hash, key).1));
    n := ThreadStep(sys, d, i, a).value;
    AllocateMeaning(d.table, sys.hash, key);
    ValuesSize(d.table);
    if key !in d.table.Values {
      SubsetSize(d.table.Values + {key}, sys.keys);
    }
  }

  lemma LateStep(sys: System, d: Daemon, i: nat) returns (n: Daemon)
    requires DaemonInv(sys, d) && i < |d.insts|
    requires d.insts[i].s.stop.StopDone? && PastCheck(d.insts[i].s.go) && d.insts[i].s.go.Loop?
    ensures ThreadStep(sys, d, i, Go) == Some(n)
    ensures |n.insts| == |d.insts| && n.insts[i].key == d.insts[i].key && n.insts[i].s.stop.StopDone?
    ensures PastCheck(n.insts[i].s.go) && Rank(n.insts[i].s.go) < Rank(d.insts[i].s.go)
  {
    n := ThreadStep(sys, d, i, Go).value;
  }

  /** The steps that lead a stopped goroutine past its check to its allocation. */
  lemma PastCheckAllocates(sys: System, d: Daemon, i: nat) returns (events: seq<Event>, n: Daemon)
    requires DaemonInv(sys, d) && |sys.keys| <= RANGE_SIZE && i < |d.insts|
    requires d.insts[i].s.stop.StopDone? && PastCheck(d.insts[i].s.go)
    ensures DaemonRun(sys, d, events) == Some(n) && NoUp(events, d.insts[i].key)
    ensures d.insts[i].key in n.table.Values
    decreases Rank(d.insts[i].s.go)
  {
    if d.insts[i].s.go.Connect? {
      var a;
      a, n := LateAllocation(sys, d, i);
      events := [Thread(i, a)];
      assert DaemonRun(sys, n, events[1..]) == Some(n);
    } else {
      var mid := LateStep(sys, d, i);
      DaemonStepKeepsInv(sys, d, mid, Thread(i, Go));
      events, n := PastCheckAllocates(sys, mid, i);
      events := [Thread(i, Go)] + events;
      assert DaemonRun(sys, mid, events[1..]) == Some(n);
    }
  }

  /** Right after its release the key owns no octet, and the stops of all its instances are done. */
  lemma JustReleased(sys: System, before: Daemon, d: Daemon)
    requires DaemonInv(sys, before) && DaemonInv(sys, d)
    requires before.cmd.Cleaning? && before.cmd.phase.ReleaseIP? && DaemonStep(sys, before, CleanNext) == Some(d)
    ensures d.cmd.Cleaning? && d.cmd.k < |d.cmd.ids| && d.cmd.ids[d.cmd.k] < |d.insts|
    ensures d.insts[d.cmd.ids[d.cmd.k]].key !in d.table.Values
    ensures forall i: nat :: i < |d.insts| && d.insts[i].key == d.insts[d.cmd.ids[d.cmd.k]].key ==>
      d.insts[i].s.stop.StopDone? && d.insts[i].s.cancelled && !Bound(d, i)
  {
    var key := d.insts[d.cmd.ids[d.cmd.k]].key;
    ReleaseMeaning(before.table, key);
    forall i: nat | i < |d.insts| && d.insts[i].key == key
      ensures d.insts[i].s.stop.StopDone? && d.insts[i].s.cancelled && !Bound(d, i)
    {
      assert LiveOk(d, i);
    }
  }

  /** The moment at which a down command has just released the address of a key: the address stays
      released until the next up of the key, in every continuation, if and only if no goroutine of the
      key is between its context check and its allocation. */
  lemma AddressStaysReleased(sys: System, before: Daemon, events: seq<Event>, d: Daemon)
    requires |sys.keys| <= RANGE_SIZE && DaemonRun(sys, BOOT, events) == Some(before)
    requires before.cmd.Cleaning? && before.cmd.phase.ReleaseIP? && DaemonStep(sys, before, CleanNext) == Some(d)
    ensures var key := d.insts[d.cmd.ids[d.cmd.k]].key;
      (forall i :: 0 <= i < |d.insts| && d.insts[i].key == key ==> !PastCheck(d.insts[i].s.go))
      <==>
      (forall more, n :: NoUp(more, key) && DaemonRun(sys, d, more) == Some(n) ==> key !in n.table.Values)
  {
    DaemonRunKeepsInv(sys, BOOT, before, events);
    DaemonStepKeepsInv(sys, before, d, CleanNext);
    JustReleased(sys, before, d);
    var key := d.insts[d.cmd.ids[d.cmd.k]].key;
    if forall i :: 0 <= i < |d.insts| && d.insts[i].key == key ==> !PastCheck(d.insts[i].s.go) {
      assert forall i: nat :: Harmless(d, key, i);
      forall more, n | NoUp(more, key) && DaemonRun(sys, d, more) == Some(n)
        ensures key !in n.table.Values
      {
        RunKeepsReleased(sys, d, n, more, key);
      }
    } else {
      var i :| 0 <= i < |d.insts| && d.insts[i].key == key && PastCheck(d.insts[i].s.go);
      var more, n := PastCheckAllocates(sys, d, i);
    }
  }

  // ----- The record -----

  /** The goroutine is between its context check and the end of its registration. */
  predicate MayRegister(pc: GoPc) {
    PastCheck(pc) || AtAddDNS(pc)
  }

  /** A stopped goroutine that is not there never comes there. */
  lemma NeverRegisters(s: Service, n: Service, asg: bool, a: Action)
    requires s.cancelled && !MayRegister(s.go) && Step(s, asg, a) == Some(n)
    ensures n.cancelled && !MayRegister(n.go) && !AddsDNS(s, a)
  {
    NeverPasses(s, n, asg, a);
    if AtAddDNS(n.go) {
      ReachesAddDNS(s, n, asg, a);
    }
  }

  /** The goroutine of instance i will not register, if i has this key. */
  ghost predicate Silent(d: Daemon, key: string, i: nat) {
    i < |d.insts| && d.insts[i].key == key ==> d.insts[i].s.cancelled && !MayRegister(d.insts[i].s.go)
  }

  /** The name has no record, and nobody is left who would make one. */
  ghost predicate Forgotten(sys: System, d: Daemon, key: string) {
    && sys.fqdn(key) !in d.records
    && !(d.cmd.Checked? && d.cmd.key == key)
    && !(d.cmd.Allocated? && d.cmd.key == key)
    && forall i: nat :: Silent(d, key, i)
  }

  lemma ThreadKeepsForgotten(sys: System, d: Daemon, n: Daemon, i: nat, a: Action, key: string)
    requires TableOk(sys, d) && OwnName(sys, key) && Forgotten(sys, d, key)
    requires i < |d.insts| && ThreadStep(sys, d, i, a) == Some(n)
    ensures Forgotten(sys, n, key)
  {
    assert Silent(d, key, i);
    if d.insts[i].key == key {
      NeverRegisters(d.insts[i].s, n.insts[i].s, sys.asg(key), a);
    }
    forall j: nat
      ensures Silent(n, key, j)
    {
      assert Silent(d, key, j);
    }
  }

  lemma CommandKeepsForgotten(sys: System, d: Daemon, n: Daemon, e: Event, key: string)
    requires Forgotten(sys, d, key) && !e.Thread? && e != UpCheck(key) && DaemonStep(sys, d, e) == Some(n)
    ensures Forgotten(sys, n, key)
  {
    forall j: nat
      ensures Silent(n, key, j)
    {
      assert Silent(d, key, j);
    }
  }

  lemma {:induction false} RunKeepsForgotten(sys: System, d: Daemon, n: Daemon, events: seq<Event>, key: string)
    requires DaemonInv(sys, d) && OwnName(sys, key) && Forgotten(sys, d, key)
    requires NoUp(events, key) && DaemonRun(sys, d, events) == Some(n)
    ensures Forgotten(sys, n, key)
    decreases |events|
  {
    if events != [] {
      var next := DaemonStep(sys, d, events[0]).value;
      DaemonStepKeepsInv(sys, d, next, events[0]);
      if events[0].Thread? {
        ThreadKeepsForgotten(sys, d, next, events[0].i, events[0].a, key);
      } else {
        CommandKeepsForgotten(sys, d, next, events[0], key);
      }
      RunKeepsForgotten(sys, next, n, events[1..], key);
    }
  }

  lemma LateAddition(sys: System, d: Daemon, i: nat) returns (a: Action, n: Daemon)
    requires i < |d.insts| && d.insts[i].s.stop.StopDone? && d.insts[i].s.go == Connect(AllocateIP)
    ensures ThreadStep(sys, d, i, a) == Some(n) && |n.insts| == |d.insts| && n.insts[i].key == d.insts[i].key
    ensures n.insts[i].s.stop.StopDone? && AtAddDNS(n.insts[i].s.go) && Rank(n.insts[i].s.go) < Rank(d.insts[i].s.go)
  {
    a := GoAllocated(OctetGiven(AllocateSpec(d.table, sys.hash, d.insts[i].key).1));
    n := ThreadStep(sys, d, i, a).value;
  }

  /** The steps that lead a stopped goroutine to its registration. */
  lemma LateRegistration(sys: System, d: Daemon, i: nat) returns (events: seq<Event>, n: Daemon)
    requires DaemonInv(sys, d) && i < |d.insts| && d.insts[i].s.stop.StopDone? && MayRegister(d.insts[i].s.go)
    ensures DaemonRun(sys, d, events) == Some(n) && NoUp(events, d.insts[i].key) &&
      sys.fqdn(d.insts[i].key) in n.records
    decreases Rank(d.insts[i].s.go)
  {
    var (key, go) := (d.insts[i].key, d.insts[i].s.go);
    if AtAddDNS(go) {
      n := ThreadStep(sys, d, i, GoSucceeds).value;
      events := [Thread(i, GoSucceeds)];
      assert DaemonRun(sys, n, events[1..]) == Some(n);
    } else {
      var a, mid;
      if go.Connect? {
        a, mid := LateAddition(sys, d, i);
      } else {
        a := Go;
        mid := LateStep(sys, d, i);
      }
      DaemonStepKeepsInv(sys, d, mid, Thread(i, a));
      events, n := LateRegistration(sys, mid, i);
      events := [Thread(i, a)] + events;
      assert DaemonRun(sys, mid, events[1..]) == Some(n);
    }
  }

  /** Right after its removal the name has no record, and the stops of all the key's instances are done. */
  lemma JustRemoved(sys: System, before: Daemon, d: Daemon)
    requires DaemonInv(sys, before) && DaemonInv(sys, d) && before.cmd.Removing?
    requires DaemonStep(sys, before, RemoveNext) == Some(d)
    ensures before.cmd.k < |before.cmd.ids| && before.cmd.ids[before.cmd.k] < |d.insts| == |before.insts|
    ensures var key := before.insts[before.cmd.ids[before.cmd.k]].key;
      && sys.fqdn(key) !in d.records && !d.cmd.Checked? && !d.cmd.Allocated?
      && forall i: nat :: i < |d.insts| && d.insts[i].key == key ==>
        d.insts[i].s.stop.StopDone? && d.insts[i].s.cancelled
  {
    var key := before.insts[before.cmd.ids[before.cmd.k]].key;
    forall i: nat | i < |d.insts| && d.insts[i].key == key
      ensures d.insts[i].s.stop.StopDone? && d.insts[i].s.cancelled
    {
      assert LiveOk(before, i);
    }
  }

  /** The moment at which a down command has just removed the record of a name that is the key's own: the
      name has no record until the next up of the key, in every continuation, if and only if no goroutine
      of the key is between its context check and the end of its registration. */
  lemma RecordStaysRemoved(sys: System, before: Daemon, events: seq<Event>, d: Daemon)
    requires DaemonRun(sys, BOOT, events) == Some(before) && before.cmd.Removing?
    requires DaemonStep(sys, before, RemoveNext) == Some(d)
    requires before.cmd.k < |before.cmd.ids| && before.cmd.ids[before.cmd.k] < |before.insts|
    requires OwnName(sys, before.insts[before.cmd.ids[before.cmd.k]].key)
    ensures var key := before.insts[before.cmd.ids[before.cmd.k]].key;
      (forall i :: 0 <= i < |d.insts| && d.insts[i].key == key ==> !MayRegister(d.insts[i].s.go))
      <==>
      (forall more, n :: NoUp(more, key) && DaemonRun(sys, d, more) == Some(n) ==> sys.fqdn(key) !in n.records)
  {
    DaemonRunKeepsInv(sys, BOOT, before, events);
    DaemonStepKeepsInv(sys, before, d, RemoveNext);
    JustRemoved(sys, before, d);
    var key := before.insts[before.cmd.ids[before.cmd.k]].key;
    if forall i :: 0 <= i < |d.insts| && d.insts[i].key == key ==> !MayRegister(d.insts[i].s.go) {
      assert forall i: nat :: Silent(d, key, i);
      forall more, n | NoUp(more, key) && DaemonRun(sys, d, more) == Some(n)
        ensures sys.fqdn(key) !in n.records
      {
        RunKeepsForgotten(sys, d, n, more, key);
      }
    } else {
      var i :| 0 <= i < |d.insts| && d.insts[i].key == key && MayRegister(d.insts[i].s.go);
      var more, n := LateRegistration(sys, d, i);
    }
  }
}
