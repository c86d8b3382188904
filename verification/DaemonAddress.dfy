/**
 The address of a running service: what its proxy listens on, what the resolver answers and what the
 allocator says agree, unless an old goroutine of the key was about to register another address when
 the service was started.
*/
module DaemonAddress {
  import opened Wrappers
  import opened IPAllocator
  import opened State
  import opened Lifecycle
  import opened LifecycleInvariant
  import opened Daemon
  import opened DaemonInvariant

  /** Different keys have different FQDNs. */
  ghost predicate DistinctNames(sys: System) {
    forall k, l :: k in sys.keys && l in sys.keys && sys.fqdn(k) == sys.fqdn(l) ==> k == l
  }

  /** No other key has the FQDN of this one. */
  ghost predicate OwnName(sys: System, key: string) {
    forall k :: k in sys.keys && sys.fqdn(k) == sys.fqdn(key) ==> k == key
  }

  predicate AtAddDNS(pc: GoPc) {
    pc.Connect? && pc.c.AddDNS?
  }

  /** The goroutine of instance j is not about to register another address of the key than this one. */
  predicate NotStale(d: Daemon, key: string, octet: int, j: nat) {
    j < |d.insts| && d.insts[j].key == key && AtAddDNS(d.insts[j].s.go) ==> d.insts[j].s.ip == Some(octet)
  }

  ghost predicate NoneStale(d: Daemon, key: string, octet: int) {
    forall j: nat :: NotStale(d, key, octet, j)
  }

  /** When an instance is inserted, no old goroutine is about to register another address of its key. */
  ghost predicate Calm(d: Daemon, e: Event) {
    e.UpInsert? && d.cmd.Allocated? ==> NoneStale(d, d.cmd.key, d.cmd.octet)
  }

  ghost predicate CalmRun(sys: System, d: Daemon, events: seq<Event>)
    decreases |events|
  {
    events == [] ||
      (Calm(d, events[0]) &&
       (DaemonStep(sys, d, events[0]).Some? ==> CalmRun(sys, DaemonStep(sys, d, events[0]).value, events[1..])))
  }

  /** `connect` has its address; `connect` has registered its name. */
  predicate HasAddress(pc: GoPc) {
    pc.Connect? && !pc.c.AllocateIP?
  }

  predicate Registered(s: Service) {
    (s.go.Connect? && !s.go.c.AllocateIP? && !s.go.c.AddDNS?) || s.fields.proxy.Some?
  }

  lemma OutsideConnect(s: Service, n: Service, asg: bool, a: Action)
    requires IsGo(a) && GoStep(s, asg, a) == Some(n) && !s.go.Connect? && n.go.Connect?
    ensures n.go.c.AllocateIP? && n.fields.proxy == s.fields.proxy
  {
    if s.go.Loop? {
      assert LoopStep(s, s.go.l, a) == Some(n);
    }
  }

  /** The goroutine stands where it stood, no proxy has come into the instance, and each has its address. */
  ghost predicate SamePlace(s: Service, n: Service, x: nat) {
    && n.go == s.go && n.ip == s.ip
    && (n.fields.proxy.Some? ==> s.fields.proxy.Some?)
    && SameProxy(s, n, x)
  }

  ghost predicate SameProxy(s: Service, n: Service, x: nat) {
    (x in n.proxies <==> x in s.proxies) && (x in n.proxies ==> n.proxies[x].ip == s.proxies[x].ip)
  }

  lemma StopCallKeepsPlace(s: Service, n: Service, x: nat)
    requires StopCall(s) == Some(n)
    ensures SamePlace(s, n, x)
  {
  }

  lemma StopSectionKeepsPlace(s: Service, n: Service, x: nat)
    requires StopSection(s) == Some(n)
    ensures SamePlace(s, n, x)
  {
  }

  lemma EnvironmentKeepsPlace(s: Service, n: Service, a: Action, x: nat)
    requires EnvironmentStep(s, a) == Some(n)
    ensures SamePlace(s, n, x)
  {
  }

  lemma OthersKeepPc(s: Service, n: Service, asg: bool, a: Action, x: nat)
    requires Step(s, asg, a) == Some(n) && !IsGo(a)
    ensures SamePlace(s, n, x)
  {
    if !a.StopStep? {
      EnvironmentKeepsPlace(s, n, a, x);
    } else if StopCall(s).Some? {
      StopCallKeepsPlace(s, n, x);
    } else {
      StopSectionKeepsPlace(s, n, x);
    }
  }

  lemma ConnectAddress(s: Service, n: Service, pc: ConnectPc, a: Action)
    requires s.go == Connect(pc) && (CommitStep(s, pc) == Some(n) || ConnectCall(s, pc, a) == Some(n))
    ensures HasAddress(n.go) ==> (n.ip == s.ip && HasAddress(s.go)) || (a.GoAllocated? && n.ip == a.octet)
    ensures Registered(n) ==> Registered(s) || AddsDNS(s, a)
  {
  }

  /** How one step of the service moves its address, its registration and its proxies' addresses. */
  lemma StepAddress(s: Service, n: Service, asg: bool, a: Action)
    requires Step(s, asg, a) == Some(n)
    ensures HasAddress(n.go) ==> (n.ip == s.ip && HasAddress(s.go)) || (a.GoAllocated? && n.ip == a.octet)
    ensures Registered(n) ==> Registered(s) || AddsDNS(s, a)
  {
    if !IsGo(a) {
      OthersKeepPc(s, n, asg, a, 0);
    } else if s.go.Connect? {
      ConnectAddress(s, n, s.go.c, a);
    } else if n.go.Connect? {
      OutsideConnect(s, n, asg, a);
    }
  }

  lemma ConnectReachesAddDNS(s: Service, n: Service, pc: ConnectPc, a: Action)
    requires s.go == Connect(pc) && (CommitStep(s, pc) == Some(n) || ConnectCall(s, pc, a) == Some(n)) && AtAddDNS(n.go)
    ensures a.GoAllocated? && n.ip == a.octet
  {
  }

  /** The goroutine comes to `dns.Add` from its allocation only. */
  lemma ReachesAddDNS(s: Service, n: Service, asg: bool, a: Action)
    requires Step(s, asg, a) == Some(n) && AtAddDNS(n.go)
    ensures (n.ip == s.ip && AtAddDNS(s.go)) || (a.GoAllocated? && n.ip == a.octet)
  {
    if !IsGo(a) {
      OthersKeepPc(s, n, asg, a, 0);
    } else if s.go.Connect? {
      ConnectReachesAddDNS(s, n, s.go.c, a);
    } else {
      OutsideConnect(s, n, asg, a);
    }
  }

  lemma LoopKeepsProxies(s: Service, n: Service, pc: LoopPc, a: Action)
    requires LoopStep(s, pc, a) == Some(n)
    ensures n.proxies == s.proxies
  {
  }

  lemma CommitKeepsProxies(s: Service, n: Service, pc: ConnectPc, x: nat)
    requires CommitStep(s, pc) == Some(n)
    ensures SameProxy(s, n, x)
  {
  }

  lemma CallMakesProxy(s: Service, n: Service, pc: ConnectPc, a: Action, x: nat)
    requires ConnectCall(s, pc, a) == Some(n)
    ensures SameProxy(s, n, x) || (x !in s.proxies && !pc.AllocateIP? && x in n.proxies && n.proxies[x].ip == s.ip)
  {
  }

  lemma ServeKeepsProxies(s: Service, n: Service, asg: bool, pc: ServePc, a: Action, x: nat)
    requires ServeStep(s, asg, pc, a) == Some(n)
    ensures SameProxy(s, n, x)
  {
  }

  lemma RetryKeepsProxies(s: Service, n: Service, pc: RetryPc)
    requires RetryStep(s, pc) == Some(n)
    ensures n.proxies == s.proxies
  {
  }

  lemma StepProxies(s: Service, n: Service, asg: bool, a: Action, x: nat)
    requires Step(s, asg, a) == Some(n) && x in n.proxies
    ensures if x in s.proxies then n.proxies[x].ip == s.proxies[x].ip else HasAddress(s.go) && n.proxies[x].ip == s.ip
  {
    if !IsGo(a) {
      OthersKeepPc(s, n, asg, a, x);
    } else {
      match s.go
      case Loop(pc) => LoopKeepsProxies(s, n, pc, a);
      case Connect(pc) =>
        if a.Go? {
          CommitKeepsProxies(s, n, pc, x);
        } else {
          CallMakesProxy(s, n, pc, a, x);
        }
      case Serve(pc) => ServeKeepsProxies(s, n, asg, pc, a, x);
      case Retry(pc) => RetryKeepsProxies(s, n, pc);
    }
  }

  /** The instance is running and the running command has not released its address. */
  predicate Bound(d: Daemon, i: nat) {
    IsLive(d, i) && !(d.cmd.Cleaning? && d.cmd.phase.DeleteKey? && d.cmd.k < |d.cmd.ids| && d.cmd.ids[d.cmd.k] == i)
  }

  /** What a running instance has of addresses is its own: what its key owns, what `connect` works with,
      what its proxies listen on. */
  ghost predicate AddressOk(d: Daemon, i: nat) {
    i < |d.insts| && Bound(d, i) ==>
      var inst := d.insts[i];
      && inst.localIP in d.table && d.table[inst.localIP] == inst.key
      && (HasAddress(inst.s.go) ==> inst.s.ip == Some(inst.localIP))
      && (forall x :: x in inst.s.proxies ==> inst.s.proxies[x].ip == Some(inst.localIP))
  }

  /** Once it has registered its name the resolver answers with its address, and nobody is about to change that. */
  ghost predicate RecordOk(sys: System, d: Daemon, i: nat) {
    i < |d.insts| && Bound(d, i) ==>
      && NoneStale(d, d.insts[i].key, d.insts[i].localIP)
      && (Registered(d.insts[i].s) ==> Answers(sys, d, d.insts[i].key, d.insts[i].localIP))
  }

  ghost predicate Answers(sys: System, d: Daemon, key: string, octet: int) {
    sys.fqdn(key) in d.records && d.records[sys.fqdn(key)] == Some(octet)
  }

  ghost predicate AddressInv(d: Daemon) {
    forall i: nat :: AddressOk(d, i)
  }

  // ----- Addresses, in every run -----

  lemma ThreadKeepsAddress(sys: System, d: Daemon, n: Daemon, i: nat, a: Action, j: nat)
    requires TableOk(sys, d) && AddressOk(d, j) && i < |d.insts| && ThreadStep(sys, d, i, a) == Some(n)
    ensures AddressOk(n, j)
  {
    var (s, s', key) := (d.insts[i].s, n.insts[i].s, d.insts[i].key);
    ThreadKeepsTable(sys, d, n, i, a);
    if j < |d.insts| && Bound(d, j) {
      AllocateMeaning(d.table, sys.hash, key);
      if i == j {
        StepAddress(s, s', sys.asg(key), a);
        forall x | x in s'.proxies
          ensures s'.proxies[x].ip == Some(d.insts[i].localIP)
        {
          StepProxies(s, s', sys.asg(key), a, x);
        }
      }
    }
  }

  lemma UpKeepsAddress(sys: System, d: Daemon, n: Daemon, e: Event, j: nat)
    requires TableOk(sys, d) && CommandOk(d) && AddressOk(d, j) && UpStep(sys, d, e) == Some(n)
    ensures AddressOk(n, j)
  {
    if d.cmd.Checked? {
      AllocateGrows(d.table, sys.hash, d.cmd.key, sys.keys);
    }
  }

  lemma DownKeepsAddress(sys: System, d: Daemon, n: Daemon, e: Event, j: nat)
    requires TableOk(sys, d) && CommandOk(d) && AddressOk(d, j) && DownStep(sys, d, e) == Some(n)
    ensures AddressOk(n, j)
  {
    if d.cmd.Cleaning? && d.cmd.phase.ReAllocate? {
      AllocateGrows(d.table, sys.hash, d.insts[d.cmd.ids[d.cmd.k]].key, sys.keys);
    }
  }

  lemma StepKeepsAddressInv(sys: System, d: Daemon, n: Daemon, e: Event)
    requires DaemonInv(sys, d) && AddressInv(d) && DaemonStep(sys, d, e) == Some(n)
    ensures AddressInv(n)
  {
    forall j: nat
      ensures AddressOk(n, j)
    {
      assert AddressOk(d, j);
      if e.Thread? {
        ThreadKeepsAddress(sys, d, n, e.i, e.a, j);
      } else if e.UpCheck? || e.UpAllocate? || e.UpInsert? {
        UpKeepsAddress(sys, d, n, e, j);
      } else {
        DownKeepsAddress(sys, d, n, e, j);
      }
    }
  }

  lemma {:induction false} RunKeepsAddressInv(sys: System, d: Daemon, n: Daemon, events: seq<Event>)
    requires DaemonInv(sys, d) && AddressInv(d) && DaemonRun(sys, d, events) == Some(n)
    ensures DaemonInv(sys, n) && AddressInv(n)
    decreases |events|
  {
    if events != [] {
      var next := DaemonStep(sys, d, events[0]).value;
      DaemonStepKeepsInv(sys, d, next, events[0]);
      StepKeepsAddressInv(sys, d, next, events[0]);
      RunKeepsAddressInv(sys, next, n, events[1..]);
    }
  }

  // ----- The record of one running instance -----

  /** While an instance is running, no goroutine gets another address of its key. */
  lemma ThreadKeepsNotStale(sys: System, d: Daemon, n: Daemon, i: nat, a: Action, key: string, octet: int, k: nat)
    requires ValidTable(d.table) && octet in d.table && d.table[octet] == key
    requires NotStale(d, key, octet, k) && i < |d.insts| && ThreadStep(sys, d, i, a) == Some(n)
    ensures NotStale(n, key, octet, k)
  {
    if i == k && AtAddDNS(n.insts[i].s.go) {
      AllocateMeaning(d.table, sys.hash, d.insts[i].key);
      ReachesAddDNS(d.insts[i].s, n.insts[i].s, sys.asg(d.insts[i].key), a);
    }
  }

  lemma ThreadKeepsAnswer(sys: System, d: Daemon, n: Daemon, i: nat, a: Action, j: nat)
    requires TableOk(sys, d) && j < |d.insts| && OwnName(sys, d.insts[j].key)
    requires AddressOk(d, j) && RecordOk(sys, d, j) && Bound(d, j)
    requires i < |d.insts| && ThreadStep(sys, d, i, a) == Some(n)
    ensures Registered(n.insts[j].s) ==> Answers(sys, n, d.insts[j].key, d.insts[j].localIP)
  {
    assert NotStale(d, d.insts[j].key, d.insts[j].localIP, i);
    StepAddress(d.insts[i].s, n.insts[i].s, sys.asg(d.insts[i].key), a);
  }

  lemma ThreadKeepsRecord(sys: System, d: Daemon, n: Daemon, i: nat, a: Action, j: nat)
    requires TableOk(sys, d) && j < |d.insts| && OwnName(sys, d.insts[j].key) && AddressOk(d, j) && RecordOk(sys, d, j)
    requires i < |d.insts| && ThreadStep(sys, d, i, a) == Some(n)
    ensures RecordOk(sys, n, j)
  {
    if Bound(d, j) {
      ThreadKeepsAnswer(sys, d, n, i, a, j);
      forall k: nat
        ensures NotStale(n, d.insts[j].key, d.insts[j].localIP, k)
      {
        ThreadKeepsNotStale(sys, d, n, i, a, d.insts[j].key, d.insts[j].localIP, k);
      }
    }
  }

  /** A command's step leaves the goroutines alone, and a new one is not at `dns.Add`. */
  lemma CommandKeepsNoneStale(sys: System, d: Daemon, n: Daemon, e: Event, key: string, octet: int)
    requires !e.Thread? && DaemonStep(sys, d, e) == Some(n) && NoneStale(d, key, octet)
    ensures NoneStale(n, key, octet)
  {
    forall k: nat
      ensures NotStale(n, key, octet, k)
    {
      assert NotStale(d, key, octet, k);
    }
  }

  lemma UpKeepsRecord(sys: System, d: Daemon, n: Daemon, e: Event, j: nat)
    requires CommandOk(d) && UpStep(sys, d, e) == Some(n) && j < |d.insts| && Bound(n, j)
    ensures Bound(d, j) && n.insts[j] == d.insts[j] && n.records == d.records
  {
  }

  lemma DownKeepsRecord(sys: System, d: Daemon, n: Daemon, e: Event, j: nat)
    requires TableOk(sys, d) && CommandOk(d) && DownStep(sys, d, e) == Some(n)
    requires j < |d.insts| && OwnName(sys, d.insts[j].key) && Bound(n, j)
    ensures Bound(d, j) && n.insts[j] == d.insts[j]
    ensures forall o :: Answers(sys, d, d.insts[j].key, o) ==> Answers(sys, n, d.insts[j].key, o)
  {
  }

  lemma CommandKeepsRecord(sys: System, d: Daemon, n: Daemon, e: Event, j: nat)
    requires TableOk(sys, d) && CommandOk(d) && !e.Thread? && DaemonStep(sys, d, e) == Some(n)
    requires j < |d.insts| && OwnName(sys, d.insts[j].key) && RecordOk(sys, d, j)
    ensures RecordOk(sys, n, j)
  {
    if j < |n.insts| && Bound(n, j) {
      if e.UpCheck? || e.UpAllocate? || e.UpInsert? {
        UpKeepsRecord(sys, d, n, e, j);
      } else {
        DownKeepsRecord(sys, d, n, e, j);
      }
      CommandKeepsNoneStale(sys, d, n, e, d.insts[j].key, d.insts[j].localIP);
    }
  }

  lemma StepKeepsKeys(sys: System, d: Daemon, n: Daemon, e: Event, j: nat)
    requires DaemonStep(sys, d, e) == Some(n) && j < |d.insts|
    ensures j < |n.insts| && n.insts[j].key == d.insts[j].key && n.insts[j].localIP == d.insts[j].localIP
  {
  }

  lemma StepKeepsRecord(sys: System, d: Daemon, n: Daemon, e: Event, j: nat)
    requires DaemonInv(sys, d) && AddressInv(d) && DaemonStep(sys, d, e) == Some(n)
    requires j < |d.insts| && OwnName(sys, d.insts[j].key) && RecordOk(sys, d, j)
    ensures j < |n.insts| && n.insts[j].key == d.insts[j].key && n.insts[j].localIP == d.insts[j].localIP &&
      RecordOk(sys, n, j)
  {
    assert AddressOk(d, j);
    StepKeepsKeys(sys, d, n, e, j);
    if e.Thread? {
      ThreadKeepsRecord(sys, d, n, e.i, e.a, j);
    } else {
      CommandKeepsRecord(sys, d, n, e, j);
    }
  }

  lemma {:induction false} RunKeepsRecord(sys: System, d: Daemon, n: Daemon, events: seq<Event>, j: nat)
    requires DaemonInv(sys, d) && AddressInv(d) && DaemonRun(sys, d, events) == Some(n)
    requires j < |d.insts| && OwnName(sys, d.insts[j].key) && RecordOk(sys, d, j)
    ensures j < |n.insts| && n.insts[j].key == d.insts[j].key && n.insts[j].localIP == d.insts[j].localIP &&
      RecordOk(sys, n, j)
    decreases |events|
  {
    if events != [] {
      var next := DaemonStep(sys, d, events[0]).value;
      DaemonStepKeepsInv(sys, d, next, events[0]);
      StepKeepsAddressInv(sys, d, next, events[0]);
      StepKeepsRecord(sys, d, next, events[0], j);
      RunKeepsRecord(sys, next, n, events[1..], j);
    }
  }

  /** An instance starts without stale goroutines, if its insertion is calm. */
  lemma NewRecordOk(sys: System, d: Daemon, n: Daemon, e: Event, j: nat)
    requires DaemonStep(sys, d, e) == Some(n) && Calm(d, e) && |d.insts| <= j < |n.insts|
    ensures RecordOk(sys, n, j)
  {
    assert e.UpInsert? && d.cmd.Allocated? && j == |d.insts|;
    CommandKeepsNoneStale(sys, d, n, e, d.cmd.key, d.cmd.octet);
  }

  /** In a calm run every instance starts so, and keeps it. */
  lemma {:induction false} CalmRunKeepsRecords(sys: System, d: Daemon, n: Daemon, events: seq<Event>, j: nat)
    requires DaemonInv(sys, d) && AddressInv(d) && DaemonRun(sys, d, events) == Some(n) && CalmRun(sys, d, events)
    requires |d.insts| <= j < |n.insts| && OwnName(sys, n.insts[j].key)
    ensures RecordOk(sys, n, j)
    decreases |events|
  {
    var next := DaemonStep(sys, d, events[0]).value;
    DaemonStepKeepsInv(sys, d, next, events[0]);
    StepKeepsAddressInv(sys, d, next, events[0]);
    if j < |next.insts| {
      RunKeepsKeys(sys, next, n, events[1..], j);
      NewRecordOk(sys, d, next, events[0], j);
      RunKeepsRecord(sys, next, n, events[1..], j);
    } else {
      CalmRunKeepsRecords(sys, next, n, events[1..], j);
    }
  }

  lemma {:induction false} RunKeepsKeys(sys: System, d: Daemon, n: Daemon, events: seq<Event>, j: nat)
    requires DaemonRun(sys, d, events) == Some(n) && j < |d.insts|
    ensures j < |n.insts| && n.insts[j].key == d.insts[j].key && n.insts[j].localIP == d.insts[j].localIP
    decreases |events|
  {
    if events != [] {
      var next := DaemonStep(sys, d, events[0]).value;
      StepKeepsKeys(sys, d, next, events[0], j);
      RunKeepsKeys(sys, next, n, events[1..], j);
    }
  }

  /** Whenever a running service whose name is its own holds a proxy, that proxy listens on the instance's
      address, the resolver answers the service's name with it, and the allocator gives it to this key and
      gives this key nothing else. */
  lemma HeldProxyAddress(sys: System, d: Daemon, events: seq<Event>, i: nat)
    requires DaemonRun(sys, BOOT, events) == Some(d) && CalmRun(sys, BOOT, events)
    requires i < |d.insts| && OwnName(sys, d.insts[i].key) && IsLive(d, i) && d.insts[i].s.fields.proxy.Some?
    ensures var inst := d.insts[i];
      var ip := inst.localIP;
      && inst.s.fields.proxy.value in inst.s.proxies && inst.s.proxies[inst.s.fields.proxy.value].ip == Some(ip)
      && Answers(sys, d, inst.key, ip)
      && forall o :: o in d.table && d.table[o] == inst.key <==> o == ip
  {
    RunKeepsAddressInv(sys, BOOT, d, events);
    CalmRunKeepsRecords(sys, BOOT, d, events, i);
    assert AddressOk(d, i) && LiveOk(d, i);
    var s := d.insts[i].s;
    assert ProxyOk(s, s.fields.proxy.value);
  }
}
