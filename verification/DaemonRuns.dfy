/** Runs of the daemon made to order, piece by piece. */
module DaemonRuns {
  import opened Wrappers
  import opened IPAllocator
  import opened State
  import opened Lifecycle
  import opened LifecycleInvariant
  import opened Daemon
  import opened DaemonInvariant
  import opened DaemonAddress

  lemma {:induction false} RunAppend(sys: System, d: Daemon, xs: seq<Event>, mid: Daemon, ys: seq<Event>)
    requires DaemonRun(sys, d, xs) == Some(mid)
    ensures DaemonRun(sys, d, xs + ys) == DaemonRun(sys, mid, ys)
    decreases |xs|
  {
    if xs == [] {
      assert xs + ys == ys;
    } else {
      assert (xs + ys)[1..] == xs[1..] + ys && (xs + ys)[0] == xs[0];
      RunAppend(sys, DaemonStep(sys, d, xs[0]).value, xs[1..], mid, ys);
    }
  }

  lemma RunOne(sys: System, d: Daemon, e: Event, n: Daemon)
    requires DaemonStep(sys, d, e) == Some(n)
    ensures DaemonRun(sys, d, [e]) == Some(n)
  {
    assert [e][1..] == [] && DaemonRun(sys, n, []) == Some(n);
  }

  /** The daemon with another state of instance i. */
  function With(d: Daemon, i: nat, s: Service): Daemon
    requires i < |d.insts|
  {
    d.(insts := d.insts[i := d.insts[i].(s := s)])
  }

  // ----- Starting -----

  lemma ConfiguredAllocates(sys: System, t: Table, key: string)
    requires ValidTable(t) && t.Values <= sys.keys && |sys.keys| <= RANGE_SIZE && key in sys.keys
    ensures var (n, r) := AllocateSpec(t, sys.hash, key); r.Ok? && r.value in n && n[r.value] == key
  {
    AllocateMeaning(t, sys.hash, key);
    ValuesSize(t);
    if key !in t.Values {
      SubsetSize(t.Values + {key}, sys.keys);
    }
  }

  /** The daemon before and after the insertion of a new instance. */
  function Given(sys: System, d: Daemon, key: string, octet: int, table: Table): Daemon {
    d.(table := table, cmd := Allocated(key, octet))
  }

  function Inserted(d: Daemon, key: string, octet: int, table: Table): Daemon {
    d.(table := table, insts := d.insts + [Instance(key, octet, INIT)], live := d.live[key := |d.insts|])
  }

  /** A key that is not running gets a new instance. */
  lemma UpRun(sys: System, d: Daemon, key: string) returns (octet: Byte, table: Table)
    requires DaemonInv(sys, d) && |sys.keys| <= RANGE_SIZE && d.cmd.Idle? && key in sys.keys && key !in d.live
    ensures AllocateSpec(d.table, sys.hash, key) == (table, Ok(octet)) && octet in table && table[octet] == key
    ensures DaemonRun(sys, d, [UpCheck(key)] + [UpAllocate]) == Some(Given(sys, d, key, octet, table))
    ensures DaemonStep(sys, Given(sys, d, key, octet, table), UpInsert) == Some(Inserted(d, key, octet, table))
    ensures DaemonRun(sys, d, [UpCheck(key)] + [UpAllocate] + [UpInsert]) == Some(Inserted(d, key, octet, table))
  {
    ConfiguredAllocates(sys, d.table, key);
    var r;
    table, r := AllocateSpec(d.table, sys.hash, key).0, AllocateSpec(d.table, sys.hash, key).1;
    octet := r.value;
    var (checked, given) := (d.(cmd := Checked(key)), Given(sys, d, key, octet, table));
    RunOne(sys, d, UpCheck(key), checked);
    RunOne(sys, checked, UpAllocate, given);
    RunAppend(sys, d, [UpCheck(key)], checked, [UpAllocate]);
    RunOne(sys, given, UpInsert, Inserted(d, key, octet, table));
    RunAppend(sys, d, [UpCheck(key)] + [UpAllocate], given, [UpInsert]);
  }

  // ----- One instance's own steps -----

  predicate Plain(a: Action) {
    a.Go? || a.StopStep?
  }

  function Threads(i: nat, acts: seq<Action>): seq<Event> {
    seq(|acts|, k requires 0 <= k < |acts| => Thread(i, acts[k]))
  }

  /** Steps that neither allocate nor register move the instance alone. */
  lemma {:induction false} PlainRun(sys: System, d: Daemon, i: nat, acts: seq<Action>, s: Service)
    requires i < |d.insts| && (forall a :: a in acts ==> Plain(a))
    requires (forall a :: a in acts ==> a.Go?) || (d.cmd.Halting? && i in d.cmd.ids)
    requires Run(d.insts[i].s, sys.asg(d.insts[i].key), acts) == Some(s)
    ensures DaemonRun(sys, d, Threads(i, acts)) == Some(With(d, i, s))
    decreases |acts|
  {
    if acts == [] {
      assert With(d, i, s) == d;
    } else {
      var next := Step(d.insts[i].s, sys.asg(d.insts[i].key), acts[0]).value;
      var mid := With(d, i, next);
      assert acts[0] in acts;
      assert DaemonStep(sys, d, Thread(i, acts[0])) == Some(mid);
      PlainRun(sys, mid, i, acts[1..], s);
      assert With(mid, i, s) == With(d, i, s);
      assert Threads(i, acts)[1..] == Threads(i, acts[1..]);
    }
  }

  lemma RunCons(s: Service, asg: bool, a: Action, mid: Service, rest: seq<Action>)
    requires Step(s, asg, a) == Some(mid)
    ensures Run(s, asg, [a] + rest) == Run(mid, asg, rest)
  {
    assert ([a] + rest)[1..] == rest;
  }

  // ----- Up to the registration -----

  /** The new goroutine past its context check. */
  const PAST := INIT.(go := Loop(ReadFrom))

  const ALLOCATING := INIT.(fields := Moved(FRESH, Starting), go := Connect(AllocateIP))

  function Adding(octet: Option<int>): Service {
    ALLOCATING.(ip := octet, go := Connect(AddDNS))
  }

  function Added(octet: Option<int>): Service {
    ALLOCATING.(ip := octet, go := Connect(FreePort))
  }

  lemma PassRun(asg: bool)
    ensures Run(INIT, asg, [Go]) == Some(PAST)
  {
    RunCons(INIT, asg, Go, PAST, []);
    assert [Go] + [] == [Go];
  }

  lemma ConnectRun(asg: bool)
    ensures Run(INIT, asg, [Go] + ([Go] + ([Go] + []))) == Some(ALLOCATING)
  {
    var entering := INIT.(go := Loop(EnterStarting(Disconnected)));
    RunCons(INIT, asg, Go, PAST, [Go] + ([Go] + []));
    RunCons(PAST, asg, Go, entering, [Go] + []);
    RunCons(entering, asg, Go, ALLOCATING, []);
  }

  lemma OwnedAllocates(sys: System, d: Daemon, i: nat, octet: Byte)
    requires ValidTable(d.table) && i < |d.insts| && d.insts[i].s == ALLOCATING
    requires octet in d.table && d.table[octet] == d.insts[i].key
    ensures DaemonStep(sys, d, Thread(i, GoAllocated(Some(octet)))) == Some(With(d, i, Adding(Some(octet))))
  {
    AllocateMeaning(d.table, sys.hash, d.insts[i].key);
  }

  lemma WithTwice(d: Daemon, i: nat, s: Service, t: Service)
    requires i < |d.insts|
    ensures With(With(d, i, s), i, t) == With(d, i, t)
  {
  }

  /** A new instance comes to its registration with the address that its key owns. */
  lemma AddingRun(sys: System, d: Daemon, i: nat, octet: Byte) returns (events: seq<Event>)
    requires ValidTable(d.table) && i < |d.insts| && d.insts[i].s == INIT
    requires octet in d.table && d.table[octet] == d.insts[i].key
    ensures DaemonRun(sys, d, events) == Some(With(d, i, Adding(Some(octet))))
    ensures forall e :: e in events ==> e.Thread?
  {
    var acts := [Go] + ([Go] + ([Go] + []));
    ConnectRun(sys.asg(d.insts[i].key));
    PlainRun(sys, d, i, acts, ALLOCATING);
    var mid := With(d, i, ALLOCATING);
    var e := Thread(i, GoAllocated(Some(octet)));
    OwnedAllocates(sys, mid, i, octet);
    WithTwice(d, i, ALLOCATING, Adding(Some(octet)));
    RunOne(sys, mid, e, With(d, i, Adding(Some(octet))));
    RunAppend(sys, d, Threads(i, acts), mid, [e]);
    events := Threads(i, acts) + [e];
  }

  /** And registers it. */
  lemma RegisterStep(sys: System, d: Daemon, i: nat)
    requires i < |d.insts| && AtAddDNS(d.insts[i].s.go)
    ensures DaemonStep(sys, d, Thread(i, GoSucceeds)) ==
      Some(With(d, i, d.insts[i].s.(go := Connect(FreePort))).(
        records := d.records[sys.fqdn(d.insts[i].key) := d.insts[i].s.ip]))
  {
  }

  // ----- Stopping -----

  /** A service without a session, that stands at no critical section and is not being stopped. */
  predicate Stoppable(s: Service) {
    && !Locked(s) && s.stop.NotStopped? && s.fields.session.None? && s.fields.proxy.None?
    && (s.fields.state.Disconnected? || s.fields.state.Starting?)
  }

  /** The service after its stop, if the goroutine does not move meanwhile. */
  function Stopped(s: Service): Service {
    s.(cancelled := true, fields := s.fields.(state := Disconnected), stop := StopDone(s.fields.state))
  }

  const SIX_STEPS: seq<Action> :=
    [StopStep] + ([StopStep] + ([StopStep] + ([StopStep] + ([StopStep] + ([StopStep] + [])))))

  lemma StopRun(s: Service, asg: bool)
    requires Stoppable(s)
    ensures Run(s, asg, SIX_STEPS) == Some(Stopped(s))
  {
    var (f, st) := (s.fields, s.fields.state);
    var stopping := if st.Disconnected? then f else f.(state := Stopping);
    var s1 := s.(cancelled := true, stop := Cancelled);
    var s2 := s1.(stop := EnterStopping(None, st));
    var s3 := s2.(fields := stopping, stop := StopSession(None, st));
    var s4 := s3.(stop := TakeProxy(st));
    var s5 := s4.(stop := EnterDisconnected(st));
    var rest: seq<Action> := [];
    assert Step(s, asg, StopStep) == Some(s1) && Step(s1, asg, StopStep) == Some(s2);
    assert Step(s2, asg, StopStep) == Some(s3) && Step(s3, asg, StopStep) == Some(s4);
    assert Step(s4, asg, StopStep) == Some(s5) && Step(s5, asg, StopStep) == Some(Stopped(s));
    RunCons(s5, asg, StopStep, Stopped(s), rest);
    RunCons(s4, asg, StopStep, s5, [StopStep] + rest);
    RunCons(s3, asg, StopStep, s4, [StopStep] + ([StopStep] + rest));
    RunCons(s2, asg, StopStep, s3, [StopStep] + ([StopStep] + ([StopStep] + rest)));
    RunCons(s1, asg, StopStep, s2, [StopStep] + ([StopStep] + ([StopStep] + ([StopStep] + rest))));
    RunCons(s, asg, StopStep, s1, [StopStep] + ([StopStep] + ([StopStep] + ([StopStep] + ([StopStep] + rest)))));
  }

  /** A down command stops instance i and comes to the release of its address. */
  lemma HaltRun(sys: System, d: Daemon, i: nat) returns (events: seq<Event>)
    requires i < |d.insts| && d.cmd.Idle? && IsLive(d, i) && Stoppable(d.insts[i].s)
    ensures DaemonRun(sys, d, events) == Some(With(d, i, Stopped(d.insts[i].s)).(cmd := Cleaning([i], 0, ReAllocate)))
    ensures forall e :: e in events ==> !e.UpInsert?
  {
    var halting := d.(cmd := Halting([i]));
    var stopped := With(halting, i, Stopped(d.insts[i].s));
    StopRun(d.insts[i].s, sys.asg(d.insts[i].key));
    PlainRun(sys, halting, i, SIX_STEPS, Stopped(d.insts[i].s));
    assert DaemonStep(sys, d, DownCollect([i])) == Some(halting);
    assert DaemonStep(sys, stopped, DownStopped) == Some(stopped.(cmd := Cleaning([i], 0, ReAllocate)));
    RunOne(sys, d, DownCollect([i]), halting);
    RunOne(sys, stopped, DownStopped, stopped.(cmd := Cleaning([i], 0, ReAllocate)));
    RunAppend(sys, halting, Threads(i, SIX_STEPS), stopped, [DownStopped]);
    RunAppend(sys, d, [DownCollect([i])], halting, Threads(i, SIX_STEPS) + [DownStopped]);
    events := [DownCollect([i])] + (Threads(i, SIX_STEPS) + [DownStopped]);
  }

  /** The daemon in the course of a down command: at the release of the address, after it, with the key
      deleted, and at the end. */
  function Releasing(d: Daemon, i: nat): Daemon {
    d.(cmd := Cleaning([i], 0, ReleaseIP))
  }

  ghost function Freed(d: Daemon, i: nat, key: string): Daemon {
    d.(table := ReleaseSpec(d.table, key), cmd := Cleaning([i], 0, DeleteKey))
  }

  function Deleted(d: Daemon, i: nat, key: string): Daemon {
    d.(live := d.live - {key}, cmd := Removing([i], 0))
  }

  lemma ReAllocateStep(sys: System, d: Daemon, i: nat, octet: Byte)
    requires ValidTable(d.table) && i < |d.insts| && d.cmd == Cleaning([i], 0, ReAllocate)
    requires octet in d.table && d.table[octet] == d.insts[i].key
    ensures DaemonStep(sys, d, CleanNext) == Some(Releasing(d, i))
  {
    AllocateMeaning(d.table, sys.hash, d.insts[i].key);
  }

  lemma ReleaseStep(sys: System, d: Daemon, i: nat)
    requires i < |d.insts| && d.cmd == Cleaning([i], 0, ReleaseIP)
    ensures DaemonStep(sys, d, CleanNext) == Some(Freed(d, i, d.insts[i].key))
  {
  }

  lemma DeleteStep(sys: System, d: Daemon, i: nat)
    requires i < |d.insts| && d.cmd == Cleaning([i], 0, DeleteKey)
    ensures DaemonStep(sys, d, CleanNext) == Some(Deleted(d, i, d.insts[i].key))
  {
  }

  /** A down command of one instance comes to the release of its address. */
  lemma ReleasingRun(sys: System, d: Daemon, i: nat, octet: Byte) returns (events: seq<Event>)
    requires ValidTable(d.table) && i < |d.insts| && d.cmd.Idle? && IsLive(d, i) && Stoppable(d.insts[i].s)
    requires octet in d.table && d.table[octet] == d.insts[i].key
    ensures DaemonRun(sys, d, events) == Some(Releasing(With(d, i, Stopped(d.insts[i].s)), i))
    ensures forall e :: e in events ==> !e.UpInsert?
  {
    events := HaltRun(sys, d, i);
    var halted := With(d, i, Stopped(d.insts[i].s)).(cmd := Cleaning([i], 0, ReAllocate));
    ReAllocateStep(sys, halted, i, octet);
    RunOne(sys, halted, CleanNext, Releasing(halted, i));
    RunAppend(sys, d, events, halted, [CleanNext]);
    events := events + [CleanNext];
  }

  /** And on to the removal of its record. */
  lemma RemovingRun(sys: System, d: Daemon, i: nat, octet: Byte) returns (events: seq<Event>)
    requires ValidTable(d.table) && i < |d.insts| && d.cmd.Idle? && IsLive(d, i) && Stoppable(d.insts[i].s)
    requires octet in d.table && d.table[octet] == d.insts[i].key
    ensures var key := d.insts[i].key;
      DaemonRun(sys, d, events) == Some(Deleted(Freed(With(d, i, Stopped(d.insts[i].s)), i, key), i, key))
    ensures forall e :: e in events ==> !e.UpInsert?
  {
    var key := d.insts[i].key;
    events := ReleasingRun(sys, d, i, octet);
    var d1 := Releasing(With(d, i, Stopped(d.insts[i].s)), i);
    var d2 := Freed(d1, i, key);
    ReleaseStep(sys, d1, i);
    DeleteStep(sys, d2, i);
    RunOne(sys, d2, CleanNext, Deleted(d2, i, key));
    RunOne(sys, d1, CleanNext, d2);
    RunAppend(sys, d1, [CleanNext], d2, [CleanNext]);
    RunAppend(sys, d, events, d1, [CleanNext] + [CleanNext]);
    events := events + ([CleanNext] + [CleanNext]);
  }

  function Removed(sys: System, d: Daemon, key: string): Daemon {
    d.(records := d.records - {sys.fqdn(key)}, cmd := Idle)
  }

  lemma RemoveStep(sys: System, d: Daemon, i: nat)
    requires i < |d.insts| && d.cmd == Removing([i], 0)
    ensures DaemonStep(sys, d, RemoveNext) == Some(Removed(sys, d, d.insts[i].key))
  {
  }

  /** A whole down command of one instance. */
  lemma DownRun(sys: System, d: Daemon, i: nat, octet: Byte) returns (events: seq<Event>)
    requires ValidTable(d.table) && i < |d.insts| && d.cmd.Idle? && IsLive(d, i) && Stoppable(d.insts[i].s)
    requires octet in d.table && d.table[octet] == d.insts[i].key
    ensures var key := d.insts[i].key;
      DaemonRun(sys, d, events) == Some(With(d, i, Stopped(d.insts[i].s)).(
        table := ReleaseSpec(d.table, key), live := d.live - {key}, records := d.records - {sys.fqdn(key)}))
    ensures forall e :: e in events ==> !e.UpInsert?
  {
    var key := d.insts[i].key;
    events := RemovingRun(sys, d, i, octet);
    var d3 := Deleted(Freed(With(d, i, Stopped(d.insts[i].s)), i, key), i, key);
    RemoveStep(sys, d3, i);
    RunOne(sys, d3, RemoveNext, Removed(sys, d3, key));
    RunAppend(sys, d, events, d3, [RemoveNext]);
    events := events + [RemoveNext];
  }
}
