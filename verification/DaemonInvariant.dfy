/** What every run of the daemon keeps, whatever the interleaving. */
module DaemonInvariant {
  import opened Wrappers
  import opened IPAllocator
  import opened State
  import opened Lifecycle
  import opened LifecycleInvariant
  import opened Daemon

  // ----- Every run -----

  ghost predicate ServicesOk(sys: System, d: Daemon) {
    forall i :: 0 <= i < |d.insts| ==> Inv(d.insts[i].s)
  }

  /** An instance that left the map of running instances has a complete stop; one that is in it and is
      being stopped belongs to the running command. */
  ghost predicate LiveOk(d: Daemon, i: nat) {
    i < |d.insts| ==>
      && (!IsLive(d, i) ==> d.insts[i].s.stop.StopDone?)
      && (IsLive(d, i) && !d.insts[i].s.stop.NotStopped? ==> InCommand(d.cmd, i))
  }

  /** The running down command works on this instance and has not deleted its key yet. */
  predicate InCommand(cmd: Command, i: nat) {
    match cmd
    case Halting(ids) => i in ids
    case Cleaning(ids, k, _) => exists j :: k <= j < |ids| && ids[j] == i
    case _ => false
  }

  ghost predicate CommandOk(d: Daemon) {
    match d.cmd
    case Idle => true
    case Checked(key) => key !in d.live
    case Allocated(key, octet) => key !in d.live && octet in d.table && d.table[octet] == key
    case Halting(ids) => Distinct(ids) && forall i :: i in ids ==> IsLive(d, i)
    case Cleaning(ids, k, _) =>
      && Distinct(ids) && k < |ids|
      && (forall j :: 0 <= j < |ids| ==> ids[j] < |d.insts| && d.insts[ids[j]].s.stop.StopDone?)
      && (forall j :: 0 <= j < |ids| ==> (IsLive(d, ids[j]) <==> j >= k) && (j < k ==> d.insts[ids[j]].key !in d.live))
    case Removing(ids, k) =>
      k < |ids| && forall j :: 0 <= j < |ids| ==> ids[j] < |d.insts| && d.insts[ids[j]].key !in d.live
  }

  ghost predicate TableOk(sys: System, d: Daemon) {
    && ValidTable(d.table) && d.table.Values <= sys.keys
    && (forall key :: key in d.live ==> d.live[key] < |d.insts| && d.insts[d.live[key]].key == key)
    && (forall i :: 0 <= i < |d.insts| ==> d.insts[i].key in sys.keys)
    && (d.cmd.Checked? || d.cmd.Allocated? ==> d.cmd.key in sys.keys)
  }

  ghost predicate LivesOk(d: Daemon) {
    CommandOk(d) && forall i: nat :: LiveOk(d, i)
  }

  ghost predicate DaemonInv(sys: System, d: Daemon) {
    ServicesOk(sys, d) && TableOk(sys, d) && LivesOk(d)
  }

  lemma GoKeepsStop(s: Service, n: Service, asg: bool, a: Action)
    requires GoStep(s, asg, a) == Some(n)
    ensures n.stop == s.stop
  {
    if s.go.Serve? {
      assert ServeStep(s, asg, s.go.v, a) == Some(n);
    }
  }

  lemma EnvironmentKeepsStop(s: Service, n: Service, a: Action)
    requires EnvironmentStep(s, a) == Some(n)
    ensures n.stop == s.stop
  {
  }

  /** Only `stopService` moves its own program counter, and not after it returned. */
  lemma StopMoves(s: Service, n: Service, asg: bool, a: Action)
    requires Step(s, asg, a) == Some(n)
    ensures !a.StopStep? || s.stop.StopDone? ==> n.stop == s.stop
  {
    if IsGo(a) {
      GoKeepsStop(s, n, asg, a);
    } else if !a.StopStep? {
      EnvironmentKeepsStop(s, n, a);
    }
  }

  lemma InitInv()
    ensures Inv(INIT)
  {
  }

  lemma ThreadKeepsServices(sys: System, d: Daemon, n: Daemon, i: nat, a: Action)
    requires ServicesOk(sys, d) && i < |d.insts| && ThreadStep(sys, d, i, a) == Some(n)
    ensures ServicesOk(sys, n)
  {
    StepKeepsInv(d.insts[i].s, n.insts[i].s, sys.asg(d.insts[i].key), a);
  }

  lemma AllocateGrows(t: Table, h: Hash, key: string, keys: set<string>)
    requires ValidTable(t) && t.Values <= keys && key in keys
    ensures var t' := AllocateSpec(t, h, key).0;
      ValidTable(t') && t'.Values <= keys && forall o :: o in t ==> o in t' && t'[o] == t[o]
  {
  }

  lemma ThreadKeepsTable(sys: System, d: Daemon, n: Daemon, i: nat, a: Action)
    requires TableOk(sys, d) && i < |d.insts| && ThreadStep(sys, d, i, a) == Some(n)
    ensures TableOk(sys, n)
    ensures forall o :: o in d.table ==> o in n.table && n.table[o] == d.table[o]
  {
    if a.GoAllocated? {
      AllocateGrows(d.table, sys.hash, d.insts[i].key, sys.keys);
    }
  }

  lemma ThreadKeepsLives(sys: System, d: Daemon, n: Daemon, i: nat, a: Action)
    requires TableOk(sys, d) && LivesOk(d) && i < |d.insts| && ThreadStep(sys, d, i, a) == Some(n)
    ensures LivesOk(n)
  {
    ThreadKeepsTable(sys, d, n, i, a);
    StopMoves(d.insts[i].s, n.insts[i].s, sys.asg(d.insts[i].key), a);
    assert forall j: nat :: IsLive(n, j) == IsLive(d, j);
    forall j: nat
      ensures LiveOk(n, j)
    {
      assert LiveOk(d, j);
    }
  }

  lemma UpKeepsTable(sys: System, d: Daemon, n: Daemon, e: Event)
    requires TableOk(sys, d) && CommandOk(d) && UpStep(sys, d, e) == Some(n)
    ensures TableOk(sys, n) && CommandOk(n)
  {
    if d.cmd.Checked? {
      AllocateMeaning(d.table, sys.hash, d.cmd.key);
    }
  }

  lemma UpKeepsLives(sys: System, d: Daemon, n: Daemon, e: Event)
    requires TableOk(sys, d) && LivesOk(d) && UpStep(sys, d, e) == Some(n)
    ensures LivesOk(n)
  {
    UpKeepsTable(sys, d, n, e);
    forall j: nat
      ensures LiveOk(n, j)
    {
      assert LiveOk(d, j);
      assert j < |d.insts| ==> (IsLive(n, j) <==> IsLive(d, j));
    }
  }

  lemma DownKeepsTable(sys: System, d: Daemon, n: Daemon, e: Event)
    requires TableOk(sys, d) && CommandOk(d) && DownStep(sys, d, e) == Some(n)
    ensures TableOk(sys, n)
  {
    if d.cmd.Cleaning? {
      var key := d.insts[d.cmd.ids[d.cmd.k]].key;
      match d.cmd.phase
      case ReAllocate => AllocateGrows(d.table, sys.hash, key, sys.keys);
      case ReleaseIP => ReleaseMeaning(d.table, key);
      case DeleteKey =>
    }
  }

  /** Deleting the key of one stopped instance leaves the others of the command running. */
  lemma DeleteKeepsLives(d: Daemon, n: Daemon, ids: seq<nat>, k: nat)
    requires LivesOk(d) && d.cmd == Cleaning(ids, k, DeleteKey)
    requires n == d.(live := d.live - {d.insts[ids[k]].key}, cmd := n.cmd)
    requires n.cmd == if k + 1 < |ids| then Cleaning(ids, k + 1, ReAllocate) else Removing(ids, 0)
    ensures LivesOk(n)
  {
    var key := d.insts[ids[k]].key;
    forall j: nat | j < |d.insts|
      ensures IsLive(n, j) <==> IsLive(d, j) && j != ids[k]
    {
      assert IsLive(d, ids[k]);
    }
    forall j: nat | j < |d.insts|
      ensures LiveOk(n, j)
    {
      assert LiveOk(d, j);
    }
    forall j | 0 <= j < |ids| && j != k
      ensures j > k ==> IsLive(n, ids[j])
      ensures j < k ==> d.insts[ids[j]].key !in n.live
    {
      assert ids[j] != ids[k];
    }
  }

  /** The instances stay as they are; only the command moves on. */
  ghost predicate OnlyCommandMoves(d: Daemon, n: Daemon) {
    n.insts == d.insts && n.live == d.live
  }

  lemma HaltedKeepsLives(d: Daemon, n: Daemon, ids: seq<nat>)
    requires LivesOk(d) && OnlyCommandMoves(d, n) && d.cmd == Halting(ids)
    requires n.cmd == if ids == [] then Idle else Cleaning(ids, 0, ReAllocate)
    requires forall i :: i in ids ==> i < |d.insts| && d.insts[i].s.stop.StopDone?
    ensures LivesOk(n)
  {
    assert forall j :: 0 <= j < |ids| ==> ids[j] in ids;
    forall j: nat
      ensures LiveOk(n, j)
    {
      assert LiveOk(d, j) && IsLive(n, j) == IsLive(d, j);
    }
    forall j | 0 <= j < |ids|
      ensures IsLive(n, ids[j])
    {
      assert IsLive(d, ids[j]);
    }
  }

  lemma CleaningKeepsLives(d: Daemon, n: Daemon)
    requires LivesOk(d) && OnlyCommandMoves(d, n) && d.cmd.Cleaning? && n.cmd.Cleaning? &&
      n.cmd == d.cmd.(phase := n.cmd.phase)
    ensures LivesOk(n)
  {
    forall j: nat
      ensures LiveOk(n, j) && IsLive(n, j) == IsLive(d, j)
    {
      assert LiveOk(d, j);
    }
  }

  lemma UnlistedKeepsLives(d: Daemon, n: Daemon)
    requires LivesOk(d) && OnlyCommandMoves(d, n) && (d.cmd.Idle? || d.cmd.Removing?)
    requires CommandOk(n)
    ensures LivesOk(n)
  {
    forall j: nat
      ensures LiveOk(n, j)
    {
      assert LiveOk(d, j) && IsLive(n, j) == IsLive(d, j);
    }
  }

  lemma DownKeepsLives(sys: System, d: Daemon, n: Daemon, e: Event)
    requires LivesOk(d) && DownStep(sys, d, e) == Some(n)
    ensures LivesOk(n)
  {
    match d.cmd
    case Halting(ids) => HaltedKeepsLives(d, n, ids);
    case Cleaning(ids, k, phase) =>
      if phase.DeleteKey? {
        DeleteKeepsLives(d, n, ids, k);
      } else {
        CleaningKeepsLives(d, n);
      }
    case _ => UnlistedKeepsLives(d, n);
  }

  lemma CommandKeepsServices(sys: System, d: Daemon, n: Daemon, e: Event)
    requires ServicesOk(sys, d) && !e.Thread? && DaemonStep(sys, d, e) == Some(n)
    ensures ServicesOk(sys, n)
  {
    InitInv();
  }

  lemma DaemonStepKeepsInv(sys: System, d: Daemon, n: Daemon, e: Event)
    requires DaemonInv(sys, d) && DaemonStep(sys, d, e) == Some(n)
    ensures DaemonInv(sys, n)
  {
    if e.Thread? {
      ThreadKeepsServices(sys, d, n, e.i, e.a);
      ThreadKeepsTable(sys, d, n, e.i, e.a);
      ThreadKeepsLives(sys, d, n, e.i, e.a);
    } else {
      CommandKeepsServices(sys, d, n, e);
      if e.UpCheck? || e.UpAllocate? || e.UpInsert? {
        UpKeepsTable(sys, d, n, e);
        UpKeepsLives(sys, d, n, e);
      } else {
        DownKeepsTable(sys, d, n, e);
        DownKeepsLives(sys, d, n, e);
      }
    }
  }

  lemma {:induction false} DaemonRunKeepsInv(sys: System, d: Daemon, n: Daemon, events: seq<Event>)
    requires DaemonInv(sys, d) && DaemonRun(sys, d, events) == Some(n)
    ensures DaemonInv(sys, n)
    decreases |events|
  {
    if events != [] {
      var next := DaemonStep(sys, d, events[0]).value;
      DaemonStepKeepsInv(sys, d, next, events[0]);
      DaemonRunKeepsInv(sys, next, n, events[1..]);
    }
  }

  /** Per key, over any run of up and down commands, at most one committed session has neither ended nor
      been told to stop; it belongs to the running instance of the key. */
  lemma OneLiveSessionPerKey(sys: System, d: Daemon, events: seq<Event>, i: nat, x: nat, j: nat, y: nat)
    requires DaemonRun(sys, BOOT, events) == Some(d)
    requires i < |d.insts| && j < |d.insts| && d.insts[i].key == d.insts[j].key
    requires x in d.insts[i].s.sessions && y in d.insts[j].s.sessions
    requires var (p, q) := (d.insts[i].s.sessions[x], d.insts[j].s.sessions[y]);
      p.committed && q.committed && !Settled(p) && !Settled(q)
    ensures i == j && x == y && IsLive(d, i)
  {
    DaemonRunKeepsInv(sys, BOOT, d, events);
    assert LiveOk(d, i) && LiveOk(d, j);
    assert SessionOk(d.insts[i].s, x) && SessionOk(d.insts[j].s, y);
  }

  /** Every proxy of a stopped instance whose goroutine has returned was stopped once, and every session
      of it has ended or was told to stop; over any run of commands. */
  lemma StoppedInstancesHoldNothing(sys: System, d: Daemon, events: seq<Event>, i: nat)
    requires DaemonRun(sys, BOOT, events) == Some(d)
    requires i < |d.insts| && !IsLive(d, i) && d.insts[i].s.go.Returned?
    ensures forall x :: x in d.insts[i].s.sessions ==> Settled(d.insts[i].s.sessions[x])
    ensures forall x :: x in d.insts[i].s.proxies ==> d.insts[i].s.proxies[x].stops == 1
  {
    DaemonRunKeepsInv(sys, BOOT, d, events);
    assert LiveOk(d, i);
    RestHoldsNothing(d.insts[i].s);
  }
}
