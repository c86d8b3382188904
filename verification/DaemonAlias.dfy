/** Every address in the daemon is one that `setup` created a loopback alias for. */
module DaemonAlias {
  import opened Wrappers
  import opened IPAllocator
  import opened State
  import opened Lifecycle
  import opened LifecycleInvariant
  import opened Daemon
  import opened DaemonInvariant
  import opened DaemonAddress

  /** The allocator's table is one that some history on the configured keys leads to. */
  ghost predicate Historic(sys: System, d: Daemon) {
    exists ops :: OnlyKeys(ops, sys.keys) && d.table == RunOps(map[], sys.hash, ops)
  }

  /** `full` is what `setup` loads, and every address in the daemon is in it. */
  ghost predicate AliasOk(d: Daemon, full: Table, i: nat) {
    i < |d.insts| ==>
      && d.insts[i].localIP in full
      && (HasAddress(d.insts[i].s.go) ==> HasAlias(d.insts[i].s.ip, full))
      && (forall x :: x in d.insts[i].s.proxies ==> HasAlias(d.insts[i].s.proxies[x].ip, full))
  }

  ghost predicate HasAlias(ip: Option<int>, full: Table) {
    ip.Some? && ip.value in full
  }

  ghost predicate AliasInv(sys: System, d: Daemon, full: Table) {
    && Historic(sys, d)
    && (d.cmd.Allocated? ==> d.cmd.octet in full)
    && forall i: nat :: AliasOk(d, full, i)
  }

  lemma HistoricAllocate(sys: System, d: Daemon, configured: seq<string>, key: string)
    requires Historic(sys, d) && sys.keys == (set k | k in configured) && |sys.keys| <= RANGE_SIZE && key in sys.keys
    ensures var (t, r) := AllocateSpec(d.table, sys.hash, key);
      r.Ok? && r.value in LoadAll(sys.hash, configured) && Historic(sys, d.(table := t))
  {
    var ops :| OnlyKeys(ops, sys.keys) && d.table == RunOps(map[], sys.hash, ops);
    DaemonStaysInsideSetup(sys.hash, configured, sys.keys, ops, key);
    var more := ops + [Alloc(key)];
    assert more[..|more| - 1] == ops && OnlyKeys(more, sys.keys);
  }

  lemma HistoricRelease(sys: System, d: Daemon, key: string)
    requires Historic(sys, d) && key in sys.keys
    ensures Historic(sys, d.(table := ReleaseSpec(d.table, key)))
  {
    var ops :| OnlyKeys(ops, sys.keys) && d.table == RunOps(map[], sys.hash, ops);
    var more := ops + [Free(key)];
    assert more[..|more| - 1] == ops && OnlyKeys(more, sys.keys);
  }

  lemma ThreadKeepsAlias(sys: System, d: Daemon, n: Daemon, configured: seq<string>, i: nat, a: Action)
    requires sys.keys == (set k | k in configured) && |sys.keys| <= RANGE_SIZE
    requires TableOk(sys, d) && AliasInv(sys, d, LoadAll(sys.hash, configured))
    requires i < |d.insts| && ThreadStep(sys, d, i, a) == Some(n)
    ensures AliasInv(sys, n, LoadAll(sys.hash, configured))
  {
    var full := LoadAll(sys.hash, configured);
    var (s, s', key) := (d.insts[i].s, n.insts[i].s, d.insts[i].key);
    HistoricAllocate(sys, d, configured, key);
    StepAddress(s, s', sys.asg(key), a);
    assert AliasOk(d, full, i);
    forall x | x in s'.proxies
      ensures HasAlias(s'.proxies[x].ip, full)
    {
      StepProxies(s, s', sys.asg(key), a, x);
    }
    forall j: nat
      ensures AliasOk(n, full, j)
    {
      assert AliasOk(d, full, j);
    }
  }

  lemma UpKeepsAlias(sys: System, d: Daemon, n: Daemon, configured: seq<string>, e: Event)
    requires sys.keys == (set k | k in configured) && |sys.keys| <= RANGE_SIZE
    requires TableOk(sys, d) && AliasInv(sys, d, LoadAll(sys.hash, configured)) && UpStep(sys, d, e) == Some(n)
    ensures AliasInv(sys, n, LoadAll(sys.hash, configured))
  {
    if d.cmd.Checked? {
      HistoricAllocate(sys, d, configured, d.cmd.key);
    }
    forall j: nat
      ensures AliasOk(n, LoadAll(sys.hash, configured), j)
    {
      assert AliasOk(d, LoadAll(sys.hash, configured), j);
    }
  }

  lemma DownKeepsAlias(sys: System, d: Daemon, n: Daemon, configured: seq<string>, e: Event)
    requires sys.keys == (set k | k in configured) && |sys.keys| <= RANGE_SIZE
    requires TableOk(sys, d) && CommandOk(d) && AliasInv(sys, d, LoadAll(sys.hash, configured))
    requires DownStep(sys, d, e) == Some(n)
    ensures AliasInv(sys, n, LoadAll(sys.hash, configured))
  {
    if d.cmd.Cleaning? {
      var key := d.insts[d.cmd.ids[d.cmd.k]].key;
      match d.cmd.phase
      case ReAllocate => HistoricAllocate(sys, d, configured, key);
      case ReleaseIP => HistoricRelease(sys, d, key);
      case DeleteKey =>
    }
    assert n.insts == d.insts && !n.cmd.Allocated?;
    forall j: nat
      ensures AliasOk(n, LoadAll(sys.hash, configured), j)
    {
      assert AliasOk(d, LoadAll(sys.hash, configured), j);
    }
  }

  lemma {:induction false} RunKeepsAlias(sys: System, d: Daemon, n: Daemon, configured: seq<string>, events: seq<Event>)
    requires sys.keys == (set k | k in configured) && |sys.keys| <= RANGE_SIZE
    requires DaemonInv(sys, d) && AliasInv(sys, d, LoadAll(sys.hash, configured))
    requires DaemonRun(sys, d, events) == Some(n)
    ensures AliasInv(sys, n, LoadAll(sys.hash, configured))
    decreases |events|
  {
    if events != [] {
      var next := DaemonStep(sys, d, events[0]).value;
      DaemonStepKeepsInv(sys, d, next, events[0]);
      if events[0].Thread? {
        ThreadKeepsAlias(sys, d, next, configured, events[0].i, events[0].a);
      } else if events[0].UpCheck? || events[0].UpAllocate? || events[0].UpInsert? {
        UpKeepsAlias(sys, d, next, configured, events[0]);
      } else {
        DownKeepsAlias(sys, d, next, configured, events[0]);
      }
      RunKeepsAlias(sys, next, n, configured, events[1..]);
    }
  }

  /** In every run of the daemon, patient or not, every proxy ever created listens on an address that
      `setup` created an alias for, in whatever order `setup` went through the configured keys. */
  lemma EveryProxyHasAlias(sys: System, d: Daemon, configured: seq<string>, events: seq<Event>, i: nat, x: nat)
    requires sys.keys == (set k | k in configured) && |sys.keys| <= RANGE_SIZE
    requires DaemonRun(sys, BOOT, events) == Some(d) && i < |d.insts| && x in d.insts[i].s.proxies
    ensures d.insts[i].s.proxies[x].ip.Some? && d.insts[i].s.proxies[x].ip.value in LoadAll(sys.hash, configured)
  {
    var none: seq<Op> := [];
    assert OnlyKeys(none, sys.keys) && BOOT.table == RunOps(map[], sys.hash, none);
    RunKeepsAlias(sys, BOOT, d, configured, events);
    assert AliasOk(d, LoadAll(sys.hash, configured), i);
  }
}
