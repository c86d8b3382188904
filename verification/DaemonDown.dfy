/** What an up or a down command has done when it is over, whatever ran beside it. */
module DaemonDown {
  import opened Wrappers
  import opened IPAllocator
  import opened State
  import opened Lifecycle
  import opened LifecycleInvariant
  import opened LifecycleOutcome
  import opened Daemon
  import opened DaemonInvariant
  import opened DaemonAddress

  /** None of these events begins a command. */
  ghost predicate NoCommand(events: seq<Event>) {
    forall e :: e in events ==> !e.UpCheck? && !e.DownCollect?
  }

  /** The stop of one of the key's instances is done, and its goroutine makes this step. */
  ghost predicate ByStopped(d: Daemon, e: Event, key: string) {
    e.Thread? && e.i < |d.insts| && d.insts[e.i].key == key && d.insts[e.i].s.stop.StopDone?
  }

  /** After its stop a goroutine of the key registers. */
  ghost predicate RegistersLate(sys: System, d: Daemon, events: seq<Event>, key: string)
    decreases |events|
  {
    events != [] &&
    ((ByStopped(d, events[0], key) && AddsDNS(d.insts[events[0].i].s, events[0].a))
     || (DaemonStep(sys, d, events[0]).Some? &&
         RegistersLate(sys, DaemonStep(sys, d, events[0]).value, events[1..], key)))
  }

  /** After its stop a goroutine of the key allocates. */
  ghost predicate AllocatesLate(sys: System, d: Daemon, events: seq<Event>, key: string)
    decreases |events|
  {
    events != [] &&
    ((ByStopped(d, events[0], key) && events[0].a.GoAllocated?)
     || (DaemonStep(sys, d, events[0]).Some? &&
         AllocatesLate(sys, DaemonStep(sys, d, events[0]).value, events[1..], key)))
  }

  /** The command that collected these instances is under way, or over. */
  ghost predicate Stopping(d: Daemon, ids: seq<nat>, j: nat)
    requires j < |ids|
  {
    && ids[j] < |d.insts|
    && match d.cmd
       case Halting(x) => x == ids
       case Cleaning(x, _, _) => x == ids
       case Removing(x, _) => x == ids
       case Idle => d.insts[ids[j]].key !in d.live
       case _ => false
  }

  /** The command has released the address of its j-th instance. */
  predicate PastRelease(cmd: Command, j: nat) {
    match cmd
    case Halting(_) => false
    case Cleaning(_, k, phase) => j < k || (j == k && phase.DeleteKey?)
    case _ => true
  }

  /** The command has removed the record of its j-th instance. */
  predicate PastRemoval(cmd: Command, j: nat) {
    match cmd
    case Halting(_) => false
    case Cleaning(_, _, _) => false
    case Removing(_, k) => j < k
    case _ => true
  }

  ghost predicate FreedOk(d: Daemon, j: nat, key: string) {
    PastRelease(d.cmd, j) ==> key !in d.table.Values
  }

  ghost predicate RemovedOk(sys: System, d: Daemon, j: nat, key: string) {
    PastRemoval(d.cmd, j) ==> sys.fqdn(key) !in d.records
  }

  /** Past its release all instances of the key have a complete stop. */
  lemma PastReleaseAllStopped(sys: System, d: Daemon, ids: seq<nat>, j: nat, i: nat)
    requires DaemonInv(sys, d) && j < |ids| && Stopping(d, ids, j) && PastRelease(d.cmd, j)
    requires i < |d.insts| && d.insts[i].key == d.insts[ids[j]].key
    ensures d.insts[i].s.stop.StopDone?
  {
    assert LiveOk(d, i);
  }

  lemma ThreadKeepsDown(sys: System, d: Daemon, n: Daemon, i: nat, a: Action, ids: seq<nat>, j: nat, key: string)
    requires DaemonInv(sys, d) && j < |ids| && Stopping(d, ids, j) && d.insts[ids[j]].key == key
    requires i < |d.insts| && ThreadStep(sys, d, i, a) == Some(n)
    ensures Stopping(n, ids, j) && n.insts[ids[j]].key == key
    ensures FreedOk(d, j, key) && !(ByStopped(d, Thread(i, a), key) && a.GoAllocated?) ==> FreedOk(n, j, key)
    ensures OwnName(sys, key) && RemovedOk(sys, d, j, key) &&
      !(ByStopped(d, Thread(i, a), key) && AddsDNS(d.insts[i].s, a))
      ==> RemovedOk(sys, n, j, key)
  {
    if PastRelease(d.cmd, j) && d.insts[i].key == key {
      PastReleaseAllStopped(sys, d, ids, j, i);
    }
    AllocateMeaning(d.table, sys.hash, d.insts[i].key);
  }

  lemma CleaningKeepsStopping(sys: System, d: Daemon, n: Daemon, e: Event, ids: seq<nat>, j: nat)
    requires CommandOk(d) && j < |ids| && Stopping(d, ids, j) && d.cmd.Cleaning? && DownStep(sys, d, e) == Some(n)
    ensures Stopping(n, ids, j) && RemovedOk(sys, n, j, d.insts[ids[j]].key)
  {
  }

  /** The key whose address was released is another one than that which the command works on. */
  lemma CleanedKeyDiffers(d: Daemon, ids: seq<nat>, j: nat)
    requires CommandOk(d) && d.cmd.Cleaning? && d.cmd.ids == ids && j < d.cmd.k
    ensures d.insts[ids[j]].key != d.insts[ids[d.cmd.k]].key
  {
    assert IsLive(d, ids[d.cmd.k]);
  }

  lemma CleaningKeepsFreed(sys: System, d: Daemon, n: Daemon, e: Event, ids: seq<nat>, j: nat, key: string)
    requires TableOk(sys, d) && CommandOk(d) && j < |ids| && Stopping(d, ids, j) && d.insts[ids[j]].key == key
    requires d.cmd.Cleaning? && FreedOk(d, j, key) && DownStep(sys, d, e) == Some(n)
    ensures FreedOk(n, j, key)
  {
    var other := d.insts[ids[d.cmd.k]].key;
    if j < d.cmd.k {
      CleanedKeyDiffers(d, ids, j);
    }
    match d.cmd.phase
    case ReAllocate => AllocateMeaning(d.table, sys.hash, other);
    case ReleaseIP => ReleaseMeaning(d.table, other);
    case DeleteKey =>
  }

  lemma RemovingKeepsDown(sys: System, d: Daemon, n: Daemon, e: Event, ids: seq<nat>, j: nat, key: string)
    requires CommandOk(d) && j < |ids| && Stopping(d, ids, j) && d.insts[ids[j]].key == key && d.cmd.Removing?
    requires DownStep(sys, d, e) == Some(n)
    ensures Stopping(n, ids, j)
    ensures FreedOk(d, j, key) ==> FreedOk(n, j, key)
    ensures RemovedOk(sys, d, j, key) ==> RemovedOk(sys, n, j, key)
  {
  }

  lemma CommandKeepsDown(sys: System, d: Daemon, n: Daemon, e: Event, ids: seq<nat>, j: nat, key: string)
    requires DaemonInv(sys, d) && j < |ids| && Stopping(d, ids, j) && d.insts[ids[j]].key == key
    requires !e.Thread? && !e.UpCheck? && !e.DownCollect? && DaemonStep(sys, d, e) == Some(n)
    ensures Stopping(n, ids, j) && n.insts == d.insts
    ensures FreedOk(d, j, key) ==> FreedOk(n, j, key)
    ensures RemovedOk(sys, d, j, key) ==> RemovedOk(sys, n, j, key)
  {
    if d.cmd.Cleaning? {
      CleaningKeepsStopping(sys, d, n, e, ids, j);
      if FreedOk(d, j, key) {
        CleaningKeepsFreed(sys, d, n, e, ids, j, key);
      }
    } else if d.cmd.Removing? {
      RemovingKeepsDown(sys, d, n, e, ids, j, key);
    }
  }

  lemma {:induction false} RunKeepsDown(sys: System, d: Daemon, n: Daemon, more: seq<Event>, ids: seq<nat>, j: nat,
                                        key: string)
    requires DaemonInv(sys, d) && j < |ids| && Stopping(d, ids, j) && d.insts[ids[j]].key == key
    requires NoCommand(more) && DaemonRun(sys, d, more) == Some(n)
    ensures DaemonInv(sys, n) && Stopping(n, ids, j) && n.insts[ids[j]].key == key
    ensures FreedOk(d, j, key) && !AllocatesLate(sys, d, more, key) ==> FreedOk(n, j, key)
    ensures OwnName(sys, key) && RemovedOk(sys, d, j, key) && !RegistersLate(sys, d, more, key) ==>
      RemovedOk(sys, n, j, key)
    decreases |more|
  {
    if more != [] {
      var next := DaemonStep(sys, d, more[0]).value;
      DaemonStepKeepsInv(sys, d, next, more[0]);
      if more[0].Thread? {
        ThreadKeepsDown(sys, d, next, more[0].i, more[0].a, ids, j, key);
      } else {
        CommandKeepsDown(sys, d, next, more[0], ids, j, key);
      }
      RunKeepsDown(sys, next, n, more[1..], ids, j, key);
    }
  }

  /** A down command that collected these instances, when it is over, in every interleaving: each of them is
      stopped and out of the map of running instances; the allocator gives the key no address, unless a
      goroutine of the key allocated after its stop; and the resolver has no record of the key's name, if that
      is its own, unless a goroutine of the key registered it after its stop. */
  lemma DownStopsAll(sys: System, events: seq<Event>, before: Daemon, ids: seq<nat>, begun: Daemon,
                     more: seq<Event>, d: Daemon, i: nat)
    requires DaemonRun(sys, BOOT, events) == Some(before) && DaemonStep(sys, before, DownCollect(ids)) == Some(begun)
    requires DaemonRun(sys, begun, more) == Some(d) && NoCommand(more) && d.cmd.Idle? && i in ids
    ensures i < |d.insts| && d.insts[i].key == before.insts[i].key
    ensures d.insts[i].s.stop.StopDone? && d.insts[i].key !in d.live
    ensures !AllocatesLate(sys, begun, more, d.insts[i].key) ==> d.insts[i].key !in d.table.Values
    ensures OwnName(sys, d.insts[i].key) && !RegistersLate(sys, begun, more, d.insts[i].key) ==>
      sys.fqdn(d.insts[i].key) !in d.records
  {
    DaemonRunKeepsInv(sys, BOOT, before, events);
    DaemonStepKeepsInv(sys, before, begun, DownCollect(ids));
    var j :| 0 <= j < |ids| && ids[j] == i;
    RunKeepsDown(sys, begun, d, more, ids, j, before.insts[i].key);
    assert LiveOk(d, i);
  }

  /** Before it releases an address, the command asks the allocator for it, and gets the instance's own: nothing
      is allocated then. */
  lemma AskedForIsOwn(sys: System, events: seq<Event>, d: Daemon, ids: seq<nat>, k: nat)
    requires DaemonRun(sys, BOOT, events) == Some(d) && d.cmd == Cleaning(ids, k, ReAllocate)
    ensures k < |ids| && ids[k] < |d.insts|
    ensures AllocateSpec(d.table, sys.hash, d.insts[ids[k]].key) == (d.table, Ok(d.insts[ids[k]].localIP))
  {
    RunKeepsAddressInv(sys, BOOT, d, events);
    assert IsLive(d, ids[k]) && Bound(d, ids[k]);
    assert AddressOk(d, ids[k]);
    AllocateMeaning(d.table, sys.hash, d.insts[ids[k]].key);
  }

  // ----- The steps of a command -----

  /** When no command is running, one can begin for any configured key, or for any instances that are running. */
  lemma CommandsMayBegin(sys: System, d: Daemon, key: string, ids: seq<nat>)
    requires d.cmd.Idle?
    ensures key in sys.keys ==> DaemonStep(sys, d, UpCheck(key)).Some?
    ensures Distinct(ids) && (forall i :: i in ids ==> IsLive(d, i)) ==> DaemonStep(sys, d, DownCollect(ids)).Some?
  {
  }

  /** How many steps the running command has left at most, without those of the stops it waits for. */
  function CommandRank(cmd: Command): int {
    match cmd
    case Idle => 0
    case Checked(_) => 2
    case Allocated(_, _) => 1
    case Halting(ids) => 1 + 4 * |ids|
    case Cleaning(ids, k, phase) =>
      4 * |ids| - 3 * k - (match phase case ReAllocate => 0 case ReleaseIP => 1 case DeleteKey => 2)
    case Removing(ids, k) => |ids| - k
  }

  predicate IsCommand(e: Event) {
    !e.Thread?
  }

  lemma UpAdvances(sys: System, d: Daemon, n: Daemon, e: Event)
    requires !e.UpCheck? && UpStep(sys, d, e) == Some(n)
    ensures CommandRank(n.cmd) < CommandRank(d.cmd)
  {
  }

  lemma CleaningAdvances(sys: System, d: Daemon, n: Daemon, e: Event)
    requires d.cmd.Cleaning? && d.cmd.k < |d.cmd.ids| && DownStep(sys, d, e) == Some(n)
    ensures CommandRank(n.cmd) < CommandRank(d.cmd)
  {
  }

  lemma DownAdvances(sys: System, d: Daemon, n: Daemon, e: Event)
    requires CommandOk(d) && !e.DownCollect? && DownStep(sys, d, e) == Some(n)
    ensures CommandRank(n.cmd) < CommandRank(d.cmd)
  {
    if d.cmd.Cleaning? {
      CleaningAdvances(sys, d, n, e);
    } else if d.cmd.Removing? {
      assert d.cmd.k < |d.cmd.ids|;
    }
  }

  lemma CommandAdvances(sys: System, d: Daemon, n: Daemon, e: Event)
    requires CommandOk(d) && !e.UpCheck? && !e.DownCollect? && DaemonStep(sys, d, e) == Some(n)
    ensures CommandRank(n.cmd) + Count(IsCommand(e)) <= CommandRank(d.cmd)
  {
    if e.UpAllocate? || e.UpInsert? {
      UpAdvances(sys, d, n, e);
    } else if !e.Thread? {
      DownAdvances(sys, d, n, e);
    }
  }

  function CommandSteps(events: seq<Event>): nat {
    if events == [] then 0 else Count(IsCommand(events[0])) + CommandSteps(events[1..])
  }

  /** A command takes a bounded number of steps of its own. */
  lemma {:induction false} CommandEnds(sys: System, d: Daemon, n: Daemon, more: seq<Event>)
    requires DaemonInv(sys, d) && NoCommand(more) && DaemonRun(sys, d, more) == Some(n)
    ensures CommandSteps(more) + CommandRank(n.cmd) <= CommandRank(d.cmd)
    decreases |more|
  {
    if more != [] {
      var next := DaemonStep(sys, d, more[0]).value;
      DaemonStepKeepsInv(sys, d, next, more[0]);
      CommandAdvances(sys, d, next, more[0]);
      CommandEnds(sys, next, n, more[1..]);
    }
  }

  lemma AwaitedCanStep(sys: System, d: Daemon, i: nat)
    requires d.cmd.Halting? && i in d.cmd.ids && i < |d.insts| && !d.insts[i].s.stop.StopDone?
    ensures DaemonStep(sys, d, Thread(i, AwaitedStep(d.insts[i].s))).Some?
  {
    StopNeverStuck(d.insts[i].s, sys.asg(d.insts[i].key));
  }

  lemma HaltingNeverStuck(sys: System, d: Daemon) returns (e: Event)
    requires CommandOk(d) && d.cmd.Halting?
    ensures DaemonStep(sys, d, e).Some?
    ensures e == DownStopped ||
      (e.Thread? && e.i in d.cmd.ids && e.i < |d.insts| && e.a == AwaitedStep(d.insts[e.i].s))
  {
    if i :| i in d.cmd.ids && !d.insts[i].s.stop.StopDone? {
      AwaitedCanStep(sys, d, i);
      e := Thread(i, AwaitedStep(d.insts[i].s));
    } else {
      e := DownStopped;
    }
  }

  /** The command's own next step, when it waits for nobody. */
  function OwnStep(cmd: Command): Event {
    match cmd
    case Checked(_) => UpAllocate
    case Allocated(_, _) => UpInsert
    case Cleaning(_, _, _) => CleanNext
    case _ => RemoveNext
  }

  lemma OwnStepPossible(sys: System, d: Daemon)
    requires CommandOk(d) && !d.cmd.Idle? && !d.cmd.Halting?
    ensures DaemonStep(sys, d, OwnStep(d.cmd)).Some?
  {
  }

  /** Until a command is over it can step, or it waits for a stop, which can step, or for which a goroutine
      can leave its commit. */
  lemma CommandNeverStuck(sys: System, events: seq<Event>, d: Daemon) returns (e: Event)
    requires DaemonRun(sys, BOOT, events) == Some(d) && !d.cmd.Idle?
    ensures DaemonStep(sys, d, e).Some? && !e.UpCheck? && !e.DownCollect?
    ensures e.Thread? ==>
      d.cmd.Halting? && e.i in d.cmd.ids && e.i < |d.insts| && e.a == AwaitedStep(d.insts[e.i].s)
  {
    DaemonRunKeepsInv(sys, BOOT, d, events);
    if d.cmd.Halting? {
      e := HaltingNeverStuck(sys, d);
    } else {
      OwnStepPossible(sys, d);
      e := OwnStep(d.cmd);
    }
  }

  // ----- An up command -----

  /** The up command of the key is under way, or over with an instance of the key running. */
  ghost predicate Starting(d: Daemon, key: string) {
    match d.cmd
    case Checked(k) => k == key
    case Allocated(k, _) => k == key
    case Idle => key in d.live
    case _ => false
  }

  lemma AllocationSucceeds(sys: System, d: Daemon, key: string)
    requires TableOk(sys, d) && |sys.keys| <= RANGE_SIZE && key in sys.keys
    ensures AllocateSpec(d.table, sys.hash, key).1.Ok?
  {
    AllocateMeaning(d.table, sys.hash, key);
    ValuesSize(d.table);
    if key !in d.table.Values {
      SubsetSize(d.table.Values + {key}, sys.keys);
    }
  }

  lemma StepKeepsStarting(sys: System, d: Daemon, n: Daemon, e: Event, key: string)
    requires DaemonInv(sys, d) && |sys.keys| <= RANGE_SIZE && Starting(d, key)
    requires !e.UpCheck? && !e.DownCollect? && DaemonStep(sys, d, e) == Some(n)
    ensures Starting(n, key)
  {
    if d.cmd.Checked? {
      AllocationSucceeds(sys, d, key);
    }
  }

  lemma {:induction false} RunKeepsStarting(sys: System, d: Daemon, n: Daemon, more: seq<Event>, key: string)
    requires DaemonInv(sys, d) && |sys.keys| <= RANGE_SIZE && Starting(d, key)
    requires NoCommand(more) && DaemonRun(sys, d, more) == Some(n)
    ensures DaemonInv(sys, n) && Starting(n, key)
    decreases |more|
  {
    if more != [] {
      var next := DaemonStep(sys, d, more[0]).value;
      DaemonStepKeepsInv(sys, d, next, more[0]);
      StepKeepsStarting(sys, d, next, more[0], key);
      RunKeepsStarting(sys, next, n, more[1..], key);
    }
  }

  /** With at most 253 configured keys, when an up command is over its key has a running instance, whose stop
      has not begun. */
  lemma UpStartsKey(sys: System, events: seq<Event>, before: Daemon, key: string, begun: Daemon,
                    more: seq<Event>, d: Daemon)
    requires DaemonRun(sys, BOOT, events) == Some(before) && |sys.keys| <= RANGE_SIZE
    requires DaemonStep(sys, before, UpCheck(key)) == Some(begun)
    requires DaemonRun(sys, begun, more) == Some(d) && NoCommand(more) && d.cmd.Idle?
    ensures key in d.live && d.live[key] < |d.insts| && d.insts[d.live[key]].key == key
    ensures d.insts[d.live[key]].s.stop.NotStopped?
    ensures key in before.live ==> begun == before
  {
    DaemonRunKeepsInv(sys, BOOT, before, events);
    DaemonStepKeepsInv(sys, before, begun, UpCheck(key));
    RunKeepsStarting(sys, begun, d, more, key);
    assert LiveOk(d, d.live[key]);
  }
}
