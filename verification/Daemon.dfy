/**
 The engine as a whole: any number of service instances, the map of running instances, the loopback
 allocator, the resolver's records, and the up and down commands that start and stop instances.
 Commands run one at a time; every goroutine and every `stopService` of a down command interleaves
 freely with them.
*/
module Daemon {
  import opened Wrappers
  import opened IPAllocator
  import opened State
  import opened Lifecycle

  /** What stays fixed: the hash, the FQDN of each key, which keys have a target group, the configured keys. */
  datatype System = System(hash: Hash, fqdn: string -> string, asg: string -> bool, keys: set<string>)

  datatype Instance = Instance(key: string, localIP: int, s: Service)

  datatype CleanPhase = ReAllocate | ReleaseIP | DeleteKey

  /** Where the running command stands. */
  datatype Command =
    | Idle
    | Checked(key: string)                  // Start found no instance of the key
    | Allocated(key: string, octet: int)
    | Halting(ids: seq<nat>)               // Stop waits for every stopService
    | Cleaning(ids: seq<nat>, k: nat, phase: CleanPhase)
    | Removing(ids: seq<nat>, k: nat)

  datatype Daemon = Daemon(
    insts: seq<Instance>,                   // every instance ever started
    live: map<string, nat>,                 // Engine.instances
    table: Table,
    records: map<string, Option<int>>,
    cmd: Command)

  const BOOT := Daemon([], map[], map[], map[], Idle)

  datatype Event =
    | Thread(i: nat, a: Action)
    | UpCheck(upKey: string)
    | UpAllocate
    | UpInsert
    | DownCollect(downIds: seq<nat>)
    | DownStopped
    | CleanNext
    | RemoveNext

  ghost function OctetGiven(r: AllocResult): Option<int> {
    if r.Ok? then Some(r.value) else None
  }

  predicate Distinct(ids: seq<nat>) {
    forall j, k :: 0 <= j < k < |ids| ==> ids[j] != ids[k]
  }

  predicate IsLive(d: Daemon, i: nat) {
    i < |d.insts| && d.insts[i].key in d.live && d.live[d.insts[i].key] == i
  }

  /** A step of one of the threads of instance i. `stopService` runs only for a down command. */
  ghost function ThreadStep(sys: System, d: Daemon, i: nat, a: Action): Option<Daemon>
    requires i < |d.insts|
  {
    var inst := d.insts[i];
    var alloc := AllocateSpec(d.table, sys.hash, inst.key);
    if a.StopStep? && !(d.cmd.Halting? && i in d.cmd.ids) then None
    else if a.GoAllocated? && a.octet != OctetGiven(alloc.1) then None
    else
      var next := Step(inst.s, sys.asg(inst.key), a);
      if next.None? then None
      else Some(d.(
        insts := d.insts[i := inst.(s := next.value)],
        table := if a.GoAllocated? then alloc.0 else d.table,
        records := if AddsDNS(inst.s, a) then d.records[sys.fqdn(inst.key) := inst.s.ip] else d.records))
  }

  predicate AddsDNS(s: Service, a: Action) {
    s.go.Connect? && s.go.c.AddDNS? && a.GoSucceeds?
  }

  /** A step of an up command, one target after the other. */
  ghost function UpStep(sys: System, d: Daemon, e: Event): Option<Daemon> {
    match d.cmd
    case Idle =>
      if e.UpCheck? && e.upKey in sys.keys then
        Some(if e.upKey in d.live then d else d.(cmd := Checked(e.upKey)))
      else None
    case Checked(key) =>
      if !e.UpAllocate? then None
      else
        var (table, r) := AllocateSpec(d.table, sys.hash, key);
        Some(d.(table := table, cmd := if r.Ok? then Allocated(key, r.value) else Idle))
    case Allocated(key, octet) =>
      if !e.UpInsert? then None
      else Some(d.(insts := d.insts + [Instance(key, octet, INIT)], live := d.live[key := |d.insts|], cmd := Idle))
    case _ => None
  }

  /** A step of a down command. */
  ghost function DownStep(sys: System, d: Daemon, e: Event): Option<Daemon> {
    match d.cmd
    case Idle =>
      if e.DownCollect? && Distinct(e.downIds) && (forall i :: i in e.downIds ==> IsLive(d, i)) then
        Some(d.(cmd := Halting(e.downIds)))
      else None
    case Halting(ids) =>
      if e.DownStopped? && (forall i :: i in ids ==> i < |d.insts| && d.insts[i].s.stop.StopDone?) then
        Some(d.(cmd := if ids == [] then Idle else Cleaning(ids, 0, ReAllocate)))
      else None
    case Cleaning(ids, k, phase) =>
      if !e.CleanNext? || k >= |ids| || ids[k] >= |d.insts| then None
      else
        var key := d.insts[ids[k]].key;
        match phase {
          case ReAllocate =>
            Some(d.(table := AllocateSpec(d.table, sys.hash, key).0, cmd := Cleaning(ids, k, ReleaseIP)))
          case ReleaseIP => Some(d.(table := ReleaseSpec(d.table, key), cmd := Cleaning(ids, k, DeleteKey)))
          case DeleteKey =>
            Some(d.(live := d.live - {key},
                    cmd := if k + 1 < |ids| then Cleaning(ids, k + 1, ReAllocate) else Removing(ids, 0)))
        }
    case Removing(ids, k) =>
      if !e.RemoveNext? || k >= |ids| || ids[k] >= |d.insts| then None
      else
        Some(d.(records := d.records - {sys.fqdn(d.insts[ids[k]].key)},
          cmd := if k + 1 < |ids| then Removing(ids, k + 1) else Idle))
    case _ => None
  }

  ghost function DaemonStep(sys: System, d: Daemon, e: Event): Option<Daemon> {
    match e
    case Thread(i, a) => if i < |d.insts| then ThreadStep(sys, d, i, a) else None
    case UpCheck(_) => UpStep(sys, d, e)
    case UpAllocate => UpStep(sys, d, e)
    case UpInsert => UpStep(sys, d, e)
    case _ => DownStep(sys, d, e)
  }

  ghost function DaemonRun(sys: System, d: Daemon, events: seq<Event>): Option<Daemon>
    decreases |events|
  {
    if events == [] then Some(d)
    else
      var next := DaemonStep(sys, d, events[0]);
      if next.None? then None else DaemonRun(sys, next.value, events[1..])
  }
}
