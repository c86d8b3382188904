/** The tray's picture of the services: status snapshots merged with a stream of events. */
module Tray {
  import opened Wrappers
  import opened Names

  const DISCONNECTED := "Disconnected"
  const STARTING := "Starting"
  const CONNECTED := "Connected"
  const FAILED := "Failed"

  datatype Entry = Entry(state: string, err: string, dnsName: string, localPort: int, localAddr: string)

  datatype Status = Status(name: Name, state: string, err: string, dnsName: string, localPort: int, localAddr: string)

  datatype ProfileInfo = ProfileInfo(credsExpired: bool, awsProfile: string)

  /** An envelope without its payload is `Malformed`. */
  datatype Event =
    | StateChange(name: Name, dnsName: string, to: string, err: string)
    | CredsExpired(profile: string, awsProfile: string)
    | ProfileDone
    | Malformed

  datatype TrayState = TrayState(services: map<Name, Entry>, profiles: map<string, ProfileInfo>, eventSeq: nat)

  function ProfileOf(profiles: map<string, ProfileInfo>, name: string): ProfileInfo {
    if name in profiles then profiles[name] else ProfileInfo(false, "")
  }

  function EntryOf(services: map<Name, Entry>, name: Name, dnsName: string): Entry {
    if name in services then services[name] else Entry("", "", dnsName, 0, "")
  }

  function Moved(e: Entry, to: string, err: string): Entry {
    e.(state := to, err := err, localAddr := if to == DISCONNECTED then "" else e.localAddr)
  }

  /** `apply`: only state changes and expired credentials are counted. */
  function Apply(t: TrayState, ev: Event): TrayState {
    match ev
    case StateChange(name, dnsName, to, err) =>
      var info := ProfileOf(t.profiles, name.profile);
      TrayState(t.services[name := Moved(EntryOf(t.services, name, dnsName), to, err)],
                t.profiles[name.profile := info.(credsExpired := info.credsExpired && to == FAILED)],
                t.eventSeq + 1)
    case CredsExpired(profile, awsProfile) =>
      t.(profiles := t.profiles[profile := ProfileInfo(true, awsProfile)], eventSeq := t.eventSeq + 1)
    case ProfileDone => t
    case Malformed => t
  }

  /** Whether the event makes the tray ask for a snapshot. */
  predicate AsksForSeed(t: TrayState, ev: Event) {
    ev.ProfileDone? ||
    (ev.StateChange? && (ev.to == STARTING ||
                         (ev.to == CONNECTED && EntryOf(t.services, ev.name, ev.dnsName).localAddr == "")))
  }

  /** One status of a snapshot; `safe` when no event was counted since the snapshot was asked for. */
  function MergeEntry(services: map<Name, Entry>, st: Status, safe: bool): Entry {
    var e := EntryOf(services, st.name, "").(dnsName := st.dnsName, localPort := st.localPort,
      localAddr := st.localAddr);
    if safe || st.name !in services then e.(state := st.state, err := st.err) else e
  }

  function MergeAll(services: map<Name, Entry>, sts: seq<Status>, safe: bool): map<Name, Entry> {
    if sts == [] then services
    else
      var (some, st) := (MergeAll(services, sts[..|sts| - 1], safe), sts[|sts| - 1]);
      some[st.name := MergeEntry(some, st, safe)]
  }

  function Seen(sts: seq<Status>): set<string> {
    set st | st in sts :: Join(st.name)
  }

  function Absent(e: Entry): Entry {
    e.(state := DISCONNECTED, err := "", localAddr := "")
  }

  function Sweep(services: map<Name, Entry>, seen: set<string>): map<Name, Entry> {
    map name | name in services :: if Join(name) in seen then services[name] else Absent(services[name])
  }

  function MergeProfiles(profiles: map<string, ProfileInfo>, sts: seq<Status>): map<string, ProfileInfo> {
    if sts == [] then profiles
    else
      var (some, st) := (MergeProfiles(profiles, sts[..|sts| - 1]), sts[|sts| - 1]);
      some[st.name.profile := ProfileOf(some, st.name.profile)]
  }

  /** The second half of `seedStatuses`. */
  function Merge(t: TrayState, baseline: nat, sts: seq<Status>): TrayState {
    var safe := t.eventSeq == baseline;
    var services := MergeAll(t.services, sts, safe);
    t.(services := if safe then Sweep(services, Seen(sts)) else services, profiles := MergeProfiles(t.profiles, sts))
  }

  // ----- One merge -----

  predicate Mentions(sts: seq<Status>, name: Name) {
    exists k :: 0 <= k < |sts| && sts[k].name == name
  }

  /** The last status of the snapshot for a service. */
  function StatusOf(sts: seq<Status>, name: Name): (st: Status)
    requires Mentions(sts, name)
    ensures st in sts && st.name == name
  {
    var k := |sts| - 1;
    if sts[k].name == name then sts[k]
    else
      assert Mentions(sts[..k], name) by {
        var j :| 0 <= j < |sts| && sts[j].name == name;
        assert sts[..k][j].name == name;
      }
      StatusOf(sts[..k], name)
  }

  predicate Matches(e: Entry, st: Status) {
    e == Entry(st.state, st.err, st.dnsName, st.localPort, st.localAddr)
  }

  lemma {:induction false} SafeMergeAll(services: map<Name, Entry>, sts: seq<Status>, name: Name)
    ensures Mentions(sts, name) ==>
      name in MergeAll(services, sts, true) && Matches(MergeAll(services, sts, true)[name], StatusOf(sts, name))
    ensures !Mentions(sts, name) ==>
      (name in MergeAll(services, sts, true) <==> name in services) &&
      (name in services ==> MergeAll(services, sts, true)[name] == services[name])
  {
    if sts != [] {
      var k := |sts| - 1;
      SafeMergeAll(services, sts[..k], name);
      if Mentions(sts[..k], name) {
        var j :| 0 <= j < k && sts[..k][j].name == name;
        assert sts[j].name == name;
      }
      if Mentions(sts, name) && sts[k].name != name {
        var j :| 0 <= j < |sts| && sts[j].name == name;
        assert sts[..k][j].name == name;
      }
    }
  }

  lemma SeenMeans(sts: seq<Status>, key: string)
    ensures key in Seen(sts) <==> exists k :: 0 <= k < |sts| && Join(sts[k].name) == key
  {
  }

  /** The snapshot lists some other service under the same key. */
  ghost predicate Shadowed(sts: seq<Status>, name: Name) {
    exists k :: 0 <= k < |sts| && (Straddles(sts[k].name, name) || Straddles(name, sts[k].name))
  }

  /** When no event was counted since the snapshot was asked for, the services it lists come to match it, and
      each known service it does not list comes to be Disconnected, exactly when none it lists shadows it. */
  lemma SafeMerge(t: TrayState, sts: seq<Status>, name: Name)
    ensures var n := Merge(t, t.eventSeq, sts);
      && (name in n.services <==> name in t.services || Mentions(sts, name))
      && (Mentions(sts, name) ==> Matches(n.services[name], StatusOf(sts, name)))
      && (name in t.services && !Mentions(sts, name) && !Shadowed(sts, name) ==>
        n.services[name] == t.services[name].(state := DISCONNECTED, err := "", localAddr := ""))
      && (name in t.services && !Mentions(sts, name) && Shadowed(sts, name) ==> n.services[name] == t.services[name])
  {
    SafeMergeAll(t.services, sts, name);
    SeenMeans(sts, Join(name));
    if Join(name) in Seen(sts) {
      var k :| 0 <= k < |sts| && Join(sts[k].name) == Join(name);
      SameKey(sts[k].name, name);
      assert Mentions(sts, name) || Shadowed(sts, name);
    }
    if Mentions(sts, name) {
      var k :| 0 <= k < |sts| && sts[k].name == name;
      assert Join(sts[k].name) == Join(name);
    }
    if Shadowed(sts, name) {
      var k :| 0 <= k < |sts| && (Straddles(sts[k].name, name) || Straddles(name, sts[k].name));
      SameKey(sts[k].name, name);
    }
  }

  /** A service that is gone keeps its state when a listed one has the same key. */
  lemma ShadowedServiceStays()
    ensures var (gone, listed) := (Name("a", "b/c"), Name("a/b", "c"));
      var was := Entry(CONNECTED, "", "x.dev", 443, "127.0.0.2");
      var t := TrayState(map[gone := was], map[], 0);
      var n := Merge(t, 0, [Status(listed, STARTING, "", "y.dev", 80, "")]);
      gone in n.services && n.services[gone] == was
  {
    var (gone, listed) := (Name("a", "b/c"), Name("a/b", "c"));
    var was := Entry(CONNECTED, "", "x.dev", 443, "127.0.0.2");
    var sts := [Status(listed, STARTING, "", "y.dev", 80, "")];
    assert Straddles(gone, listed) by {
      assert listed.profile == gone.profile + "/" + "b" && gone.service == "b" + "/" + listed.service;
    }
    assert !Mentions(sts, gone) && Straddles(gone, sts[0].name);
    SafeMerge(TrayState(map[gone := was], map[], 0), sts, gone);
  }

  // ----- Any interleaving of snapshots and events -----

  /** `baselines` holds, for each snapshot asked for, the count of events at that moment. */
  datatype System = System(tray: TrayState, baselines: map<nat, nat>)

  datatype Action = Occurs(ev: Event) | SeedBegins(id: nat) | SeedMerges(id: nat, sts: seq<Status>)

  /** One step, or None when it cannot happen: a snapshot is merged only after it was asked for. */
  function Step(s: System, a: Action): Option<System> {
    match a
    case Occurs(ev) => Some(s.(tray := Apply(s.tray, ev)))
    case SeedBegins(id) => if id in s.baselines then None else Some(s.(baselines := s.baselines[id := s.tray.eventSeq]))
    case SeedMerges(id, sts) =>
      if id in s.baselines then Some(s.(tray := Merge(s.tray, s.baselines[id], sts))) else None
  }

  function Run(acts: seq<Action>): Option<System> {
    if acts == [] then Some(System(TrayState(map[], map[], 0), map[]))
    else match Run(acts[..|acts| - 1]) case None => None case Some(s) => Step(s, acts[|acts| - 1])
  }

  /** Nothing from position `at` on speaks for the service with more authority than an event there: no event
      for it, and no snapshot that was asked for later. */
  ghost predicate NothingNewer(acts: seq<Action>, at: nat, name: Name) {
    forall k :: at < k < |acts| ==> match acts[k]
      case Occurs(ev) => ev.StateChange? ==> ev.name != name
      case SeedBegins(_) => true
      case SeedMerges(id, _) => BegunBefore(acts, at, id)
  }

  ghost predicate BegunBefore(acts: seq<Action>, at: nat, id: nat) {
    exists j :: 0 <= j < at && j < |acts| && acts[j] == SeedBegins(id)
  }

  lemma {:induction false} UnsafeMergeKeeps(services: map<Name, Entry>, sts: seq<Status>, name: Name)
    requires name in services
    ensures name in MergeAll(services, sts, false)
    ensures MergeAll(services, sts, false)[name].state == services[name].state
    ensures MergeAll(services, sts, false)[name].err == services[name].err
  {
    if sts != [] {
      UnsafeMergeKeeps(services, sts[..|sts| - 1], name);
    }
  }

  lemma {:induction false} BaselinesArePast(acts: seq<Action>, s: System)
    requires Run(acts) == Some(s)
    ensures forall id :: id in s.baselines ==> s.baselines[id] <= s.tray.eventSeq
  {
    if acts != [] {
      BaselinesArePast(acts[..|acts| - 1], Run(acts[..|acts| - 1]).value);
    }
  }

  lemma {:induction false} BegunSeedsHaveBaselines(acts: seq<Action>, s: System, id: nat)
    requires Run(acts) == Some(s) && SeedBegins(id) in acts
    ensures id in s.baselines
  {
    var (k, before) := (|acts| - 1, Run(acts[..|acts| - 1]).value);
    if acts[k] != SeedBegins(id) {
      assert acts == acts[..k] + [acts[k]];
      BegunSeedsHaveBaselines(acts[..k], before, id);
    }
  }

  /** A snapshot asked for before a counted event has an older baseline ever after. */
  lemma {:induction false} OlderBaseline(acts: seq<Action>, s: System, at: nat, id: nat)
    requires Run(acts) == Some(s) && at < |acts| && acts[at].Occurs? && acts[at].ev.StateChange?
    requires BegunBefore(acts, at, id)
    ensures id in s.baselines && s.baselines[id] < s.tray.eventSeq
  {
    var (k, before) := (|acts| - 1, Run(acts[..|acts| - 1]).value);
    var j :| 0 <= j < at && acts[j] == SeedBegins(id);
    assert acts[..k][j] == acts[j];
    if at == k {
      BegunSeedsHaveBaselines(acts[..k], before, id);
      BaselinesArePast(acts[..k], before);
    } else {
      assert BegunBefore(acts[..k], at, id);
      OlderBaseline(acts[..k], before, at, id);
    }
  }

  /** In every interleaving, a service shows the state and error of an event until something newer speaks for
      it: the merge of a snapshot asked for before the event never overwrites them. */
  lemma {:induction false} EventsPrevail(acts: seq<Action>, s: System, at: nat, name: Name)
    requires Run(acts) == Some(s) && at < |acts| && NothingNewer(acts, at, name)
    requires acts[at].Occurs? && acts[at].ev.StateChange? && acts[at].ev.name == name
    ensures name in s.tray.services
    ensures s.tray.services[name].state == acts[at].ev.to && s.tray.services[name].err == acts[at].ev.err
  {
    var (k, before) := (|acts| - 1, Run(acts[..|acts| - 1]).value);
    if at < k {
      EarlierNothingNewer(acts, at, name);
      EventsPrevail(acts[..k], before, at, name);
      if acts[k].SeedMerges? {
        var j :| 0 <= j < at && acts[j] == SeedBegins(acts[k].id);
        assert acts[..k][j] == acts[j];
        OlderBaseline(acts[..k], before, at, acts[k].id);
        UnsafeMergeKeeps(before.tray.services, acts[k].sts, name);
      }
    }
  }

  lemma EarlierNothingNewer(acts: seq<Action>, at: nat, name: Name)
    requires at < |acts| - 1 && NothingNewer(acts, at, name)
    ensures NothingNewer(acts[..|acts| - 1], at, name)
  {
  }

  predicate IsCounted(a: Action) {
    a.Occurs? && (a.ev.StateChange? || a.ev.CredsExpired?)
  }

  predicate NoneCounted(acts: seq<Action>, from: nat) {
    forall k :: from <= k < |acts| ==> !IsCounted(acts[k])
  }

  /** The baseline of a snapshot is still the count of events exactly when none was counted since. */
  lemma {:induction false} SameBaseline(acts: seq<Action>, s: System, at: nat, id: nat)
    requires Run(acts) == Some(s) && at < |acts| && acts[at] == SeedBegins(id)
    ensures id in s.baselines && (s.baselines[id] == s.tray.eventSeq <==> NoneCounted(acts, at))
  {
    var (k, before) := (|acts| - 1, Run(acts[..|acts| - 1]).value);
    if at < k {
      assert acts[..k][at] == acts[at];
      SameBaseline(acts[..k], before, at, id);
      BaselinesArePast(acts[..k], before);
      assert NoneCounted(acts, at) <==> NoneCounted(acts[..k], at) && !IsCounted(acts[k]) by {
        assert forall i :: at <= i < k ==> acts[..k][i] == acts[i];
      }
    }
  }

  /** In every interleaving, a snapshot since which no event was counted prevails: the services it lists
      match it, and the others are Disconnected unless a listed one shadows them. */
  lemma {:induction false} SnapshotPrevails(acts: seq<Action>, s: System, at: nat, id: nat, sts: seq<Status>,
                                            name: Name)
    requires Run(acts + [SeedMerges(id, sts)]) == Some(s) && at < |acts| && acts[at] == SeedBegins(id) &&
      NoneCounted(acts, at)
    ensures name in s.tray.services ==>
      if Mentions(sts, name) then Matches(s.tray.services[name], StatusOf(sts, name))
      else !Shadowed(sts, name) ==>
        s.tray.services[name].state == DISCONNECTED && s.tray.services[name].err == "" &&
        s.tray.services[name].localAddr == ""
    ensures Mentions(sts, name) ==> name in s.tray.services
  {
    assert (acts + [SeedMerges(id, sts)])[..|acts|] == acts;
    var before := Run(acts).value;
    SameBaseline(acts, before, at, id);
    SafeMerge(before.tray, sts, name);
  }

  // ----- Expired credentials, addresses, and when a snapshot is asked for -----

  predicate Expires(a: Action, profile: string) {
    a.Occurs? && a.ev.CredsExpired? && a.ev.profile == profile
  }

  /** A service of the profile came to a state other than Failed. */
  predicate Recovers(a: Action, profile: string) {
    a.Occurs? && a.ev.StateChange? && a.ev.name.profile == profile && a.ev.to != FAILED
  }

  /** The profile's credentials expired at k, and nothing of it has recovered since. */
  ghost predicate ExpiredSince(acts: seq<Action>, profile: string, k: nat) {
    k < |acts| && Expires(acts[k], profile) && forall j :: k < j < |acts| ==> !Recovers(acts[j], profile)
  }

  lemma {:induction false} MergeKeepsProfiles(profiles: map<string, ProfileInfo>, sts: seq<Status>, profile: string)
    ensures ProfileOf(MergeProfiles(profiles, sts), profile) == ProfileOf(profiles, profile)
  {
    if sts != [] {
      MergeKeepsProfiles(profiles, sts[..|sts| - 1], profile);
    }
  }

  lemma StepMovesProfile(s: System, a: Action, n: System, profile: string)
    requires Step(s, a) == Some(n)
    ensures var (was, now) := (ProfileOf(s.tray.profiles, profile), ProfileOf(n.tray.profiles, profile));
      if Expires(a, profile) then now == ProfileInfo(true, a.ev.awsProfile)
      else now == ProfileInfo(was.credsExpired && !Recovers(a, profile), was.awsProfile)
  {
    if a.SeedMerges? {
      MergeKeepsProfiles(s.tray.profiles, a.sts, profile);
    }
  }

  lemma ExpiredSinceGrows(acts: seq<Action>, a: Action, profile: string)
    ensures (exists k: nat :: ExpiredSince(acts + [a], profile, k)) <==>
      Expires(a, profile) || (!Recovers(a, profile) && exists k: nat :: ExpiredSince(acts, profile, k))
  {
    var more := acts + [a];
    if k: nat :| ExpiredSince(more, profile, k) {
      if k < |acts| {
        assert more[|acts|] == a;
        assert forall j :: k < j < |acts| ==> acts[j] == more[j];
        assert ExpiredSince(acts, profile, k);
      }
    }
    if Expires(a, profile) {
      assert ExpiredSince(more, profile, |acts|);
    } else if !Recovers(a, profile) {
      if k: nat :| ExpiredSince(acts, profile, k) {
        assert ExpiredSince(more, profile, k);
      }
    }
  }

  /** In every interleaving with snapshots, a profile shows expired credentials if and only if an event said so
      after which none of its services came to a state other than Failed. */
  lemma {:induction false} CredentialsShown(acts: seq<Action>, s: System, profile: string)
    requires Run(acts) == Some(s)
    ensures ProfileOf(s.tray.profiles, profile).credsExpired <==> exists k: nat :: ExpiredSince(acts, profile, k)
  {
    if acts != [] {
      var (before, a) := (acts[..|acts| - 1], acts[|acts| - 1]);
      CredentialsShown(before, Run(before).value, profile);
      StepMovesProfile(Run(before).value, a, s, profile);
      assert acts == before + [a];
      ExpiredSinceGrows(before, a, profile);
    }
  }

  /** And it shows the account profile of the last such event. */
  lemma {:induction false} AccountShown(acts: seq<Action>, s: System, profile: string, k: nat)
    requires Run(acts) == Some(s) && k < |acts| && Expires(acts[k], profile)
    requires forall j :: k < j < |acts| ==> !Expires(acts[j], profile)
    ensures ProfileOf(s.tray.profiles, profile).awsProfile == acts[k].ev.awsProfile
  {
    var last := |acts| - 1;
    StepMovesProfile(Run(acts[..last]).value, acts[last], s, profile);
    if k < last {
      assert acts[..last][k] == acts[k];
      AccountShown(acts[..last], Run(acts[..last]).value, profile, k);
    }
  }

  /** Without such an event it shows none. */
  lemma {:induction false} NoAccountShown(acts: seq<Action>, s: System, profile: string)
    requires Run(acts) == Some(s) && forall j :: 0 <= j < |acts| ==> !Expires(acts[j], profile)
    ensures ProfileOf(s.tray.profiles, profile).awsProfile == ""
  {
    if acts != [] {
      var (before, a) := (acts[..|acts| - 1], acts[|acts| - 1]);
      StepMovesProfile(Run(before).value, a, s, profile);
      NoAccountShown(before, Run(before).value, profile);
    }
  }

  /** A snapshot gave the service this address at k, and neither an event nor a snapshot has replaced it. */
  ghost predicate AddressSince(acts: seq<Action>, name: Name, k: nat, addr: string) {
    && k < |acts| && acts[k].SeedMerges? && Mentions(acts[k].sts, name) && StatusOf(acts[k].sts, name).localAddr == addr
    && forall j :: k < j < |acts| ==>
      !Disconnects(acts[j], name) && !(acts[j].SeedMerges? && Mentions(acts[j].sts, name))
  }

  predicate Disconnects(a: Action, name: Name) {
    a.Occurs? && a.ev.StateChange? && a.ev.name == name && a.ev.to == DISCONNECTED
  }

  lemma {:induction false} MergeSetsAddress(services: map<Name, Entry>, sts: seq<Status>, safe: bool, name: Name)
    ensures Mentions(sts, name) ==>
      name in MergeAll(services, sts, safe) &&
      MergeAll(services, sts, safe)[name].localAddr == StatusOf(sts, name).localAddr
    ensures !Mentions(sts, name) ==>
      (name in MergeAll(services, sts, safe) <==> name in services) &&
      (name in services ==> MergeAll(services, sts, safe)[name] == services[name])
  {
    if sts != [] {
      var k := |sts| - 1;
      MergeSetsAddress(services, sts[..k], safe, name);
      MentionsGrows(sts, name);
    }
  }

  lemma MentionsGrows(sts: seq<Status>, name: Name)
    requires sts != []
    ensures Mentions(sts, name) <==> Mentions(sts[..|sts| - 1], name) || sts[|sts| - 1].name == name
  {
    var k := |sts| - 1;
    if Mentions(sts[..k], name) {
      var j :| 0 <= j < k && sts[..k][j].name == name;
      assert sts[j].name == name;
    }
    if Mentions(sts, name) && sts[k].name != name {
      var j :| 0 <= j < |sts| && sts[j].name == name;
      assert sts[..k][j].name == name;
    }
  }

  /** A step gives the service the address of the snapshot it merges, takes it away, or leaves it. */
  lemma StepMovesAddress(s: System, a: Action, n: System, name: Name)
    requires Step(s, a) == Some(n)
    ensures a.SeedMerges? && Mentions(a.sts, name) ==>
      name in n.tray.services && n.tray.services[name].localAddr == StatusOf(a.sts, name).localAddr
    ensures !(a.SeedMerges? && Mentions(a.sts, name)) && name in n.tray.services &&
      n.tray.services[name].localAddr != ""
      ==> !Disconnects(a, name) && name in s.tray.services
          && n.tray.services[name].localAddr == s.tray.services[name].localAddr
    ensures !a.SeedMerges? && !Disconnects(a, name) && name in s.tray.services ==>
      name in n.tray.services && n.tray.services[name].localAddr == s.tray.services[name].localAddr
  {
    if a.SeedMerges? {
      MergeSetsAddress(s.tray.services, a.sts, s.tray.eventSeq == s.baselines[a.id], name);
      if Mentions(a.sts, name) {
        assert Join(name) in Seen(a.sts);
      }
    }
  }

  /** An address that the tray shows is from the last snapshot that listed the service, and no event has
      disconnected the service since. */
  lemma {:induction false} AddressShown(acts: seq<Action>, s: System, name: Name) returns (k: nat)
    requires Run(acts) == Some(s) && name in s.tray.services && s.tray.services[name].localAddr != ""
    ensures AddressSince(acts, name, k, s.tray.services[name].localAddr)
  {
    k := |acts| - 1;
    var (before, a) := (acts[..k], acts[k]);
    StepMovesAddress(Run(before).value, a, s, name);
    if !(a.SeedMerges? && Mentions(a.sts, name)) {
      var last := k;
      k := AddressShown(before, Run(before).value, name);
      assert acts[k] == before[k];
      assert forall j :: k < j < last ==> before[j] == acts[j];
    }
  }

  /** The address of a snapshot is shown at least until the next merge or the next such event. */
  lemma {:induction false} AddressStays(acts: seq<Action>, s: System, name: Name, k: nat)
    requires Run(acts) == Some(s) && k < |acts| && acts[k].SeedMerges? && Mentions(acts[k].sts, name)
    requires forall j :: k < j < |acts| ==> !Disconnects(acts[j], name) && !acts[j].SeedMerges?
    ensures name in s.tray.services && s.tray.services[name].localAddr == StatusOf(acts[k].sts, name).localAddr
  {
    var last := |acts| - 1;
    StepMovesAddress(Run(acts[..last]).value, acts[last], s, name);
    if k < last {
      assert acts[..last][k] == acts[k];
      AddressStays(acts[..last], Run(acts[..last]).value, name, k);
    }
  }

  lemma {:induction false} MergeListsProfiles(profiles: map<string, ProfileInfo>, sts: seq<Status>)
    ensures profiles.Keys <= MergeProfiles(profiles, sts).Keys
    ensures forall st :: st in sts ==> st.name.profile in MergeProfiles(profiles, sts)
  {
    if sts != [] {
      MergeListsProfiles(profiles, sts[..|sts| - 1]);
      assert sts == sts[..|sts| - 1] + [sts[|sts| - 1]];
    }
  }

  lemma MergeKeepsHome(t: TrayState, baseline: nat, sts: seq<Status>, name: Name)
    requires name in t.services ==> name.profile in t.profiles
    ensures var n := Merge(t, baseline, sts); name in n.services ==> name.profile in n.profiles
  {
    MergeSetsAddress(t.services, sts, t.eventSeq == baseline, name);
    MergeListsProfiles(t.profiles, sts);
  }

  /** Every service that the tray knows is in a profile that it lists. */
  lemma {:induction false} ServicesHaveProfiles(acts: seq<Action>, s: System, name: Name)
    requires Run(acts) == Some(s) && name in s.tray.services
    ensures name.profile in s.tray.profiles
  {
    var (before, a) := (Run(acts[..|acts| - 1]).value, acts[|acts| - 1]);
    if name in before.tray.services {
      ServicesHaveProfiles(acts[..|acts| - 1], before, name);
    }
    if a.SeedMerges? {
      MergeKeepsHome(before.tray, before.baselines[a.id], a.sts, name);
    }
  }

  /** An event may occur, a snapshot may be asked for, and one that was asked for may be merged, at any moment. */
  lemma AnythingMayHappen(acts: seq<Action>, s: System, ev: Event, id: nat, sts: seq<Status>)
    requires Run(acts) == Some(s)
    ensures Step(s, Occurs(ev)).Some?
    ensures if SeedBegins(id) in acts then Step(s, SeedMerges(id, sts)).Some? else Step(s, SeedBegins(id)).Some?
  {
    if SeedBegins(id) in acts {
      BegunSeedsHaveBaselines(acts, s, id);
    } else {
      OnlyBegunHaveBaselines(acts, s, id);
    }
  }

  lemma {:induction false} OnlyBegunHaveBaselines(acts: seq<Action>, s: System, id: nat)
    requires Run(acts) == Some(s) && SeedBegins(id) !in acts
    ensures id !in s.baselines
  {
    if acts != [] {
      OnlyBegunHaveBaselines(acts[..|acts| - 1], Run(acts[..|acts| - 1]).value, id);
    }
  }

  /** A state change makes the tray ask for a snapshot exactly when it leaves the service Starting, or Connected
      without an address. */
  lemma AsksWhenAddressIsMissing(t: TrayState, name: Name, dnsName: string, to: string, err: string)
    ensures var (ev, now) := (StateChange(name, dnsName, to, err), Apply(t, StateChange(name, dnsName, to, err)));
      name in now.services &&
      var e := now.services[name];
      && (AsksForSeed(t, ev) <==> e.state == STARTING || (e.state == CONNECTED && e.localAddr == ""))
      && e.dnsName == (if name in t.services then t.services[name].dnsName else dnsName)
      && now.services - {name} == t.services - {name}
  {
    assert STARTING[0] == 'S' && CONNECTED[0] == 'C' && DISCONNECTED[0] == 'D';
  }

  // ----- The object -----

  class TrayModel {
    var services: map<Name, Entry>
    var profiles: map<string, ProfileInfo>
    var eventSeq: nat

    constructor ()
      ensures View() == TrayState(map[], map[], 0)
    {
      services, profiles, eventSeq := map[], map[], 0;
    }

    function View(): TrayState
      reads this
    {
      TrayState(services, profiles, eventSeq)
    }

    method ProfileEntry(name: string) returns (info: ProfileInfo)
      modifies this`profiles
      ensures info == ProfileOf(old(profiles), name) && profiles == old(profiles)[name := info]
    {
      if name !in profiles {
        profiles := profiles[name := ProfileInfo(false, "")];
      }
      info := profiles[name];
    }

    method ApplyEvent(ev: Event) returns (reseed: bool)
      modifies this
      ensures View() == Apply(old(View()), ev) && reseed == AsksForSeed(old(View()), ev)
    {
      reseed := false;
      match ev
      case StateChange(name, dnsName, to, err) =>
        var info := ProfileEntry(name.profile);
        if name !in services {
          services := services[name := Entry("", "", dnsName, 0, "")];
        }
        var svc := services[name].(state := to, err := err);
        var hadNoAddress := svc.localAddr == "";
        if to != FAILED {
          profiles := profiles[name.profile := info.(credsExpired := false)];
        }
        assert profiles == old(profiles)[name.profile := info.(credsExpired := info.credsExpired && to == FAILED)];
        if to == DISCONNECTED {
          svc := svc.(localAddr := "");
        }
        services := services[name := svc];
        assert services == old(services)[name := Moved(EntryOf(old(services), name, dnsName), to, err)];
        reseed := to == STARTING || (to == CONNECTED && hadNoAddress);
        eventSeq := eventSeq + 1;
      case CredsExpired(profile, awsProfile) =>
        var info := ProfileEntry(profile);
        profiles := profiles[profile := info.(credsExpired := true, awsProfile := awsProfile)];
        eventSeq := eventSeq + 1;
      case ProfileDone => reseed := true;
      case Malformed =>
    }

    method MergeSeed(baseline: nat, sts: seq<Status>)
      modifies this
      ensures View() == Merge(old(View()), baseline, sts)
    {
      var seen: set<string> := {};
      var (safe, k) := (eventSeq == baseline, 0);
      while k < |sts|
        invariant k <= |sts| && eventSeq == old(eventSeq)
        invariant seen == Seen(sts[..k])
        invariant services == MergeAll(old(services), sts[..k], safe) &&
          profiles == MergeProfiles(old(profiles), sts[..k])
      {
        assert sts[..k + 1][..k] == sts[..k] && sts[..k + 1] == sts[..k] + [sts[k]];
        seen := seen + {Join(sts[k].name)};
        MergeStatus(sts[k], safe);
        k := k + 1;
      }
      assert sts[..k] == sts;
      if safe {
        SweepAbsent(seen);
      }
    }

    /** The body of the merging loop. */
    method MergeStatus(st: Status, safe: bool)
      modifies this`services, this`profiles
      ensures services == old(services)[st.name := MergeEntry(old(services), st, safe)]
      ensures profiles == old(profiles)[st.name.profile := ProfileOf(old(profiles), st.name.profile)]
    {
      var info := ProfileEntry(st.name.profile);
      var existed := st.name in services;
      var svc := if existed then services[st.name] else Entry("", "", "", 0, "");
      svc := svc.(dnsName := st.dnsName, localPort := st.localPort, localAddr := st.localAddr);
      if safe || !existed {
        svc := svc.(state := st.state, err := st.err);
      }
      services := services[st.name := svc];
    }

    method SweepAbsent(seen: set<string>)
      modifies this`services
      ensures services == Sweep(old(services), seen)
    {
      var left := services.Keys;
      while left != {}
        invariant left <= services.Keys == old(services).Keys
        invariant forall name :: name in services ==>
          services[name] == if name in left || Join(name) in seen then old(services)[name]
            else Absent(old(services)[name])
        decreases |left|
      {
        var name :| name in left;
        if Join(name) !in seen {
          services := services[name := Absent(services[name])];
        }
        left := left - {name};
      }
      assert services == Sweep(old(services), seen);
    }
  }
}
