/** `setup` allocates an address for every configured service and creates an alias for each of them. */
module Setup {
  import opened Wrappers
  import opened Names
  import opened Config
  import opened IPAllocator

  datatype SetupError = Allocation(cause: AllocError) | NoDNSNames

  datatype ServiceInfo = ServiceInfo(key: string, dnsName: string, ip: Byte)

  /** The key of the i-th service of a profile. */
  function KeyAt(cfg: Config, p: string, i: nat): string
    requires p in cfg.profiles && i < |cfg.profiles[p].services|
  {
    Join(Name(p, cfg.profiles[p].services[i].name))
  }

  /** Some keys and those of the first k services of a profile. */
  function Joined(cfg: Config, keys: set<string>, p: string, k: nat): set<string>
    requires p in cfg.profiles && k <= |cfg.profiles[p].services|
  {
    if k == 0 then keys else Joined(cfg, keys, p, k - 1) + {KeyAt(cfg, p, k - 1)}
  }

  lemma {:induction false} JoinedMeaning(cfg: Config, keys: set<string>, p: string, k: nat, key: string)
    requires p in cfg.profiles && k <= |cfg.profiles[p].services|
    ensures key in Joined(cfg, keys, p, k) <==> key in keys || exists i :: 0 <= i < k && KeyAt(cfg, p, i) == key
  {
    if k > 0 {
      JoinedMeaning(cfg, keys, p, k - 1, key);
    }
  }

  /** The configured keys. */
  ghost function KeysOf(cfg: Config, profiles: set<string>): set<string> {
    set p, i | p in profiles && p in cfg.profiles && 0 <= i < |cfg.profiles[p].services| :: KeyAt(cfg, p, i)
  }

  function Elements(keys: seq<string>): set<string> {
    set k | k in keys
  }

  /** Loading the keys in any order takes just these octets. */
  ghost predicate AnyOrderTakes(h: Hash, keys: set<string>, octets: set<Byte>) {
    forall order :: Elements(order) == keys ==> octets == LoadAll(h, order).Keys
  }

  /** What is listed is what the table holds. */
  ghost predicate Listed(services: seq<ServiceInfo>, t: Table) {
    && (forall s :: s in services ==> s.ip in t && t[s.ip] == s.key)
    && (forall o :: o in t ==> exists s :: s in services && s.ip == o)
  }

  lemma ListOne(services: seq<ServiceInfo>, t: Table, n: Table, info: ServiceInfo)
    requires Listed(services, t) && info.ip in n && n[info.ip] == info.key
    requires n == t || n == t[info.ip := info.key]
    requires info.ip in t ==> t[info.ip] == info.key
    ensures Listed(services + [info], n)
  {
  }

  /** The allocator has loaded exactly these keys, and the services list them. */
  ghost predicate Prepared(t: Table, h: Hash, keys: set<string>, services: seq<ServiceInfo>) {
    FullyLoaded(t, h, keys) && Listed(services, t)
  }

  lemma PrepareOne(t: Table, h: Hash, keys: set<string>, services: seq<ServiceInfo>, key: string, dnsName: string)
    requires Prepared(t, h, keys, services)
    ensures var (n, r) := AllocateSpec(t, h, key);
      if r.Ok? then Prepared(n, h, keys + {key}, services + [ServiceInfo(key, dnsName, r.value)])
      else TooMany(keys + {key})
  {
    AllocateMeaning(t, h, key);
    AllocateKeepsNoHoles(t, h, key);
    var (n, r) := AllocateSpec(t, h, key);
    if r.Ok? {
      ListOne(services, t, n, ServiceInfo(key, dnsName, r.value));
    } else {
      ValuesSize(t);
      forall all: set<string> | keys + {key} <= all
        ensures |all| > RANGE_SIZE
      {
        SubsetSize(keys + {key}, all);
      }
    }
  }

  /** More than 253 keys, however many others there are beside these. */
  ghost predicate TooMany(keys: set<string>) {
    forall all: set<string> :: keys <= all ==> |all| > RANGE_SIZE
  }

  /** One service gets its address, unless an earlier one did not. */
  ghost function AddService(st: (Table, Result<seq<ServiceInfo>, AllocError>), h: Hash, key: string, dnsName: string)
    : (Table, Result<seq<ServiceInfo>, AllocError>)
  {
    if st.1.Err? then st
    else match AllocateSpec(st.0, h, key)
      case (n, Err(e)) => (n, Err(e))
      case (n, Ok(ip)) => (n, Ok(st.1.value + [ServiceInfo(key, dnsName, ip)]))
  }

  /** The first k services of a profile get their addresses in their order. */
  ghost function AddServices(cfg: Config, p: string, k: nat, h: Hash, t: Table, known: seq<ServiceInfo>)
    : (Table, Result<seq<ServiceInfo>, AllocError>)
    requires p in cfg.profiles && k <= |cfg.profiles[p].services|
  {
    if k == 0 then (t, Ok(known))
    else AddService(AddServices(cfg, p, k - 1, h, t, known), h, KeyAt(cfg, p, k - 1),
      cfg.profiles[p].services[k - 1].dnsName)
  }

  /** Either every key so far is loaded and listed, or there are too many of them. */
  ghost predicate OnTrack(st: (Table, Result<seq<ServiceInfo>, AllocError>), h: Hash, keys: set<string>) {
    if st.1.Ok? then Prepared(st.0, h, keys, st.1.value) else TooMany(keys)
  }

  lemma AddServiceStaysOnTrack(st: (Table, Result<seq<ServiceInfo>, AllocError>), h: Hash, keys: set<string>,
                               key: string, dnsName: string)
    requires OnTrack(st, h, keys)
    ensures OnTrack(AddService(st, h, key, dnsName), h, keys + {key})
  {
    if st.1.Ok? {
      PrepareOne(st.0, h, keys, st.1.value, key, dnsName);
    }
  }

  lemma {:induction false} AddServicesPrepares(cfg: Config, p: string, k: nat, h: Hash, t: Table,
                                               known: seq<ServiceInfo>, keys: set<string>)
    requires p in cfg.profiles && k <= |cfg.profiles[p].services| && Prepared(t, h, keys, known)
    ensures OnTrack(AddServices(cfg, p, k, h, t, known), h, Joined(cfg, keys, p, k))
  {
    if k > 0 {
      AddServicesPrepares(cfg, p, k - 1, h, t, known, keys);
      AddServiceStaysOnTrack(AddServices(cfg, p, k - 1, h, t, known), h, Joined(cfg, keys, p, k - 1),
                             KeyAt(cfg, p, k - 1), cfg.profiles[p].services[k - 1].dnsName);
    }
  }

  lemma {:induction false} ErrorStays(cfg: Config, p: string, k: nat, m: nat, h: Hash, t: Table,
                                      known: seq<ServiceInfo>)
    requires p in cfg.profiles && k <= m <= |cfg.profiles[p].services| && AddServices(cfg, p, k, h, t, known).1.Err?
    ensures AddServices(cfg, p, m, h, t, known) == AddServices(cfg, p, k, h, t, known)
  {
    if k < m {
      ErrorStays(cfg, p, k, m - 1, h, t, known);
    }
  }

  /** The inner loop. */
  method SetupProfile(cfg: Config, alloc: Allocator, p: string, known: seq<ServiceInfo>)
    returns (r: Result<seq<ServiceInfo>, AllocError>)
    requires p in cfg.profiles && alloc.Valid()
    modifies alloc
    ensures alloc.Valid()
    ensures (alloc.owners, r) == AddServices(cfg, p, |cfg.profiles[p].services|, alloc.hash, old(alloc.owners), known)
  {
    var svcs, services, k := cfg.profiles[p].services, known, 0;
    while k < |svcs|
      invariant k <= |svcs| && alloc.Valid()
      invariant (alloc.owners, Ok(services)) == AddServices(cfg, p, k, alloc.hash, old(alloc.owners), known)
    {
      var key := Join(Name(p, svcs[k].name));
      var given := alloc.Allocate(key);
      if given.Err? {
        ErrorStays(cfg, p, k + 1, |svcs|, alloc.hash, old(alloc.owners), known);
        return Err(given.error);
      }
      services := services + [ServiceInfo(key, svcs[k].dnsName, given.value)];
      k := k + 1;
    }
    r := Ok(services);
  }

  function IPsOf(services: seq<ServiceInfo>): set<Byte> {
    set s | s in services && s.ip != 1 :: s.ip
  }

  method UniqueIPs(services: seq<ServiceInfo>) returns (ips: set<Byte>)
    ensures ips == IPsOf(services)
  {
    ips := {};
    var k := 0;
    while k < |services|
      invariant k <= |services| && ips == IPsOf(services[..k])
    {
      assert services[..k + 1] == services[..k] + [services[k]];
      if services[k].ip != 1 {
        ips := ips + {services[k].ip};
      }
      k := k + 1;
    }
    assert services[..k] == services;
  }

  // ----- Top-level domains -----

  /** What comes after the last dot of a name; None when it has no dot. */
  function TLD(name: string): Option<string> {
    if name == "" then None
    else if name[|name| - 1] == '.' then Some("")
    else match TLD(name[..|name| - 1])
      case None => None
      case Some(tld) => Some(tld + [name[|name| - 1]])
  }

  lemma {:induction false} TLDNeedsDot(name: string)
    ensures TLD(name).Some? <==> '.' in name
  {
    if name != "" {
      TLDNeedsDot(name[..|name| - 1]);
      assert name == name[..|name| - 1] + [name[|name| - 1]];
    }
  }

  /** The top-level domain is what stands after the last dot. */
  lemma {:induction false} TLDMeaning(name: string, prefix: string, tld: string)
    requires name == prefix + "." + tld && '.' !in tld
    ensures TLD(name) == Some(tld)
  {
    var k := |name| - 1;
    if tld != "" {
      var m := |tld| - 1;
      assert name[..k] == prefix + "." + tld[..m] && name[k] == tld[m];
      assert tld == tld[..m] + [tld[m]];
      TLDMeaning(name[..k], prefix, tld[..m]);
    }
  }

  function NamesIn(services: seq<ServiceInfo>): set<string> {
    set s | s in services :: s.dnsName
  }

  function TLDsOf(names: set<string>): set<string> {
    set name | name in names && TLD(name).Some? :: TLD(name).value
  }

  /** `ExtractTLDs`: each top-level domain once. */
  method ExtractTLDs(services: seq<ServiceInfo>) returns (tlds: seq<string>)
    ensures Elements(tlds) == TLDsOf(NamesIn(services)) && forall i, j :: 0 <= i < j < |tlds| ==> tlds[i] != tlds[j]
  {
    tlds := [];
    var seen: set<string>, k := {}, 0;
    while k < |services|
      invariant k <= |services| && seen == Elements(tlds) == TLDsOf(NamesIn(services[..k]))
      invariant forall i, j :: 0 <= i < j < |tlds| ==> tlds[i] != tlds[j]
    {
      var tld := TLD(services[k].dnsName);
      OneMoreName(services, k);
      if tld.Some? && tld.value !in seen {
        seen := seen + {tld.value};
        ElementsOfMore(tlds, tld.value);
        tlds := tlds + [tld.value];
      }
      k := k + 1;
    }
    assert services[..k] == services;
  }

  lemma ElementsOfMore(tlds: seq<string>, tld: string)
    ensures Elements(tlds + [tld]) == Elements(tlds) + {tld}
  {
  }

  lemma OneMoreName(services: seq<ServiceInfo>, k: nat)
    requires k < |services|
    ensures NamesIn(services[..k + 1]) == NamesIn(services[..k]) + {services[k].dnsName}
    ensures TLDsOf(NamesIn(services[..k + 1])) ==
      TLDsOf(NamesIn(services[..k])) +
      (if TLD(services[k].dnsName).Some? then {TLD(services[k].dnsName).value} else {})
  {
    assert services[..k + 1] == services[..k] + [services[k]];
    assert NamesIn(services[..k + 1]) == NamesIn(services[..k]) + {services[k].dnsName};
  }

  /** The DNS names of the first k services of a profile, and those already there. */
  function NamesJoined(cfg: Config, names: set<string>, p: string, k: nat): set<string>
    requires p in cfg.profiles && k <= |cfg.profiles[p].services|
  {
    if k == 0 then names else NamesJoined(cfg, names, p, k - 1) + {cfg.profiles[p].services[k - 1].dnsName}
  }

  lemma {:induction false} NamesJoinedMeaning(cfg: Config, names: set<string>, p: string, k: nat, name: string)
    requires p in cfg.profiles && k <= |cfg.profiles[p].services|
    ensures name in NamesJoined(cfg, names, p, k) <==> name in names || exists i :: i < k && HasDNS(cfg, p, i, name)
  {
    if k > 0 {
      NamesJoinedMeaning(cfg, names, p, k - 1, name);
      assert HasDNS(cfg, p, k - 1, cfg.profiles[p].services[k - 1].dnsName);
    }
  }

  lemma AddServiceNames(st: (Table, Result<seq<ServiceInfo>, AllocError>), h: Hash, key: string, dnsName: string)
    requires AddService(st, h, key, dnsName).1.Ok?
    ensures st.1.Ok? && NamesIn(AddService(st, h, key, dnsName).1.value) == NamesIn(st.1.value) + {dnsName}
  {
  }

  lemma {:induction false} AddServicesNames(cfg: Config, p: string, k: nat, h: Hash, t: Table, known: seq<ServiceInfo>)
    requires p in cfg.profiles && k <= |cfg.profiles[p].services| && AddServices(cfg, p, k, h, t, known).1.Ok?
    ensures NamesIn(AddServices(cfg, p, k, h, t, known).1.value) == NamesJoined(cfg, NamesIn(known), p, k)
  {
    if k > 0 {
      AddServiceNames(AddServices(cfg, p, k - 1, h, t, known), h, KeyAt(cfg, p, k - 1),
                      cfg.profiles[p].services[k - 1].dnsName);
      AddServicesNames(cfg, p, k - 1, h, t, known);
    }
  }

  /** The configured DNS names. */
  ghost predicate AreNames(cfg: Config, profiles: set<string>, names: set<string>) {
    forall name :: name in names <==> exists p, i :: p in profiles && HasDNS(cfg, p, i, name)
  }

  lemma NamesGrow(cfg: Config, done: set<string>, p: string, names: set<string>)
    requires p in cfg.profiles && AreNames(cfg, done, names)
    ensures AreNames(cfg, done + {p}, NamesJoined(cfg, names, p, |cfg.profiles[p].services|))
  {
    var all := NamesJoined(cfg, names, p, |cfg.profiles[p].services|);
    forall name
      ensures name in all <==> exists q, i :: q in done + {p} && HasDNS(cfg, q, i, name)
    {
      NamesJoinedMeaning(cfg, names, p, |cfg.profiles[p].services|, name);
      if i :| HasDNS(cfg, p, i, name) {
        assert p in done + {p};
      }
    }
  }

  // ----- The command -----

  /** Some configured DNS name has a dot. */
  ghost predicate SomeDottedName(cfg: Config) {
    exists p, i, name :: HasDNS(cfg, p, i, name) && '.' in name
  }

  /** `runSetup` up to the creation of the aliases, with the profiles in whatever order the map yields them.
      It fails exactly when more than 253 different keys are configured, or else no DNS name has a dot; else
      it creates the addresses that loading all keys takes, in any order. */
  method RunSetup(cfg: Config, hash: Hash) returns (r: Result<(set<Byte>, seq<string>), SetupError>)
    ensures (r.Err? && r.error.Allocation?) <==> |KeysOf(cfg, cfg.profiles.Keys)| > RANGE_SIZE
    ensures r.Ok? <==> |KeysOf(cfg, cfg.profiles.Keys)| <= RANGE_SIZE && SomeDottedName(cfg)
    ensures r.Ok? ==> AnyOrderTakes(hash, KeysOf(cfg, cfg.profiles.Keys), r.value.0)
    ensures r.Ok? ==> AreTLDs(cfg, r.value.1)
  {
    var loaded := LoadServices(cfg, hash);
    if loaded.Err? {
      return Err(Allocation(loaded.error));
    }
    var tlds := ExtractTLDs(loaded.value);
    DottedNames(cfg, NamesIn(loaded.value), tlds);
    if |tlds| == 0 {
      return Err(NoDNSNames);
    }
    var uniqueIPs := UniqueIPs(loaded.value);
    r := Ok((uniqueIPs, tlds));
  }

  /** The top-level domains of the configured names. */
  ghost predicate AreTLDs(cfg: Config, tlds: seq<string>) {
    forall tld :: tld in tlds <==> exists p, i, name :: HasDNS(cfg, p, i, name) && TLD(name) == Some(tld)
  }

  lemma DottedNames(cfg: Config, names: set<string>, tlds: seq<string>)
    requires AreNames(cfg, cfg.profiles.Keys, names) && Elements(tlds) == TLDsOf(names)
    ensures AreTLDs(cfg, tlds) && (tlds == [] <==> !SomeDottedName(cfg))
  {
    forall tld
      ensures tld in tlds <==> exists p, i, name :: HasDNS(cfg, p, i, name) && TLD(name) == Some(tld)
    {
      assert tld in tlds <==> tld in TLDsOf(names);
    }
    if p, i, name :| HasDNS(cfg, p, i, name) && '.' in name {
      TLDNeedsDot(name);
      assert name in names && TLD(name).value in TLDsOf(names);
    }
    if tlds != [] {
      assert tlds[0] in tlds;
      var p, i, name :| HasDNS(cfg, p, i, name) && TLD(name) == Some(tlds[0]);
      TLDNeedsDot(name);
    }
  }

  /** The allocation loop. */
  method LoadServices(cfg: Config, hash: Hash) returns (r: Result<seq<ServiceInfo>, AllocError>)
    ensures r.Ok? <==> |KeysOf(cfg, cfg.profiles.Keys)| <= RANGE_SIZE
    ensures r.Ok? ==> AnyOrderTakes(hash, KeysOf(cfg, cfg.profiles.Keys), IPsOf(r.value))
    ensures r.Ok? ==> AreNames(cfg, cfg.profiles.Keys, NamesIn(r.value))
  {
    var alloc := new Allocator(hash);
    var services: seq<ServiceInfo> := [];
    var left := cfg.profiles.Keys;
    ghost var done: set<string> := {};
    while left != {}
      invariant done == cfg.profiles.Keys - left && left <= cfg.profiles.Keys
      invariant alloc.hash == hash && fresh(alloc) && Prepared(alloc.owners, hash, KeysOf(cfg, done), services)
      invariant AreNames(cfg, done, NamesIn(services))
      decreases |left|
    {
      var p :| p in left;
      KeysGrow(cfg, done, p);
      NamesGrow(cfg, done, p, NamesIn(services));
      AddServicesPrepares(cfg, p, |cfg.profiles[p].services|, hash, alloc.owners, services, KeysOf(cfg, done));
      ghost var (table, known) := (alloc.owners, services);
      r := SetupProfile(cfg, alloc, p, services);
      if r.Err? {
        return;
      }
      AddServicesNames(cfg, p, |cfg.profiles[p].services|, hash, table, known);
      services := r.value;
      done := done + {p};
      left := left - {p};
    }
    assert done == cfg.profiles.Keys;
    AliasesAreLoaded(cfg, hash, alloc.owners, services, IPsOf(services));
    r := Ok(services);
  }

  lemma KeysGrow(cfg: Config, done: set<string>, p: string)
    requires p in cfg.profiles && done <= cfg.profiles.Keys
    ensures KeysOf(cfg, done + {p}) == Joined(cfg, KeysOf(cfg, done), p, |cfg.profiles[p].services|)
    ensures KeysOf(cfg, done + {p}) <= KeysOf(cfg, cfg.profiles.Keys)
  {
    var all := Joined(cfg, KeysOf(cfg, done), p, |cfg.profiles[p].services|);
    forall key
      ensures key in KeysOf(cfg, done + {p}) <==> key in all
    {
      JoinedMeaning(cfg, KeysOf(cfg, done), p, |cfg.profiles[p].services|, key);
      if key in KeysOf(cfg, done + {p}) {
        var q, i :| q in done + {p} && q in cfg.profiles && 0 <= i < |cfg.profiles[q].services| &&
          KeyAt(cfg, q, i) == key;
        if q != p {
          assert key in KeysOf(cfg, done);
        }
      }
    }
  }

  lemma AliasesAreLoaded(cfg: Config, hash: Hash, t: Table, services: seq<ServiceInfo>, ips: set<Byte>)
    requires Prepared(t, hash, KeysOf(cfg, cfg.profiles.Keys), services) && ips == IPsOf(services)
    ensures |KeysOf(cfg, cfg.profiles.Keys)| <= RANGE_SIZE
    ensures AnyOrderTakes(hash, KeysOf(cfg, cfg.profiles.Keys), ips)
  {
    ValuesSize(t);
    TableSize(t);
    forall o | o in t
      ensures o in ips
    {
      var s :| s in services && s.ip == o;
    }
    assert ips == t.Keys;
    forall order | Elements(order) == KeysOf(cfg, cfg.profiles.Keys)
      ensures ips == LoadAll(hash, order).Keys
    {
      OneLoadAsAnother(t, hash, order);
    }
  }

  lemma OneLoadAsAnother(t: Table, h: Hash, order: seq<string>)
    requires FullyLoaded(t, h, Elements(order))
    ensures t.Keys == LoadAll(h, order).Keys
  {
    ValuesSize(t);
    TableSize(t);
    LoadAllFull(h, order);
    ValuesSize(LoadAll(h, order));
    HistoryStaysInside(t, h, Elements(order), seq(|order|, i requires 0 <= i < |order| => Alloc(order[i])));
    SubsetSize(LoadAll(h, order).Keys, t.Keys);
  }
}
