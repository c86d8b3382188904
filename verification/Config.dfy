/** The configuration: what `validate` accepts, and the services that selectors stand for. */
module Config {
  import opened Wrappers
  import opened Names

  datatype Service = Service(name: string, dnsName: string, remoteHost: string, remotePort: int, localPort: int)

  datatype Profile = Profile(awsProfile: string, awsRegion: string, target: string, targetASG: string,
                             services: seq<Service>)

  datatype Config = Config(profiles: map<string, Profile>)

  datatype Error =
    | NoProfiles
    | AWSProfileRequired(profile: string)
    | AWSRegionRequired(profile: string)
    | TargetRequired(profile: string)
    | TargetsExclusive(profile: string)
    | NoServices(profile: string)
    | NameRequired(profile: string)
    | DuplicateService(profile: string, name: string)
    | DNSNameRequired(at: Name)
    | DuplicateDNSName(dnsName: string, existing: Name, at: Name)
    | RemoteHostRequired(at: Name)
    | RemotePortRequired(at: Name)

  // ----- The rules -----

  predicate ServiceOk(s: Service) {
    s.name != "" && s.dnsName != "" && s.remoteHost != "" && s.remotePort != 0
  }

  predicate TargetOk(p: Profile) {
    (p.target == "") != (p.targetASG == "")
  }

  predicate NamesDiffer(services: seq<Service>) {
    forall i, j :: 0 <= i < j < |services| ==> services[i].name != services[j].name
  }

  predicate ServicesOk(services: seq<Service>) {
    (forall i :: 0 <= i < |services| ==> ServiceOk(services[i])) && NamesDiffer(services)
  }

  predicate ProfileOk(p: Profile) {
    p.awsProfile != "" && p.awsRegion != "" && TargetOk(p) && p.services != [] && ServicesOk(p.services)
  }

  /** The i-th service of a profile exists and has that DNS name. */
  ghost predicate HasDNS(cfg: Config, p: string, i: int, dns: string) {
    p in cfg.profiles && 0 <= i < |cfg.profiles[p].services| && cfg.profiles[p].services[i].dnsName == dns
  }

  ghost predicate DistinctDNSNames(cfg: Config) {
    forall p, i, q, j, dns :: HasDNS(cfg, p, i, dns) && HasDNS(cfg, q, j, dns) ==> p == q && i == j
  }

  /** The rules, without any order. */
  ghost predicate Accepts(cfg: Config) {
    cfg.profiles != map[] && (forall p :: p in cfg.profiles ==> ProfileOk(cfg.profiles[p])) && DistinctDNSNames(cfg)
  }

  ghost predicate IsService(cfg: Config, n: Name, s: Service) {
    n.profile in cfg.profiles && s in cfg.profiles[n.profile].services && s.name == n.service
  }

  /** What each error says is true of the configuration. */
  ghost predicate Truthful(cfg: Config, e: Error) {
    match e
    case NoProfiles => cfg.profiles == map[]
    case AWSProfileRequired(p) => p in cfg.profiles && cfg.profiles[p].awsProfile == ""
    case AWSRegionRequired(p) => p in cfg.profiles && cfg.profiles[p].awsRegion == ""
    case TargetRequired(p) => p in cfg.profiles && cfg.profiles[p].target == cfg.profiles[p].targetASG == ""
    case TargetsExclusive(p) => p in cfg.profiles && cfg.profiles[p].target != "" && cfg.profiles[p].targetASG != ""
    case NoServices(p) => p in cfg.profiles && cfg.profiles[p].services == []
    case NameRequired(p) => exists s :: IsService(cfg, Name(p, ""), s)
    case DuplicateService(p, name) => p in cfg.profiles && !NamesDiffer(cfg.profiles[p].services)
    case DNSNameRequired(at) => exists s :: IsService(cfg, at, s) && s.dnsName == ""
    case DuplicateDNSName(dns, existing, at) =>
      && !DistinctDNSNames(cfg)
      && (exists s :: IsService(cfg, existing, s) && s.dnsName == dns)
      && (exists s :: IsService(cfg, at, s) && s.dnsName == dns)
    case RemoteHostRequired(at) => exists s :: IsService(cfg, at, s) && s.remoteHost == ""
    case RemotePortRequired(at) => exists s :: IsService(cfg, at, s) && s.remotePort == 0
  }

  lemma TruthfulErrorRejects(cfg: Config, e: Error)
    requires Truthful(cfg, e)
    ensures !Accepts(cfg)
  {
  }

  // ----- The check -----

  /** A service whose profile is done, or the first k of profile `cur`. */
  ghost predicate Visited(done: set<string>, cur: string, k: int, p: string, i: int) {
    p in done || (p == cur && i < k)
  }

  /** The visited services have distinct DNS names, and `dnsNames` holds exactly those, each with a service. */
  ghost predicate DNSOk(cfg: Config, done: set<string>, cur: string, k: int, dnsNames: map<string, Name>) {
    && (forall p, i, q, j, dns ::
          HasDNS(cfg, p, i, dns) && HasDNS(cfg, q, j, dns) && Visited(done, cur, k, p, i) && Visited(done, cur, k, q, j)
          ==> p == q && i == j)
    && (forall p, i, dns :: HasDNS(cfg, p, i, dns) && Visited(done, cur, k, p, i) ==> dns in dnsNames)
    && (forall dns :: dns in dnsNames ==> Recorded(cfg, done, cur, k, dns, dnsNames[dns]))
  }

  ghost predicate Recorded(cfg: Config, done: set<string>, cur: string, k: int, dns: string, n: Name) {
    && n.profile in cfg.profiles
    && exists i :: HasDNS(cfg, n.profile, i, dns) && Visited(done, cur, k, n.profile, i) &&
                   cfg.profiles[n.profile].services[i].name == n.service
  }

  lemma DuplicateFound(cfg: Config, done: set<string>, cur: string, k: int, dnsNames: map<string, Name>)
    requires cur in cfg.profiles && cur !in done && 0 <= k < |cfg.profiles[cur].services|
    requires DNSOk(cfg, done, cur, k, dnsNames) && cfg.profiles[cur].services[k].dnsName in dnsNames
    ensures var svc := cfg.profiles[cur].services[k];
      Truthful(cfg, DuplicateDNSName(svc.dnsName, dnsNames[svc.dnsName], Name(cur, svc.name)))
  {
    var svc := cfg.profiles[cur].services[k];
    var n := dnsNames[svc.dnsName];
    assert Recorded(cfg, done, cur, k, svc.dnsName, n);
    var i :| HasDNS(cfg, n.profile, i, svc.dnsName) && Visited(done, cur, k, n.profile, i) &&
             cfg.profiles[n.profile].services[i].name == n.service;
    assert HasDNS(cfg, cur, k, svc.dnsName);
    assert IsService(cfg, n, cfg.profiles[n.profile].services[i]) && IsService(cfg, Name(cur, svc.name), svc);
  }

  lemma DNSRecorded(cfg: Config, done: set<string>, cur: string, k: int, dnsNames: map<string, Name>)
    requires cur in cfg.profiles && cur !in done && 0 <= k < |cfg.profiles[cur].services|
    requires DNSOk(cfg, done, cur, k, dnsNames) && cfg.profiles[cur].services[k].dnsName !in dnsNames
    ensures var svc := cfg.profiles[cur].services[k];
      DNSOk(cfg, done, cur, k + 1, dnsNames[svc.dnsName := Name(cur, svc.name)])
  {
    var svc := cfg.profiles[cur].services[k];
    var after := dnsNames[svc.dnsName := Name(cur, svc.name)];
    forall dns | dns in after
      ensures Recorded(cfg, done, cur, k + 1, dns, after[dns])
    {
      assert HasDNS(cfg, cur, k, svc.dnsName);
      assert dns != svc.dnsName ==> Recorded(cfg, done, cur, k, dns, dnsNames[dns]);
    }
  }

  lemma ProfileDone(cfg: Config, done: set<string>, cur: string, dnsNames: map<string, Name>, next: string)
    requires cur in cfg.profiles && DNSOk(cfg, done, cur, |cfg.profiles[cur].services|, dnsNames)
    ensures DNSOk(cfg, done + {cur}, next, 0, dnsNames)
  {
    forall dns | dns in dnsNames
      ensures Recorded(cfg, done + {cur}, next, 0, dns, dnsNames[dns])
    {
      assert Recorded(cfg, done, cur, |cfg.profiles[cur].services|, dns, dnsNames[dns]);
    }
  }

  lemma StartProfile(cfg: Config, done: set<string>, cur: string, dnsNames: map<string, Name>)
    requires DNSOk(cfg, done, "", 0, dnsNames)
    ensures DNSOk(cfg, done, cur, 0, dnsNames)
  {
  }

  /** The done profiles keep the rules, among themselves. */
  ghost predicate Checked(cfg: Config, done: set<string>, dnsNames: map<string, Name>) {
    && done <= cfg.profiles.Keys
    && (forall p :: p in done ==> ProfileOk(cfg.profiles[p]))
    && DNSOk(cfg, done, "", 0, dnsNames)
  }

  lemma AllChecked(cfg: Config, dnsNames: map<string, Name>)
    requires cfg.profiles != map[] && Checked(cfg, cfg.profiles.Keys, dnsNames)
    ensures Accepts(cfg)
  {
  }

  /** `validate`, on the profiles in whatever order the map yields them: it accepts exactly the
      configurations that keep the rules, and its errors are true. */
  method Validate(cfg: Config) returns (r: Option<Error>)
    ensures r.None? <==> Accepts(cfg)
    ensures r.Some? ==> Truthful(cfg, r.value)
  {
    if cfg.profiles == map[] {
      return Some(NoProfiles);
    }
    var dnsNames: map<string, Name> := map[];
    var left := cfg.profiles.Keys;
    ghost var done: set<string> := {};
    while left != {}
      invariant left <= cfg.profiles.Keys && done == cfg.profiles.Keys - left && Checked(cfg, done, dnsNames)
      decreases |left|
    {
      var name :| name in left;
      r, dnsNames := ValidateProfile(cfg, name, done, dnsNames);
      if r.Some? {
        TruthfulErrorRejects(cfg, r.value);
        return;
      }
      done := done + {name};
      left := left - {name};
    }
    assert done == cfg.profiles.Keys;
    AllChecked(cfg, dnsNames);
    r := None;
  }

  /** One round of the outer loop of `validate`. */
  method ValidateProfile(cfg: Config, name: string, ghost done: set<string>, known: map<string, Name>)
    returns (r: Option<Error>, dnsNames: map<string, Name>)
    requires name in cfg.profiles && name !in done && Checked(cfg, done, known)
    ensures if r.None? then Checked(cfg, done + {name}, dnsNames) else Truthful(cfg, r.value)
  {
    var profile := cfg.profiles[name];
    dnsNames := known;
    if profile.awsProfile == "" {
      return Some(AWSProfileRequired(name)), dnsNames;
    }
    if profile.awsRegion == "" {
      return Some(AWSRegionRequired(name)), dnsNames;
    }
    if profile.target == "" && profile.targetASG == "" {
      return Some(TargetRequired(name)), dnsNames;
    } else if profile.target != "" && profile.targetASG != "" {
      return Some(TargetsExclusive(name)), dnsNames;
    }
    if |profile.services| == 0 {
      return Some(NoServices(name)), dnsNames;
    }
    StartProfile(cfg, done, name, dnsNames);
    r, dnsNames := ValidateServices(cfg, name, done, dnsNames);
    if r.None? {
      ProfileDone(cfg, done, name, dnsNames, "");
    }
  }

  /** The first k services keep the rules, and their names are these. */
  ghost predicate FirstOk(services: seq<Service>, k: nat, names: set<string>) {
    && k <= |services|
    && (forall i :: 0 <= i < k ==> ServiceOk(services[i]) && services[i].name in names)
    && (forall i, j :: 0 <= i < j < k ==> services[i].name != services[j].name)
    && (forall name :: name in names ==> exists i :: 0 <= i < k && services[i].name == name)
  }

  lemma OneMoreOk(services: seq<Service>, k: nat, names: set<string>)
    requires k < |services| && FirstOk(services, k, names)
    ensures services[k].name in names ==> !NamesDiffer(services)
    ensures services[k].name !in names && ServiceOk(services[k]) ==>
      FirstOk(services, k + 1, names + {services[k].name})
  {
  }

  /** The body of the inner loop: the first rule that the service breaks, by itself or with those before. */
  method ValidateService(at: Name, svc: Service, serviceNames: set<string>, dnsNames: map<string, Name>)
    returns (r: Option<Error>)
    requires at.service == svc.name
    ensures r.None? ==> ServiceOk(svc) && svc.name !in serviceNames && svc.dnsName !in dnsNames
    ensures r.Some? ==> match r.value
      case NameRequired(p) => p == at.profile && svc.name == ""
      case DuplicateService(p, name) => p == at.profile && name == svc.name && name in serviceNames
      case DNSNameRequired(n) => n == at && svc.dnsName == ""
      case DuplicateDNSName(dns, existing, n) =>
        n == at && dns == svc.dnsName && dns in dnsNames && dnsNames[dns] == existing
      case RemoteHostRequired(n) => n == at && svc.remoteHost == ""
      case RemotePortRequired(n) => n == at && svc.remotePort == 0
      case _ => false
  {
    if svc.name == "" {
      return Some(NameRequired(at.profile));
    }
    if svc.name in serviceNames {
      return Some(DuplicateService(at.profile, svc.name));
    }
    if svc.dnsName == "" {
      return Some(DNSNameRequired(at));
    }
    if svc.dnsName in dnsNames {
      return Some(DuplicateDNSName(svc.dnsName, dnsNames[svc.dnsName], at));
    }
    if svc.remoteHost == "" {
      return Some(RemoteHostRequired(at));
    }
    if svc.remotePort == 0 {
      return Some(RemotePortRequired(at));
    }
    r := None;
  }

  /** The inner loop of `validate`. */
  method ValidateServices(cfg: Config, name: string, ghost done: set<string>, known: map<string, Name>)
    returns (r: Option<Error>, dnsNames: map<string, Name>)
    requires name in cfg.profiles && name !in done && DNSOk(cfg, done, name, 0, known)
    ensures r.None? ==> ServicesOk(cfg.profiles[name].services)
    ensures r.None? ==> DNSOk(cfg, done, name, |cfg.profiles[name].services|, dnsNames)
    ensures r.Some? ==> Truthful(cfg, r.value)
  {
    var services := cfg.profiles[name].services;
    var serviceNames: set<string>, k := {}, 0;
    dnsNames := known;
    while k < |services|
      invariant k <= |services| && FirstOk(services, k, serviceNames) && DNSOk(cfg, done, name, k, dnsNames)
    {
      var svc := services[k];
      OneMoreOk(services, k, serviceNames);
      assert IsService(cfg, Name(name, svc.name), svc);
      r := ValidateService(Name(name, svc.name), svc, serviceNames, dnsNames);
      if r.Some? {
        if r.value.DuplicateDNSName? {
          DuplicateFound(cfg, done, name, k, dnsNames);
        }
        return;
      }
      DNSRecorded(cfg, done, name, k, dnsNames);
      serviceNames := serviceNames + {svc.name};
      dnsNames := dnsNames[svc.dnsName := Name(name, svc.name)];
      k := k + 1;
    }
    r := None;
  }
}
