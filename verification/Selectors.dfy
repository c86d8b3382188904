/** Selectors name a profile, or a service by its key; `resolveTargets` expands them. */
module Selectors {
  import opened Wrappers
  import opened Names
  import opened Config

  datatype Target = Target(profile: string, service: Service)

  datatype SelectorError = UnknownProfile(name: string) | UnknownService(selector: string)

  /** `strings.Cut` at the first slash; None for the second part when there is no slash. */
  function Cut(s: string): (r: (string, Option<string>))
    ensures '/' !in r.0
  {
    if s == "" then ("", None)
    else if s[0] == '/' then ("", Some(s[1..]))
    else
      var rest := Cut(s[1..]);
      ([s[0]] + rest.0, rest.1)
  }

  lemma {:induction false} CutIsFirst(before: string, after: string)
    requires '/' !in before
    ensures Cut(before + "/" + after) == (before, Some(after))
  {
    var s := before + "/" + after;
    if before == "" {
      assert s[1..] == after;
    } else {
      CutIsFirst(before[1..], after);
      assert s[1..] == before[1..] + "/" + after && s[0] == before[0];
      assert [s[0]] + before[1..] == before;
    }
  }

  lemma {:induction false} CutWithoutSlash(s: string)
    requires '/' !in s
    ensures Cut(s) == (s, None)
  {
    if s != "" {
      CutWithoutSlash(s[1..]);
      assert [s[0]] + s[1..] == s;
    }
  }

  function AllOf(p: string, services: seq<Service>): (r: seq<Target>)
    ensures |r| == |services| && forall i :: 0 <= i < |r| ==> r[i] == Target(p, services[i])
  {
    seq(|services|, i requires 0 <= i < |services| => Target(p, services[i]))
  }

  function FirstNamed(services: seq<Service>, name: string): Option<Service> {
    if services == [] then None
    else if services[0].name == name then Some(services[0])
    else FirstNamed(services[1..], name)
  }

  /** What one selector stands for. */
  function Expand(cfg: Config, sel: string): Result<seq<Target>, SelectorError> {
    var (p, name) := Cut(sel);
    if p !in cfg.profiles then Err(UnknownProfile(p))
    else match name
      case None => Ok(AllOf(p, cfg.profiles[p].services))
      case Some(n) =>
        match FirstNamed(cfg.profiles[p].services, n)
        case None => Err(UnknownService(sel))
        case Some(svc) => Ok([Target(p, svc)])
  }

  /** The targets of all selectors one after the other, or the first error. */
  function ExpandAll(cfg: Config, sels: seq<string>): Result<seq<Target>, SelectorError> {
    if sels == [] then Ok([])
    else
      var some := ExpandAll(cfg, sels[..|sels| - 1]);
      if some.Err? then some
      else match Expand(cfg, sels[|sels| - 1])
        case Err(e) => Err(e)
        case Ok(targets) => Ok(some.value + targets)
  }

  lemma {:induction false} FirstErrorWins(cfg: Config, sels: seq<string>, k: nat)
    requires k < |sels| && ExpandAll(cfg, sels[..k]).Ok? && Expand(cfg, sels[k]).Err?
    ensures ExpandAll(cfg, sels) == Err(Expand(cfg, sels[k]).error)
  {
    var n := |sels| - 1;
    if k < n {
      assert sels[..n][..k] == sels[..k] && sels[..n][k] == sels[k];
      FirstErrorWins(cfg, sels[..n], k);
    }
  }

  method ResolveTargets(cfg: Config, sels: seq<string>) returns (r: Result<seq<Target>, SelectorError>)
    ensures r == ExpandAll(cfg, sels)
  {
    var out, k := [], 0;
    while k < |sels|
      invariant k <= |sels| && ExpandAll(cfg, sels[..k]) == Ok(out)
    {
      var sel := sels[k];
      assert sels[..k + 1][..k] == sels[..k];
      var (p, name) := Cut(sel);
      if p !in cfg.profiles {
        FirstErrorWins(cfg, sels, k);
        return Err(UnknownProfile(p));
      }
      var services := cfg.profiles[p].services;
      if name.None? {
        out := out + AllOf(p, services);
      } else {
        var i := 0;
        while i < |services| && services[i].name != name.value
          invariant i <= |services| && FirstNamed(services, name.value) == FirstNamed(services[i..], name.value)
        {
          i := i + 1;
        }
        if i == |services| {
          FirstErrorWins(cfg, sels, k);
          return Err(UnknownService(sel));
        }
        out := out + [Target(p, services[i])];
      }
      k := k + 1;
    }
    assert sels[..k] == sels;
    r := Ok(out);
  }

  // ----- What selectors reach -----

  ghost predicate IsConfigured(cfg: Config, t: Target) {
    t.profile in cfg.profiles && t.service in cfg.profiles[t.profile].services
  }

  function NameOf(t: Target): Name {
    Name(t.profile, t.service.name)
  }

  lemma {:induction false} FirstNamedMeaning(services: seq<Service>, name: string)
    ensures var found := FirstNamed(services, name);
      if found.Some? then found.value in services && found.value.name == name
      else forall svc :: svc in services ==> svc.name != name
  {
    if services != [] {
      FirstNamedMeaning(services[1..], name);
      assert services == [services[0]] + services[1..];
    }
  }

  lemma NamedOnce(services: seq<Service>, svc: Service)
    requires NamesDiffer(services) && svc in services
    ensures FirstNamed(services, svc.name) == Some(svc)
  {
  }

  /** The key of a configured service selects that service alone exactly when its profile's name has no
      slash; the service's own name may have some. */
  lemma KeySelectsService(cfg: Config, t: Target)
    requires Accepts(cfg) && IsConfigured(cfg, t)
    ensures Expand(cfg, Join(NameOf(t))) == Ok([t]) <==> '/' !in t.profile
  {
    assert t in [t];
    if '/' !in t.profile {
      CutIsFirst(t.profile, t.service.name);
      assert ProfileOk(cfg.profiles[t.profile]);
      NamedOnce(cfg.profiles[t.profile].services, t.service);
    }
    ExpandStaysInProfile(cfg, Join(NameOf(t)));
  }

  lemma ExpandStaysInProfile(cfg: Config, sel: string)
    ensures Expand(cfg, sel).Ok? ==> forall t :: t in Expand(cfg, sel).value ==> t.profile == Cut(sel).0
  {
  }

  /** A profile's name selects all its services, in their order, exactly when it has no slash. */
  lemma ProfileSelectsItsServices(cfg: Config, p: string)
    requires Accepts(cfg) && p in cfg.profiles
    ensures Expand(cfg, p) == Ok(AllOf(p, cfg.profiles[p].services)) <==> '/' !in p
  {
    if '/' !in p {
      CutWithoutSlash(p);
    } else if Expand(cfg, p).Ok? {
      assert ProfileOk(cfg.profiles[p]);
      assert Expand(cfg, p).value[0].profile == Cut(p).0 != p;
    }
  }

  /** Expanding succeeds exactly when every selector does, and then yields nothing else than what they do. */
  lemma {:induction false} ExpandAllMeaning(cfg: Config, sels: seq<string>)
    ensures ExpandAll(cfg, sels).Ok? <==> forall sel :: sel in sels ==> Expand(cfg, sel).Ok?
    ensures ExpandAll(cfg, sels).Ok? ==> forall t ::
      t in ExpandAll(cfg, sels).value <==>
        exists sel :: sel in sels && Expand(cfg, sel).Ok? && t in Expand(cfg, sel).value
  {
    if sels != [] {
      var k := |sels| - 1;
      ExpandAllMeaning(cfg, sels[..k]);
      assert forall sel :: sel in sels <==> sel in sels[..k] || sel == sels[k] by {
        assert sels == sels[..k] + [sels[k]];
      }
      if ExpandAll(cfg, sels).Ok? {
        forall t
          ensures t in ExpandAll(cfg, sels).value <==>
            exists sel :: sel in sels && Expand(cfg, sel).Ok? && t in Expand(cfg, sel).value
        {
          assert t in ExpandAll(cfg, sels).value <==>
            t in ExpandAll(cfg, sels[..k]).value || t in Expand(cfg, sels[k]).value;
        }
      }
    }
  }

  /** Only configured services are reached. */
  lemma OnlyConfigured(cfg: Config, sels: seq<string>)
    ensures ExpandAll(cfg, sels).Ok? ==> forall t :: t in ExpandAll(cfg, sels).value ==> IsConfigured(cfg, t)
  {
    ExpandAllMeaning(cfg, sels);
    if ExpandAll(cfg, sels).Ok? {
      forall t | t in ExpandAll(cfg, sels).value
        ensures IsConfigured(cfg, t)
      {
        var sel :| sel in sels && Expand(cfg, sel).Ok? && t in Expand(cfg, sel).value;
        var (p, name) := Cut(sel);
        if name.Some? {
          FirstNamedMeaning(cfg.profiles[p].services, name.value);
        }
      }
    }
  }
}
