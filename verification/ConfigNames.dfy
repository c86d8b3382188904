/** When the names of a configuration are apart for the engine, the resolver and the selectors. */
module ConfigNames {
  import opened Wrappers
  import opened Names
  import opened Config
  import opened Setup
  import opened Selectors
  import Resolver
  import Daemon
  import DaemonAddress

  /** The daemon's keys and FQDNs are those of the configuration. */
  ghost predicate Configured(cfg: Config, sys: Daemon.System) {
    && sys.keys == KeysOf(cfg, cfg.profiles.Keys)
    && forall p, i, dns :: HasDNS(cfg, p, i, dns) ==> sys.fqdn(KeyAt(cfg, p, i)) == Resolver.Fqdn(dns)
  }

  ghost predicate UnambiguousKeys(cfg: Config) {
    forall p, i, q, j, d, e :: HasDNS(cfg, p, i, d) && HasDNS(cfg, q, j, e) && KeyAt(cfg, p, i) == KeyAt(cfg, q, j) ==>
      p == q && i == j
  }

  /** No DNS name is that of another service with the final dot. */
  ghost predicate NoDottedTwins(cfg: Config) {
    forall p, i, q, j, d, e :: HasDNS(cfg, p, i, d) && HasDNS(cfg, q, j, e) ==> !Resolver.DottedTwin(d, e)
  }

  /** In an accepted configuration whose keys are unambiguous, different keys have different FQDNs exactly
      when no DNS name is another's dotted twin. */
  lemma AcceptedNamesAreDistinct(cfg: Config, sys: Daemon.System)
    requires Accepts(cfg) && Configured(cfg, sys) && UnambiguousKeys(cfg)
    ensures DaemonAddress.DistinctNames(sys) <==> NoDottedTwins(cfg)
  {
    if DaemonAddress.DistinctNames(sys) {
      forall p, i, q, j, d, e | HasDNS(cfg, p, i, d) && HasDNS(cfg, q, j, e)
        ensures !Resolver.DottedTwin(d, e)
      {
        Resolver.FqdnCollides(d, e);
        assert KeyAt(cfg, p, i) in sys.keys && KeyAt(cfg, q, j) in sys.keys;
      }
    }
    if NoDottedTwins(cfg) {
      forall k, l | k in sys.keys && l in sys.keys && sys.fqdn(k) == sys.fqdn(l)
        ensures k == l
      {
        var p, i := ServiceOfKey(cfg, k);
        var q, j := ServiceOfKey(cfg, l);
        var (d, e) := (cfg.profiles[p].services[i].dnsName, cfg.profiles[q].services[j].dnsName);
        assert HasDNS(cfg, p, i, d) && HasDNS(cfg, q, j, e);
        Resolver.FqdnCollides(d, e);
      }
    }
  }

  lemma ServiceOfKey(cfg: Config, key: string) returns (p: string, i: nat)
    requires key in KeysOf(cfg, cfg.profiles.Keys)
    ensures p in cfg.profiles && i < |cfg.profiles[p].services| && KeyAt(cfg, p, i) == key
  {
    p, i :| p in cfg.profiles.Keys && p in cfg.profiles && 0 <= i < |cfg.profiles[p].services| &&
      KeyAt(cfg, p, i) == key;
  }

  /** Keys are unambiguous when no profile's name has a slash, as selectors need it anyway. */
  lemma SlashFreeProfilesSuffice(cfg: Config)
    requires Accepts(cfg) && forall p :: p in cfg.profiles ==> '/' !in p
    ensures UnambiguousKeys(cfg)
  {
    forall p, i, q, j, d, e | HasDNS(cfg, p, i, d) && HasDNS(cfg, q, j, e) && KeyAt(cfg, p, i) == KeyAt(cfg, q, j)
      ensures p == q && i == j
    {
      KeysAreUnambiguous(Name(p, cfg.profiles[p].services[i].name), Name(q, cfg.profiles[q].services[j].name));
      assert ProfileOk(cfg.profiles[p]);
    }
  }

  // ----- Accepted configurations whose names are not apart -----

  function OneProfile(a: Service, b: Service): Config {
    Config(map["p" := Profile("aws", "eu", "i-1", "", [a, b])])
  }

  /** `validate` accepts two services that the resolver cannot tell apart. */
  lemma AcceptedTwins()
    ensures var (a, b) := (Service("a", "x.dev", "db", 1, 1), Service("b", "x.dev.", "db", 1, 1));
      && Accepts(OneProfile(a, b)) && !NoDottedTwins(OneProfile(a, b))
      && Resolver.Fqdn(a.dnsName) == Resolver.Fqdn(b.dnsName)
  {
    var cfg := OneProfile(Service("a", "x.dev", "db", 1, 1), Service("b", "x.dev.", "db", 1, 1));
    assert "p" in cfg.profiles;
    assert "x.dev" + "." == "x.dev." && "x.dev."[..5] == "x.dev" && Resolver.Backslashes("x.dev") == 0;
    assert Resolver.DottedTwin("x.dev", "x.dev.");
    assert HasDNS(cfg, "p", 0, "x.dev") && HasDNS(cfg, "p", 1, "x.dev.");
  }

  /** Two profiles of one service each. */
  function TwoProfiles(p: string, a: Service, q: string, b: Service): Config
    requires p != q
  {
    Config(map[p := Profile("aws", "eu", "i-1", "", [a]), q := Profile("aws", "eu", "i-2", "", [b])])
  }

  lemma TwoProfilesAccepted(p: string, a: Service, q: string, b: Service)
    requires p != q && ServiceOk(a) && ServiceOk(b) && a.dnsName != b.dnsName
    ensures Accepts(TwoProfiles(p, a, q, b))
  {
    var cfg := TwoProfiles(p, a, q, b);
    assert p in cfg.profiles;
  }

  /** `validate` accepts a profile with a slash in its name, whose service has the key of another service and
      is selected neither by that key nor with its profile. */
  lemma AcceptedSharedKey()
    ensures var (a, b) := (Service("b/c", "x.dev", "db", 1, 1), Service("c", "y.dev", "db", 1, 1));
      var cfg := TwoProfiles("a", a, "a/b", b);
      && Accepts(cfg) && KeyAt(cfg, "a", 0) == KeyAt(cfg, "a/b", 0) && !UnambiguousKeys(cfg)
      && Expand(cfg, KeyAt(cfg, "a/b", 0)) == Ok([Target("a", a)])
      && Expand(cfg, "a/b") == Err(UnknownService("a/b"))
  {
    var (a, b) := (Service("b/c", "x.dev", "db", 1, 1), Service("c", "y.dev", "db", 1, 1));
    var cfg := TwoProfiles("a", a, "a/b", b);
    TwoProfilesAccepted("a", a, "a/b", b);
    assert "a" + "/" + "b/c" == "a/b/c" == "a/b" + "/" + "c";
    assert HasDNS(cfg, "a", 0, "x.dev") && HasDNS(cfg, "a/b", 0, "y.dev");
    CutIsFirst("a", "b/c");
    CutIsFirst("a", "b");
    assert "a" + "/" + "b" == "a/b";
    assert FirstNamed([a], "b/c") == Some(a);
    assert [a][1..] == [] && FirstNamed([a], "b").None?;
  }
}
