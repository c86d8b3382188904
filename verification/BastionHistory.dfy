/** What a service's target is, told by what happened alone: the runs of the cache's protocol without its state. */
module BastionHistory {
  import opened Wrappers
  import opened Bastion

  // ----- What a key's cached instance is -----

  /** The instance that the last lookup of the key found, unless the key was invalidated since, or none was found. */
  function Latest(profiles: seq<Profile>, acts: seq<Action>, key: Key): Option<string> {
    if acts == [] then None
    else
      var (before, a) := (acts[..|acts| - 1], acts[|acts| - 1]);
      if a.i >= |profiles| || KeyFor(profiles[a.i]) != key then Latest(profiles, before, key)
      else if a.Invalidate? then None
      else if a.Answered? && Lookup(a.answer).Ok? then Some(Lookup(a.answer).value)
      else Latest(profiles, before, key)
  }

  ghost predicate CacheIs(s: System, key: Key, latest: Option<string>) {
    if key in s.cache then latest == Some(s.cache[key].id) else latest == None
  }

  lemma StepKeepsCache(profiles: seq<Profile>, acts: seq<Action>, s: System, a: Action, n: System, key: Key)
    requires |profiles| == |s.services| && Step(profiles, s, a) == Some(n)
    requires CacheIs(s, key, Latest(profiles, acts, key))
    ensures CacheIs(n, key, Latest(profiles, acts + [a], key))
  {
    assert (acts + [a])[..|acts|] == acts;
  }

  lemma {:induction false} CacheIsLatest(profiles: seq<Profile>, acts: seq<Action>, s: System, key: Key)
    requires Run(profiles, acts) == Some(s)
    ensures CacheIs(s, key, Latest(profiles, acts, key))
  {
    if acts != [] {
      var before := acts[..|acts| - 1];
      CacheIsLatest(profiles, before, Run(profiles, before).value, key);
      assert acts == before + [acts[|acts| - 1]];
      StepKeepsCache(profiles, before, Run(profiles, before).value, acts[|acts| - 1], s, key);
    }
  }

  // ----- What a resolve leads to -----

  /** The service runs with this instance, from a lookup. */
  predicate RunsOn(svc: Service, id: string) {
    svc.pc.Running? && svc.pc.target.LookedUp? && svc.pc.target.entry.id == id
  }

  /** A resolve of a service, in any run. A pinned profile runs with its target at once, whoever holds the
      mutex; one with neither a target nor a group stays where it is; a group's service waits for the mutex,
      whose holder can be answered, and then runs with the latest instance found for its own account profile,
      region and group, or looks one up if there is none. */
  lemma ResolveByHistory(profiles: seq<Profile>, acts: seq<Action>, s: System, i: nat)
    requires Run(profiles, acts) == Some(s) && i < |profiles| && s.services[i].pc.Ready?
    ensures var (p, next) := (profiles[i], Step(profiles, s, Resolve(i)));
      var key := Key(p.awsProfile, p.awsRegion, p.targetASG);
      if p.target != "" then
        next.Some? && next.value.services[i].pc == Running(PinnedTarget(p.target))
      else if p.targetASG == "" then
        next.Some? && next.value.services == s.services
      else if s.mutex.Some? then
        next.None? && forall answer :: Step(profiles, s, Answered(s.mutex.value, answer)).Some?
      else
        next.Some? &&
        var latest := Latest(profiles, acts, key);
        if latest.Some? then RunsOn(next.value.services[i], latest.value)
        else next.value.services[i].pc == Looking(|acts|) && next.value.mutex == Some(i)
  {
    Reachable(profiles, acts, s);
    TimeIsLength(profiles, acts, s);
    CacheIsLatest(profiles, acts, s, KeyFor(profiles[i]));
    assert ServiceOk(profiles, s, i) && LookupOk(profiles, s, i);
  }

  /** The holder of the mutex, whatever it is answered, lets go of it: it runs with what the lookup found, or
      is ready to resolve again; until then nobody else moves it. */
  lemma AnswerByHistory(profiles: seq<Profile>, acts: seq<Action>, s: System, a: Action, n: System, i: nat)
    requires Run(profiles, acts) == Some(s) && i < |profiles| && s.services[i].pc.Looking?
    requires Step(profiles, s, a) == Some(n)
    ensures |n.services| == |profiles| &&
      if a.Answered? && a.i == i then
        n.mutex.None? &&
        if Lookup(a.answer).Ok? then
          && RunsOn(n.services[i], Lookup(a.answer).value)
          && n.services[i].pc.target.entry.begun == s.services[i].pc.begun
        else n.services[i].pc.Ready?
      else n.services[i] == s.services[i] && n.mutex == Some(i)
  {
    Reachable(profiles, acts, s);
    assert ServiceOk(profiles, s, i) && ServiceOk(profiles, s, a.i);
  }

  /** A profile that validation accepts names one of the two, so its services never stay where they are. */
  lemma ConfiguredResolves(profiles: seq<Profile>, acts: seq<Action>, s: System, i: nat)
    requires Run(profiles, acts) == Some(s) && i < |profiles| && s.services[i].pc.Ready?
    requires (profiles[i].target == "") != (profiles[i].targetASG == "")
    ensures var next := Step(profiles, s, Resolve(i));
      if next.None? then s.mutex.Some? && s.mutex.value != i
      else
        |next.value.services| == |profiles| &&
        (next.value.services[i].pc.Running? || next.value.services[i].pc.Looking?)
  {
    ResolveByHistory(profiles, acts, s, i);
    Reachable(profiles, acts, s);
    assert ServiceOk(profiles, s, i);
  }

  /** The service's turn: which of its actions are possible is decided by where it stands, and by the mutex. */
  predicate MayAct(p: Profile, s: System, svc: Service, a: Action) {
    match a
    case Resolve(_) => svc.pc.Ready? && (p.target != "" || p.targetASG == "" || s.mutex.None?)
    case Answered(_, _) => svc.pc.Looking?
    case SessionEnds(_) => svc.pc.Running?
    case TargetLost(_) => svc.pc.Running? && p.targetASG != ""
    case Invalidate(_) => svc.pc.Lost? && s.mutex.None?
    case Cancelled(_) => svc.pc.Lost?
  }

  /** After a session's end the service is ready again, if it lost its target once it has invalidated it. */
  lemma EndsByHistory(profiles: seq<Profile>, acts: seq<Action>, s: System, a: Action)
    requires Run(profiles, acts) == Some(s) && a.i < |profiles|
    ensures Step(profiles, s, a).Some? <==> MayAct(profiles[a.i], s, s.services[a.i], a)
    ensures Step(profiles, s, a).Some? ==>
      var n := Step(profiles, s, a).value;
      |n.services| == |profiles| &&
      var pc := n.services[a.i].pc;
      && (a.SessionEnds? || a.Invalidate? || a.Cancelled? ==> pc.Ready?)
      && (a.TargetLost? ==> pc == Lost(|acts|))
      && (a.Invalidate? ==> KeyFor(profiles[a.i]) !in n.cache)
  {
    TimeIsLength(profiles, acts, s);
  }

  // ----- Which lookup a target comes from -----

  /** Each step takes one moment. */
  lemma {:induction false} TimeIsLength(profiles: seq<Profile>, acts: seq<Action>, s: System)
    requires Run(profiles, acts) == Some(s)
    ensures s.now == |acts|
  {
    if acts != [] {
      TimeIsLength(profiles, acts[..|acts| - 1], Run(profiles, acts[..|acts| - 1]).value);
    }
  }

  /** A service with this key asked at the entry's moment, and got its answer. */
  ghost predicate Asked(profiles: seq<Profile>, acts: seq<Action>, e: Entry, key: Key) {
    exists m: nat ::
      e.begun < m < |acts| && acts[m].Answered? && acts[m].answer == e.answer && acts[e.begun] == Resolve(acts[m].i) &&
      acts[m].i < |profiles| && KeyFor(profiles[acts[m].i]) == key
  }

  ghost predicate CacheAsked(profiles: seq<Profile>, acts: seq<Action>, s: System, key: Key) {
    key in s.cache ==> Asked(profiles, acts, s.cache[key], key)
  }

  ghost predicate ServiceAsked(profiles: seq<Profile>, acts: seq<Action>, s: System, i: nat)
    requires i < |profiles| == |s.services|
  {
    var pc := s.services[i].pc;
    && (pc.Looking? ==> pc.begun < |acts| && acts[pc.begun] == Resolve(i))
    && (pc.Running? && pc.target.LookedUp? ==> Asked(profiles, acts, pc.target.entry, KeyFor(profiles[i])))
  }

  lemma AskedStays(profiles: seq<Profile>, acts: seq<Action>, a: Action, e: Entry, key: Key)
    requires Asked(profiles, acts, e, key)
    ensures Asked(profiles, acts + [a], e, key)
  {
    var m: nat :| e.begun < m < |acts| && acts[m].Answered? && acts[m].answer == e.answer
      && acts[e.begun] == Resolve(acts[m].i) && acts[m].i < |profiles| && KeyFor(profiles[acts[m].i]) == key;
    assert (acts + [a])[m] == acts[m] && (acts + [a])[e.begun] == acts[e.begun];
  }

  /** The answered service's own entry. */
  lemma AnswerAsked(profiles: seq<Profile>, acts: seq<Action>, s: System, a: Action, n: System)
    requires |profiles| == |s.services| && s.now == |acts| && Step(profiles, s, a) == Some(n)
    requires a.Answered? && Lookup(a.answer).Ok? && ServiceAsked(profiles, acts, s, a.i)
    ensures Asked(profiles, acts + [a], n.services[a.i].pc.target.entry, KeyFor(profiles[a.i]))
    ensures n.cache == s.cache[KeyFor(profiles[a.i]) := n.services[a.i].pc.target.entry]
  {
    var e := n.services[a.i].pc.target.entry;
    assert (acts + [a])[|acts|] == a && (acts + [a])[e.begun] == acts[e.begun];
  }

  lemma StepKeepsAsked(profiles: seq<Profile>, acts: seq<Action>, s: System, a: Action, n: System, i: nat, key: Key)
    requires |profiles| == |s.services| && s.now == |acts| && Step(profiles, s, a) == Some(n) && i < |profiles|
    requires ServiceAsked(profiles, acts, s, i) && ServiceAsked(profiles, acts, s, a.i)
    requires CacheAsked(profiles, acts, s, key) && CacheAsked(profiles, acts, s, KeyFor(profiles[i]))
    ensures ServiceAsked(profiles, acts + [a], n, i) && CacheAsked(profiles, acts + [a], n, key)
  {
    if a.Answered? && Lookup(a.answer).Ok? {
      AnswerAsked(profiles, acts, s, a, n);
    }
    var pc := s.services[i].pc;
    if pc.Running? && pc.target.LookedUp? {
      AskedStays(profiles, acts, a, pc.target.entry, KeyFor(profiles[i]));
    }
    if key in s.cache {
      AskedStays(profiles, acts, a, s.cache[key], key);
    }
    if KeyFor(profiles[i]) in s.cache {
      AskedStays(profiles, acts, a, s.cache[KeyFor(profiles[i])], KeyFor(profiles[i]));
    }
  }

  lemma {:induction false} RunAsked(profiles: seq<Profile>, acts: seq<Action>, s: System, i: nat, key: Key)
    requires Run(profiles, acts) == Some(s) && i < |profiles|
    ensures ServiceAsked(profiles, acts, s, i) && CacheAsked(profiles, acts, s, key)
    decreases |acts|
  {
    if acts != [] {
      var (before, a) := (acts[..|acts| - 1], acts[|acts| - 1]);
      var was := Run(profiles, before).value;
      TimeIsLength(profiles, before, was);
      RunAsked(profiles, before, was, i, key);
      RunAsked(profiles, before, was, a.i, KeyFor(profiles[i]));
      assert acts == before + [a];
      StepKeepsAsked(profiles, before, was, a, s, i, key);
    }
  }

  // ----- Losses -----

  /** The service lost its target at k and invalidated it at v. */
  predicate LostAndInvalidated(acts: seq<Action>, i: nat, k: nat, v: nat) {
    k < v < |acts| && acts[k] == TargetLost(i) && acts[v] == Invalidate(i)
  }

  /** The recorded moment is no earlier than any such loss; a loss not yet followed up is the last one. */
  ghost predicate LossesOk(acts: seq<Action>, svc: Service, i: nat) {
    && (forall k: nat, v: nat :: LostAndInvalidated(acts, i, k, v) ==> svc.rotated.Some? && k <= svc.rotated.value)
    && (svc.pc.Lost? ==> forall k :: 0 <= k < |acts| && acts[k] == TargetLost(i) ==> k <= svc.pc.at)
  }

  lemma StepKeepsLosses(profiles: seq<Profile>, acts: seq<Action>, s: System, a: Action, n: System, i: nat)
    requires Inv(profiles, s) && s.now == |acts| && Step(profiles, s, a) == Some(n) && i < |profiles|
    requires LossesOk(acts, s.services[i], i)
    ensures LossesOk(acts + [a], n.services[i], i)
  {
    var more := acts + [a];
    forall k: nat, v: nat | LostAndInvalidated(more, i, k, v)
      ensures n.services[i].rotated.Some? && k <= n.services[i].rotated.value
    {
      assert acts[k] == TargetLost(i);
      if v < |acts| {
        assert LostAndInvalidated(acts, i, k, v);
      }
    }
  }

  lemma {:induction false} RunLosses(profiles: seq<Profile>, acts: seq<Action>, s: System, i: nat)
    requires Run(profiles, acts) == Some(s) && i < |profiles|
    ensures LossesOk(acts, s.services[i], i)
  {
    if acts != [] {
      var (before, a) := (acts[..|acts| - 1], acts[|acts| - 1]);
      var was := Run(profiles, before).value;
      Reachable(profiles, before, was);
      TimeIsLength(profiles, before, was);
      RunLosses(profiles, before, was, i);
      assert acts == before + [a];
      StepKeepsLosses(profiles, before, was, a, s, i);
    }
  }

  /** In terms of what happened alone: a service that runs with a looked-up target has it from an answer given
      to a service with the same account profile, region and group, in which that instance was in service and
      online, and which was asked for after every loss of a target that this service has followed by an
      invalidation. */
  lemma TargetIsFreshByHistory(profiles: seq<Profile>, acts: seq<Action>, s: System, i: nat, id: string)
    returns (asked: nat, answered: nat)
    requires Run(profiles, acts) == Some(s) && i < |profiles| && RunsOn(s.services[i], id)
    ensures asked < answered < |acts| && acts[answered].Answered? && acts[asked] == Resolve(acts[answered].i)
    ensures acts[answered].i < |profiles| && KeyFor(profiles[acts[answered].i]) == KeyFor(profiles[i])
    ensures Usable(acts[answered].answer, id)
    ensures forall k: nat, v: nat :: LostAndInvalidated(acts, i, k, v) ==> k < asked
  {
    var e := s.services[i].pc.target.entry;
    TargetIsFresh(profiles, acts, s, i);
    RunLosses(profiles, acts, s, i);
    RunAsked(profiles, acts, s, i, KeyFor(profiles[i]));
    var m: nat :| e.begun < m < |acts| && acts[m].Answered? && acts[m].answer == e.answer
      && acts[e.begun] == Resolve(acts[m].i) && acts[m].i < |profiles|
      && KeyFor(profiles[acts[m].i]) == KeyFor(profiles[i]);
    asked, answered := e.begun, m;
  }
}
