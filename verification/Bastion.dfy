/** Finding the instance to connect through: the lookup, its cache, and the services that share it. */
module Bastion {
  import opened Wrappers

  datatype Profile = Profile(awsProfile: string, awsRegion: string, target: string, targetASG: string)

  /** A cache key is a structure, so that no two keys collide by a delimiter. */
  datatype Key = Key(awsProfile: string, awsRegion: string, targetASG: string)

  function KeyFor(p: Profile): Key {
    Key(p.awsProfile, p.awsRegion, p.targetASG)
  }

  datatype Instance = Instance(inService: bool, id: Option<string>)

  datatype Info = Info(online: bool, id: Option<string>)

  /** What AWS answers to one lookup: no clients at all, or the groups of that name and the pages of SSM. */
  datatype Answer = NoClients(error: string)
    | Answer(groups: Result<seq<seq<Instance>>, string>, pages: seq<Result<seq<Info>, string>>)

  datatype Error =
    | NoTarget
    | ClientError(cause: string)
    | DescribeError(cause: string)
    | GroupNotFound
    | NoneInService
    | PageError(cause: string)
    | NoneOnline

  // ----- The lookup -----

  function InServiceIds(group: seq<Instance>): set<string> {
    set inst | inst in group && inst.inService && inst.id.Some? :: inst.id.value
  }

  predicate IsHit(info: Info, ids: set<string>) {
    info.online && info.id.Some? && info.id.value in ids
  }

  function FirstHit(list: seq<Info>, ids: set<string>): Option<string> {
    if list == [] then None else if IsHit(list[0], ids) then list[0].id else FirstHit(list[1..], ids)
  }

  function ScanPages(pages: seq<Result<seq<Info>, string>>, ids: set<string>): Result<string, Error> {
    if pages == [] then Err(NoneOnline)
    else match pages[0]
      case Err(cause) => Err(PageError(cause))
      case Ok(list) =>
        match FirstHit(list, ids)
        case Some(id) => Ok(id)
        case None => ScanPages(pages[1..], ids)
  }

  function Lookup(answer: Answer): Result<string, Error> {
    if answer.NoClients? then Err(ClientError(answer.error))
    else match answer.groups
      case Err(cause) => Err(DescribeError(cause))
      case Ok(groups) =>
        if groups == [] then Err(GroupNotFound)
        else if InServiceIds(groups[0]) == {} then Err(NoneInService)
        else ScanPages(answer.pages, InServiceIds(groups[0]))
  }

  /** `lookupOnlineInstance`, on the answers that AWS gives in its course. */
  method LookupOnlineInstance(groups: Result<seq<seq<Instance>>, string>, pages: seq<Result<seq<Info>, string>>)
    returns (r: Result<string, Error>)
    ensures r == Lookup(Answer(groups, pages))
  {
    if groups.Err? {
      return Err(DescribeError(groups.error));
    }
    if groups.value == [] {
      return Err(GroupNotFound);
    }
    var group, inService, i := groups.value[0], {}, 0;
    while i < |group|
      invariant i <= |group| && inService == InServiceIds(group[..i])
    {
      assert group[..i + 1] == group[..i] + [group[i]];
      if group[i].inService && group[i].id.Some? {
        inService := inService + {group[i].id.value};
      }
      i := i + 1;
    }
    assert group[..i] == group;
    if inService == {} {
      return Err(NoneInService);
    }
    var k := 0;
    while k < |pages|
      invariant k <= |pages| && ScanPages(pages, inService) == ScanPages(pages[k..], inService)
    {
      if pages[k].Err? {
        return Err(PageError(pages[k].error));
      }
      var list, j := pages[k].value, 0;
      while j < |list|
        invariant j <= |list| && FirstHit(list, inService) == FirstHit(list[j..], inService)
      {
        if list[j].online && list[j].id.Some? && list[j].id.value in inService {
          return Ok(list[j].id.value);
        }
        j := j + 1;
      }
      k := k + 1;
    }
    return Err(NoneOnline);
  }

  /** Page k is reached without a failure, and it lists the instance as online. */
  ghost predicate OnlineOn(pages: seq<Result<seq<Info>, string>>, k: nat, id: string) {
    && k < |pages|
    && (forall i :: 0 <= i <= k ==> pages[i].Ok?)
    && Info(true, Some(id)) in pages[k].value
  }

  ghost predicate InServiceIn(answer: Answer, id: string) {
    answer.Answer? && answer.groups.Ok? && answer.groups.value != [] && id in InServiceIds(answer.groups.value[0])
  }

  /** The instance is in service and online in one and the same answer. */
  ghost predicate Usable(answer: Answer, id: string) {
    InServiceIn(answer, id) && exists k :: OnlineOn(answer.pages, k, id)
  }

  lemma {:induction false} FirstHitMeaning(list: seq<Info>, ids: set<string>)
    ensures FirstHit(list, ids).Some? ==> FirstHit(list, ids).value in ids && Info(true, FirstHit(list, ids)) in list
    ensures FirstHit(list, ids).None? ==> forall id :: id in ids ==> Info(true, Some(id)) !in list
  {
    if list != [] && !IsHit(list[0], ids) {
      FirstHitMeaning(list[1..], ids);
      assert list == [list[0]] + list[1..];
    }
  }

  lemma {:induction false} ScanMeaning(pages: seq<Result<seq<Info>, string>>, ids: set<string>)
    ensures ScanPages(pages, ids).Ok? ==>
      ScanPages(pages, ids).value in ids && exists k :: OnlineOn(pages, k, ScanPages(pages, ids).value)
    ensures ScanPages(pages, ids).Err? ==> forall id, k :: id in ids ==> !OnlineOn(pages, k, id)
    ensures ScanPages(pages, ids) == Err(NoneOnline) ==> forall i :: 0 <= i < |pages| ==> pages[i].Ok?
    ensures ScanPages(pages, ids) != Err(NoTarget)
  {
    if pages != [] && pages[0].Ok? {
      var (list, rest) := (pages[0].value, pages[1..]);
      FirstHitMeaning(list, ids);
      ScanMeaning(rest, ids);
      if FirstHit(list, ids).Some? {
        assert OnlineOn(pages, 0, FirstHit(list, ids).value);
      } else {
        if ScanPages(rest, ids).Ok? {
          var k: nat :| OnlineOn(rest, k, ScanPages(rest, ids).value);
          assert OnlineOn(pages, k + 1, ScanPages(rest, ids).value);
        }
        forall id, k: nat | id in ids && OnlineOn(pages, k, id)
          ensures k > 0 && OnlineOn(rest, k - 1, id)
        {
        }
      }
    }
  }

  /** The lookup finds an instance exactly when its answer shows a usable one, and then it is usable. */
  lemma LookupMeaning(answer: Answer)
    ensures Lookup(answer).Ok? ==> Usable(answer, Lookup(answer).value)
    ensures Lookup(answer).Ok? <==> exists id :: Usable(answer, id)
  {
    if answer.Answer? && answer.groups.Ok? && answer.groups.value != [] {
      ScanMeaning(answer.pages, InServiceIds(answer.groups.value[0]));
    }
  }

  /** The first k pages came without a failure, and none of them lists such an instance as online. */
  ghost predicate NothingUpTo(pages: seq<Result<seq<Info>, string>>, ids: set<string>, k: nat) {
    k <= |pages| &&
    forall i, id :: 0 <= i < k && id in ids ==> pages[i].Ok? && Info(true, Some(id)) !in pages[i].value
  }

  /** Where the search of the pages ends: at the first page that fails or lists one. */
  lemma {:induction false} ScanEnds(pages: seq<Result<seq<Info>, string>>, ids: set<string>) returns (k: nat)
    requires ids != {}
    ensures NothingUpTo(pages, ids, k)
    ensures ScanPages(pages, ids) ==
      if k == |pages| then Err(NoneOnline)
      else if pages[k].Err? then Err(PageError(pages[k].error))
      else ScanPages([pages[k]], ids)
    ensures k < |pages| && pages[k].Ok? ==> ScanPages(pages, ids).Ok?
  {
    k := 0;
    if pages != [] && pages[0].Ok? {
      FirstHitMeaning(pages[0].value, ids);
      if FirstHit(pages[0].value, ids).None? {
        k := ScanEnds(pages[1..], ids);
        k := k + 1;
        assert forall i :: 0 < i < k ==> pages[i] == pages[1..][i - 1];
      }
    }
  }

  /** Nothing of the group is in service. */
  predicate NoneServes(group: seq<Instance>) {
    forall inst :: inst in group ==> !inst.inService || inst.id.None?
  }

  /** Each way for a lookup to fail, in the order in which it is met; an answer that shows none of them is a find. */
  lemma LookupFails(answer: Answer) returns (k: nat)
    ensures answer.NoClients? ==> Lookup(answer) == Err(ClientError(answer.error))
    ensures answer.Answer? ==>
      if answer.groups.Err? then Lookup(answer) == Err(DescribeError(answer.groups.error))
      else if answer.groups.value == [] then Lookup(answer) == Err(GroupNotFound)
      else if NoneServes(answer.groups.value[0]) then Lookup(answer) == Err(NoneInService)
      else
        && NothingUpTo(answer.pages, InServiceIds(answer.groups.value[0]), k)
        && if k == |answer.pages| then Lookup(answer) == Err(NoneOnline)
           else if answer.pages[k].Err? then Lookup(answer) == Err(PageError(answer.pages[k].error))
           else Lookup(answer).Ok? && Info(true, Some(Lookup(answer).value)) in answer.pages[k].value
  {
    k := 0;
    if answer.Answer? && answer.groups.Ok? && answer.groups.value != [] {
      var (group, ids) := (answer.groups.value[0], InServiceIds(answer.groups.value[0]));
      if inst :| inst in group && inst.inService && inst.id.Some? {
        assert inst.id.value in ids;
        k := ScanEnds(answer.pages, ids);
        if k < |answer.pages| && answer.pages[k].Ok? {
          FirstHitMeaning(answer.pages[k].value, ids);
        }
      }
    }
  }

  // ----- The cache -----

  datatype Consulted<V> = Pinned | Unconfigured | Hit(value: V) | Miss

  /** What `Resolve` does with a profile before it calls AWS, if it calls it. */
  function Consult<V>(cache: map<Key, V>, p: Profile): Consulted<V> {
    if p.target != "" then Pinned
    else if p.targetASG == "" then Unconfigured
    else if KeyFor(p) in cache then Hit(cache[KeyFor(p)])
    else Miss
  }

  class ASGResolver {
    var cache: map<Key, string>

    constructor ()
      ensures cache == map[]
    {
      cache := map[];
    }

    method Resolve(p: Profile, answer: Answer) returns (r: Result<string, Error>)
      modifies this
      ensures match Consult(old(cache), p)
        case Pinned => r == Ok(p.target) && cache == old(cache)
        case Unconfigured => r == Err(NoTarget) && cache == old(cache)
        case Hit(id) => r == Ok(id) && cache == old(cache)
        case Miss => r == Lookup(answer) && cache == if r.Ok? then old(cache)[KeyFor(p) := r.value] else old(cache)
      ensures p.target != "" ==> r == Ok(p.target) && cache == old(cache)
      ensures p.target == "" && p.targetASG == "" ==> r == Err(NoTarget) && cache == old(cache)
      ensures p.target == "" && p.targetASG != "" ==>
        var key := Key(p.awsProfile, p.awsRegion, p.targetASG);
        if key in old(cache) then r == Ok(old(cache)[key]) && cache == old(cache)
        else r == Lookup(answer) && cache == if r.Ok? then old(cache)[key := r.value] else old(cache)
      ensures r == Err(NoTarget) <==> p.target == "" && p.targetASG == ""
    {
      if p.target != "" {
        return Ok(p.target);
      }
      if p.targetASG == "" {
        return Err(NoTarget);
      }
      var key := KeyFor(p);
      if key in cache {
        return Ok(cache[key]);
      }
      if answer.NoClients? {
        return Err(ClientError(answer.error));
      }
      r := LookupOnlineInstance(answer.groups, answer.pages);
      if answer.groups.Ok? && answer.groups.value != [] {
        ScanMeaning(answer.pages, InServiceIds(answer.groups.value[0]));
      }
      if r.Ok? {
        cache := cache[key := r.value];
      }
    }

    method Invalidate(p: Profile)
      modifies this
      ensures cache == old(cache) - {Key(p.awsProfile, p.awsRegion, p.targetASG)}
    {
      cache := cache - {KeyFor(p)};
    }
  }

  // ----- Services that share the cache -----

  /** A looked-up target with the moment its lookup began and what AWS answered. */
  datatype Entry = Entry(id: string, begun: nat, answer: Answer)

  datatype Target = PinnedTarget(id: string) | LookedUp(entry: Entry)

  /** A service is about to resolve, holds the mutex across its lookup, has a session, or has just learnt
      from the session's end that the target is not connected any more. */
  datatype Pc = Ready | Looking(begun: nat) | Running(target: Target) | Lost(at: nat)

  /** `rotated` is the moment of the last such end after which the service invalidated the cache. */
  datatype Service = Service(pc: Pc, rotated: Option<nat>)

  datatype System = System(now: nat, cache: map<Key, Entry>, mutex: Option<nat>, services: seq<Service>)

  datatype Action =
    | Resolve(i: nat)
    | Answered(i: nat, answer: Answer)
    | SessionEnds(i: nat)
    | TargetLost(i: nat)
    | Invalidate(i: nat)
    | Cancelled(i: nat)

  function Put(s: System, i: nat, svc: Service): System
    requires i < |s.services|
  {
    s.(now := s.now + 1, services := s.services[i := svc])
  }

  function ResolveStep(s: System, i: nat, p: Profile): Option<System>
    requires i < |s.services|
  {
    var svc := s.services[i];
    match Consult(s.cache, p)
    case Pinned => Some(Put(s, i, svc.(pc := Running(PinnedTarget(p.target)))))
    case Unconfigured => Some(Put(s, i, svc))
    case Hit(entry) => if s.mutex.None? then Some(Put(s, i, svc.(pc := Running(LookedUp(entry))))) else None
    case Miss => if s.mutex.None? then Some(Put(s, i, svc.(pc := Looking(s.now))).(mutex := Some(i))) else None
  }

  function AnsweredStep(s: System, i: nat, p: Profile, answer: Answer): System
    requires i < |s.services| && s.services[i].pc.Looking?
  {
    var svc := s.services[i];
    match Lookup(answer)
    case Err(_) => Put(s, i, svc.(pc := Ready)).(mutex := None)
    case Ok(id) =>
      var entry := Entry(id, svc.pc.begun, answer);
      Put(s, i, svc.(pc := Running(LookedUp(entry)))).(mutex := None, cache := s.cache[KeyFor(p) := entry])
  }

  /** One step of one service, or None when it cannot happen now; each step takes its own moment of time. A
      service cancelled before it invalidated starts anew without doing so. */
  function Step(profiles: seq<Profile>, s: System, a: Action): Option<System>
    requires |profiles| == |s.services|
  {
    if a.i >= |profiles| then None
    else
      var (svc, p) := (s.services[a.i], profiles[a.i]);
      match a
      case Resolve(i) => if svc.pc.Ready? then ResolveStep(s, i, p) else None
      case Answered(i, answer) => if svc.pc.Looking? then Some(AnsweredStep(s, i, p, answer)) else None
      case SessionEnds(i) => if svc.pc.Running? then Some(Put(s, i, svc.(pc := Ready))) else None
      case TargetLost(i) =>
        if svc.pc.Running? && p.targetASG != "" then Some(Put(s, i, svc.(pc := Lost(s.now)))) else None
      case Invalidate(i) =>
        if svc.pc.Lost? && s.mutex.None?
        then Some(Put(s, i, Service(Ready, Some(svc.pc.at))).(cache := s.cache - {KeyFor(p)}))
        else None
      case Cancelled(i) => if svc.pc.Lost? then Some(Put(s, i, svc.(pc := Ready))) else None
  }

  function Start(n: nat): System {
    System(0, map[], None, seq(n, _ => Service(Ready, None)))
  }

  function Run(profiles: seq<Profile>, acts: seq<Action>): (r: Option<System>)
    ensures r.Some? ==> |r.value.services| == |profiles|
  {
    if acts == [] then Some(Start(|profiles|))
    else match Run(profiles, acts[..|acts| - 1])
      case None => None
      case Some(s) => Step(profiles, s, acts[|acts| - 1])
  }

  ghost predicate After(t: Option<nat>, begun: nat) {
    t.Some? ==> t.value < begun
  }

  ghost predicate EntryOk(s: System, e: Entry) {
    Lookup(e.answer) == Ok(e.id) && e.begun < s.now
  }

  ghost predicate ServiceOk(profiles: seq<Profile>, s: System, i: nat)
    requires |profiles| == |s.services| && i < |profiles|
  {
    var (svc, key) := (s.services[i], KeyFor(profiles[i]));
    && After(svc.rotated, s.now)
    && (svc.pc.Lost? ==> svc.pc.at < s.now)
    && (svc.pc.Looking? <==> s.mutex == Some(i))
    && (svc.pc.Looking? ==> svc.pc.begun < s.now && profiles[i].target == "")
    && (key in s.cache ==> After(svc.rotated, s.cache[key].begun))
    && (svc.pc.Running? && svc.pc.target.PinnedTarget? ==> profiles[i].target == svc.pc.target.id != "")
    && (svc.pc.Running? && svc.pc.target.LookedUp? ==>
          profiles[i].target == "" && EntryOk(s, svc.pc.target.entry) && After(svc.rotated, svc.pc.target.entry.begun))
  }

  /** A lookup under way for the key of service i began after what made i invalidate that key. */
  ghost predicate LookupOk(profiles: seq<Profile>, s: System, i: nat)
    requires |profiles| == |s.services| && i < |profiles|
  {
    s.mutex.Some? ==>
      s.mutex.value < |profiles| &&
      var other := s.services[s.mutex.value];
      other.pc.Looking? &&
      (KeyFor(profiles[s.mutex.value]) == KeyFor(profiles[i]) ==> After(s.services[i].rotated, other.pc.begun))
  }

  ghost predicate Inv(profiles: seq<Profile>, s: System) {
    && |profiles| == |s.services|
    && (forall i :: 0 <= i < |profiles| ==> ServiceOk(profiles, s, i) && LookupOk(profiles, s, i))
    && (forall key :: key in s.cache ==> EntryOk(s, s.cache[key]))
  }

  lemma OwnStepKeeps(profiles: seq<Profile>, s: System, a: Action, n: System)
    requires Inv(profiles, s) && Step(profiles, s, a) == Some(n)
    ensures |n.services| == |profiles| && ServiceOk(profiles, n, a.i)
  {
    assert ServiceOk(profiles, s, a.i) && LookupOk(profiles, s, a.i);
  }

  lemma OtherStepKeeps(profiles: seq<Profile>, s: System, a: Action, n: System, i: nat)
    requires Inv(profiles, s) && Step(profiles, s, a) == Some(n) && i < |profiles| && i != a.i
    ensures |n.services| == |profiles| && ServiceOk(profiles, n, i)
  {
    assert ServiceOk(profiles, s, a.i) && LookupOk(profiles, s, a.i);
    assert ServiceOk(profiles, s, i) && LookupOk(profiles, s, i);
  }

  lemma StepKeepsLookup(profiles: seq<Profile>, s: System, a: Action, n: System, i: nat)
    requires Inv(profiles, s) && Step(profiles, s, a) == Some(n) && i < |profiles|
    ensures |n.services| == |profiles| && LookupOk(profiles, n, i)
  {
    assert ServiceOk(profiles, s, a.i) && LookupOk(profiles, s, a.i);
    assert ServiceOk(profiles, s, i) && LookupOk(profiles, s, i);
  }

  lemma StepKeepsInv(profiles: seq<Profile>, s: System, a: Action, n: System)
    requires Inv(profiles, s) && Step(profiles, s, a) == Some(n)
    ensures Inv(profiles, n)
  {
    assert ServiceOk(profiles, s, a.i);
    forall i | 0 <= i < |profiles|
      ensures ServiceOk(profiles, n, i) && LookupOk(profiles, n, i)
    {
      if i == a.i {
        OwnStepKeeps(profiles, s, a, n);
      } else {
        OtherStepKeeps(profiles, s, a, n, i);
      }
      StepKeepsLookup(profiles, s, a, n, i);
    }
  }

  lemma {:induction false} Reachable(profiles: seq<Profile>, acts: seq<Action>, s: System)
    requires Run(profiles, acts) == Some(s)
    ensures Inv(profiles, s)
  {
    if acts != [] {
      var before := Run(profiles, acts[..|acts| - 1]).value;
      Reachable(profiles, acts[..|acts| - 1], before);
      StepKeepsInv(profiles, before, acts[|acts| - 1], s);
    }
  }

  /** In every run, a running service has its profile's pinned target, or one that was usable in an answer to
      a lookup that began after the service last lost a target and invalidated it. */
  lemma TargetIsFresh(profiles: seq<Profile>, acts: seq<Action>, s: System, i: nat)
    requires Run(profiles, acts) == Some(s) && i < |profiles| && s.services[i].pc.Running?
    ensures var (svc, target) := (s.services[i], s.services[i].pc.target);
      if target.PinnedTarget? then target.id == profiles[i].target != ""
      else
        && profiles[i].target == ""
        && Usable(target.entry.answer, target.entry.id)
        && (svc.rotated.Some? ==> svc.rotated.value < target.entry.begun)
  {
    Reachable(profiles, acts, s);
    assert ServiceOk(profiles, s, i);
    if s.services[i].pc.target.LookedUp? {
      LookupMeaning(s.services[i].pc.target.entry.answer);
    }
  }
}
