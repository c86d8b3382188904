/**
 What becomes of a service, over runs: where each end of a session and each failed or successful call
 leads the goroutine, whom `DropSessions` stops, and how a stop ends.
*/
module LifecycleOutcome {
  import opened Wrappers
  import opened State
  import opened Lifecycle
  import opened LifecycleInvariant

  // ----- While the context is live -----

  /** Other threads leave a live service's goroutine and fields alone. */
  lemma OthersKeepLive(s: Service, n: Service, asg: bool, a: Action)
    requires SeenOk(s) && !IsGo(a) && Step(s, asg, a) == Some(n) && !n.cancelled
    ensures !s.cancelled && n.go == s.go && n.fields == s.fields && n.ip == s.ip && n.proxies == s.proxies
  {
  }

  lemma CancelStays(s: Service, n: Service, asg: bool, a: Action)
    requires Step(s, asg, a) == Some(n) && s.cancelled
    ensures n.cancelled
  {
    if IsGo(a) {
      StepDecreasesRank(s, n, asg, a);
    } else {
      OthersKeepRank(s, n, asg, a);
    }
  }

  lemma {:induction false} CancelStaysInRun(s: Service, n: Service, asg: bool, actions: seq<Action>)
    requires Run(s, asg, actions) == Some(n) && s.cancelled
    ensures n.cancelled
    decreases |actions|
  {
    if actions != [] {
      var next := Step(s, asg, actions[0]).value;
      CancelStays(s, next, asg, actions[0]);
      CancelStaysInRun(next, n, asg, actions[1..]);
    }
  }

  // ----- Expired credentials -----

  /** The goroutine has learnt of expired credentials, or has returned. */
  predicate Doomed(pc: GoPc) {
    match pc
    case Loop(l) => l.StartFailed? && l.startErr.Expired?
    case Connect(c) => c.StopFreshSession? && c.err.Expired?
    case Serve(v) => !v.AwaitEnd? && !v.Invalidate? && v.err.Expired?
    case Retry(r) =>
      if r.RecordRetry? || r.EnterReconnecting? then r.from.Connected? && r.err.Expired? else true
    case Returned(_) => true
  }

  lemma LoopStaysDoomed(s: Service, n: Service, pc: LoopPc, a: Action)
    requires Doomed(Loop(pc)) && LoopStep(s, pc, a) == Some(n)
    ensures Doomed(n.go) && Rank(n.go) < Rank(Loop(pc)) && !n.go.Connect?
  {
  }

  lemma ServeStaysDoomed(s: Service, n: Service, asg: bool, pc: ServePc, a: Action)
    requires Doomed(Serve(pc)) && ServeStep(s, asg, pc, a) == Some(n)
    ensures Doomed(n.go) && Rank(n.go) < Rank(Serve(pc))
  {
  }

  lemma RetryStaysDoomed(s: Service, n: Service, pc: RetryPc)
    requires Doomed(Retry(pc)) && RetryStep(s, pc) == Some(n)
    ensures Doomed(n.go) && Rank(n.go) < Rank(Retry(pc))
  {
  }

  lemma CommitStaysDoomed(s: Service, n: Service, pc: ConnectPc)
    requires Doomed(Connect(pc)) && CommitStep(s, pc) == Some(n)
    ensures Doomed(n.go) && Rank(n.go) < Rank(Connect(pc))
  {
  }

  lemma OthersKeepGo(s: Service, n: Service, asg: bool, a: Action)
    requires !IsGo(a) && Step(s, asg, a) == Some(n)
    ensures n.go == s.go
  {
  }

  lemma StaysDoomed(s: Service, n: Service, asg: bool, a: Action)
    requires Doomed(s.go) && Step(s, asg, a) == Some(n)
    ensures Doomed(n.go) && Rank(n.go) + Count(IsGo(a)) <= Rank(s.go) && !Begins(s, n)
  {
    if IsGo(a) {
      match s.go
      case Loop(pc) => LoopStaysDoomed(s, n, pc, a);
      case Connect(pc) => CommitStaysDoomed(s, n, pc);
      case Serve(pc) => ServeStaysDoomed(s, n, asg, pc, a);
      case Retry(pc) => RetryStaysDoomed(s, n, pc);
    } else {
      OthersKeepGo(s, n, asg, a);
    }
  }

  lemma {:induction false} DoomedNeverConnects(s: Service, n: Service, asg: bool, more: seq<Action>)
    requires Doomed(s.go) && Run(s, asg, more) == Some(n)
    ensures Doomed(n.go) && Connects(s, asg, more) == 0 && GoSteps(more) + Rank(n.go) <= Rank(s.go)
    decreases |more|
  {
    if more != [] {
      var next := Step(s, asg, more[0]).value;
      StaysDoomed(s, next, asg, more[0]);
      DoomedNeverConnects(next, n, asg, more[1..]);
    }
  }

  // ----- From the end of a session, or of a failed `connect`, to what follows -----

  /** How many times the goroutine will still invalidate the cached target before it connects again. */
  function Owed(pc: GoPc, asg: bool): nat {
    match pc
    case Serve(v) => if v.AwaitEnd? then 0 else if v.Invalidate? then 1 else Count(v.err.TargetGone? && asg)
    case Retry(r) =>
      if r.RecordRetry? || r.EnterReconnecting? then Count(r.from.Connected? && r.err.TargetGone? && asg) else 0
    case _ => 0
  }

  /** How many pauses lie between here and the next `connect` after the error. */
  function PausesLeft(pc: GoPc, err: Error): nat {
    match pc
    case Loop(l) => if l.Pause? then 1 else Count(l.StartFailed? && !err.Expired?)
    case Retry(r) => Count(!r.RecordExpired? && !r.EnterFailed? && !err.Expired?)
    case Returned(_) => 0
    case _ => Count(!err.Expired?)
  }

  /** The goroutine is on its way from the error to its next `connect` or its return, and the instance
      records the error as soon as it has moved. */
  ghost predicate OnTheWay(s: Service, err: Error) {
    && (s.fields.session.Some? || s.fields.proxy.Some? ==> s.go.Serve? && (s.go.v.AfterWait? || s.go.v.DetachFields?))
    && match s.go
       case Loop(l) => if l.StartFailed? then l.startErr == err else s.fields.lastError == err && !err.Expired?
       case Connect(c) => c.StopFreshSession? && c.err == err
       case Serve(v) =>
         if v.AfterReconnecting? then v.err == err && s.fields.lastError == err
         else if v.Invalidate? then s.fields.lastError == err && !err.Expired?
         else !v.AwaitEnd? && v.err == err
       case Retry(r) =>
         if r.RecordRetry? then r.err == err && (r.from.Connected? || !err.Expired?)
         else if r.EnterReconnecting? then
           r.err == err && s.fields.lastError == err && (r.from.Connected? || !err.Expired?)
         else err.Expired?
       case Returned(why) => why.ByCredentials? && err.Expired?
  }

  /** An upper bound on the steps to the next `connect`, or to the return. */
  function ToGo(pc: GoPc): nat {
    match pc
    case Loop(l) =>
      (match l case EnterStarting(_) => 1 case ReadFrom => 2 case CheckLoop => 3 case Pause => 4
        case StartFailed(_) => 7)
    case Connect(_) => 8
    case Serve(v) =>
      (match v case AfterWait(_) => 11 case DetachFields(_) => 10 case StopDetached(_, _) => 9
        case AfterReconnecting(_) => 6 case Invalidate => 5 case AwaitEnd(_) => 12)
    case Retry(r) =>
      (match r case RecordRetry(from, _) => if from.Connected? then 8 else 6
        case EnterReconnecting(from, _) => if from.Connected? then 7 else 5
        case RecordExpired(_) => 4 case EnterFailed(_) => 3)
    case Returned(_) => 0
  }

  lemma LoopOnTheWay(s: Service, n: Service, pc: LoopPc, a: Action, err: Error)
    requires StateInv(s) && OnTheWay(s, err) && !s.cancelled && s.go == Loop(pc) && LoopStep(s, pc, a) == Some(n)
    ensures !n.cancelled
    ensures !Begins(s, n) ==> OnTheWay(n, err) && ToGo(n.go) < ToGo(s.go)
    ensures Begins(s, n) ==>
      n.go == Connect(AllocateIP) && n.fields == Fields(Starting, None, None, err) && !err.Expired?
    ensures forall asg :: Owed(n.go, asg) == 0
    ensures !Begins(s, n) ==> Count(pc.Pause?) + PausesLeft(n.go, err) == PausesLeft(s.go, err)
    ensures Begins(s, n) ==> PausesLeft(s.go, err) == 0
  {
  }

  lemma CommitOnTheWay(s: Service, n: Service, pc: ConnectPc, err: Error)
    requires OnTheWay(s, err) && !s.cancelled && s.go == Connect(pc) && CommitStep(s, pc) == Some(n)
    ensures !n.cancelled && OnTheWay(n, err) && ToGo(n.go) < ToGo(s.go) && forall asg :: Owed(n.go, asg) == 0
    ensures PausesLeft(n.go, err) == PausesLeft(s.go, err)
  {
  }

  lemma ServeOnTheWay(s: Service, n: Service, asg: bool, pc: ServePc, a: Action, err: Error)
    requires StateInv(s) && OnTheWay(s, err) && !s.cancelled && s.go == Serve(pc) && ServeStep(s, asg, pc, a) == Some(n)
    ensures !n.cancelled && OnTheWay(n, err) && ToGo(n.go) < ToGo(s.go)
    ensures Count(pc.Invalidate?) + Owed(n.go, asg) == Owed(s.go, asg)
    ensures PausesLeft(n.go, err) == PausesLeft(s.go, err)
  {
  }

  lemma RetryOnTheWay(s: Service, n: Service, asg: bool, pc: RetryPc, err: Error)
    requires StateInv(s) && OnTheWay(s, err) && !s.cancelled && s.go == Retry(pc) && RetryStep(s, pc) == Some(n)
    ensures !n.cancelled && OnTheWay(n, err) && ToGo(n.go) < ToGo(s.go)
    ensures Owed(n.go, asg) == Owed(s.go, asg) && PausesLeft(n.go, err) == PausesLeft(s.go, err)
  {
  }

  /** The goroutine is about to call `Invalidate`. */
  predicate Invalidates(s: Service, a: Action) {
    s.go == Serve(Invalidate) && IsGo(a)
  }

  /** How many times the goroutine calls `Invalidate` in a run. */
  function Invalidations(s: Service, asg: bool, actions: seq<Action>): nat
    decreases |actions|
  {
    if actions == [] || Step(s, asg, actions[0]).None? then 0
    else Count(Invalidates(s, actions[0])) + Invalidations(Step(s, asg, actions[0]).value, asg, actions[1..])
  }

  predicate Pauses(s: Service, a: Action) {
    s.go == Loop(Pause) && IsGo(a)
  }

  /** How many pauses the goroutine makes in a run. */
  function PauseCount(s: Service, asg: bool, actions: seq<Action>): nat
    decreases |actions|
  {
    if actions == [] || Step(s, asg, actions[0]).None? then 0
    else Count(Pauses(s, actions[0])) + PauseCount(Step(s, asg, actions[0]).value, asg, actions[1..])
  }

  lemma StepOnTheWay(s: Service, n: Service, asg: bool, a: Action, err: Error)
    requires Inv(s) && OnTheWay(s, err) && Step(s, asg, a) == Some(n) && !n.cancelled
    ensures !s.cancelled
    ensures !Begins(s, n) ==> OnTheWay(n, err) && ToGo(n.go) + Count(IsGo(a)) <= ToGo(s.go)
    ensures Begins(s, n) ==>
      n.go == Connect(AllocateIP) && n.fields == Fields(Starting, None, None, err) && !err.Expired?
    ensures Count(Invalidates(s, a)) + Owed(n.go, asg) == Owed(s.go, asg)
    ensures if Begins(s, n) then PausesLeft(s.go, err) == 0
      else Count(Pauses(s, a)) + PausesLeft(n.go, err) == PausesLeft(s.go, err)
  {
    if s.cancelled {
      CancelStays(s, n, asg, a);
      assert false;
    }
    if !IsGo(a) {
      OthersKeepLive(s, n, asg, a);
    } else {
      match s.go
      case Loop(pc) => LoopOnTheWay(s, n, pc, a, err);
      case Connect(pc) => CommitOnTheWay(s, n, pc, err);
      case Serve(pc) => ServeOnTheWay(s, n, asg, pc, a, err);
      case Retry(pc) => RetryOnTheWay(s, n, asg, pc, err);
    }
  }

  lemma {:induction false} RunOnTheWay(s: Service, n: Service, asg: bool, more: seq<Action>, err: Error)
    requires Inv(s) && OnTheWay(s, err) && Run(s, asg, more) == Some(n) && !n.cancelled && Connects(s, asg, more) == 0
    ensures Inv(n) && OnTheWay(n, err) && GoSteps(more) + ToGo(n.go) <= ToGo(s.go)
    ensures Invalidations(s, asg, more) + Owed(n.go, asg) == Owed(s.go, asg)
    ensures PauseCount(s, asg, more) + PausesLeft(n.go, err) == PausesLeft(s.go, err)
    decreases |more|
  {
    if more != [] {
      var next := Step(s, asg, more[0]).value;
      if next.cancelled {
        CancelStaysInRun(next, n, asg, more[1..]);
        assert false;
      }
      StepKeepsInv(s, next, asg, more[0]);
      StepOnTheWay(s, next, asg, more[0], err);
      RunOnTheWay(next, n, asg, more[1..], err);
    }
  }

  /** On its way the goroutine needs nobody. */
  lemma CanGoOn(s: Service, asg: bool, err: Error)
    requires StateInv(s) && OnTheWay(s, err) && !s.go.Returned?
    ensures Step(s, asg, Go).Some?
  {
  }

  /** An error reaches the goroutine: its session ended with it, or a call of `connect` failed with it. */
  predicate Brings(a: Action, err: Error) {
    a == GoWaited(err) || a == GoFails(err)
  }

  lemma FailedCallSetsOut(s: Service, n: Service, pc: ConnectPc, err: Error)
    requires s.go == Connect(pc) && s.fields.session.None? && s.fields.proxy.None?
    requires ConnectCall(s, pc, GoFails(err)) == Some(n)
    ensures n.cancelled == s.cancelled && ToGo(n.go) <= 8 && (err.Expired? ==> Doomed(n.go) && Rank(n.go) <= 18)
    ensures OnTheWay(n, err) && (forall asg :: Owed(n.go, asg) == 0) && !err.NoError?
  {
  }

  lemma EndSetsOut(s: Service, n: Service, asg: bool, pc: ServePc, err: Error)
    requires s.go == Serve(pc) && ServeStep(s, asg, pc, GoWaited(err)) == Some(n)
    ensures n == s.(go := Serve(AfterWait(err)))
  {
  }

  lemma SetsOut(s: Service, n: Service, asg: bool, a: Action, err: Error)
    requires Inv(s) && Brings(a, err) && Step(s, asg, a) == Some(n)
    ensures n.cancelled == s.cancelled && ToGo(n.go) <= 11 && (err.Expired? ==> Doomed(n.go) && Rank(n.go) <= 18)
    ensures OnTheWay(n, err)
    ensures Owed(n.go, asg) == Count(a.GoWaited? && err.TargetGone? && asg)
    ensures PausesLeft(n.go, err) == Count(!err.Expired?)
  {
    if s.go.Connect? {
      FailedCallSetsOut(s, n, s.go.c, err);
    } else if s.go.Serve? {
      EndSetsOut(s, n, asg, s.go.v, err);
    }
  }

  /** The instance holds nothing, every session is settled and every proxy was stopped, once. */
  ghost predicate HoldsNothing(s: Service) {
    && s.fields.session.None? && s.fields.proxy.None?
    && (forall id :: id in s.sessions ==> Settled(s.sessions[id]))
    && (forall id :: id in s.proxies ==> s.proxies[id].stops == 1)
  }

  lemma NothingHeld(s: Service)
    requires Inv(s) && !s.cancelled && s.fields.session.None? && s.fields.proxy.None?
    requires s.go.Returned? || s.go == Connect(AllocateIP)
    ensures HoldsNothing(s)
  {
    forall id | id in s.sessions
      ensures Settled(s.sessions[id])
    {
      assert SessionOk(s, id);
    }
    forall id | id in s.proxies
      ensures s.proxies[id].stops == 1
    {
      assert ProxyOk(s, id);
    }
  }

  /** Expired credentials, at the end of a session or from a failed call: in every continuation the goroutine
      never begins another `connect` and makes a bounded number of steps; and as long as its context is live
      it either can step, with nobody's help, or has returned by credentials, with the service Failed, that
      error recorded, and nothing left open. */
  lemma ExpiredCredentialsEnd(actions: seq<Action>, s: Service, asg: bool, a: Action, n: Service,
                              more: seq<Action>, m: Service)
    requires Run(INIT, asg, actions) == Some(s) && Step(s, asg, a) == Some(n) && Brings(a, Expired)
    requires Run(n, asg, more) == Some(m)
    ensures Connects(n, asg, more) == 0 && GoSteps(more) <= 18
    ensures !m.cancelled && !m.go.Returned? ==> Step(m, asg, Go).Some?
    ensures !m.cancelled && m.go.Returned? ==>
      m.go.why.ByCredentials? && m.fields == Fields(Failed, None, None, Expired) && HoldsNothing(m)
  {
    ReachableInv(s, asg, actions);
    SetsOut(s, n, asg, a, Expired);
    StepKeepsInv(s, n, asg, a);
    DoomedNeverConnects(n, m, asg, more);
    if !m.cancelled {
      if n.cancelled {
        CancelStaysInRun(n, m, asg, more);
        assert false;
      }
      RunOnTheWay(n, m, asg, more, Expired);
      if m.go.Returned? {
        NothingHeld(m);
      } else {
        CanGoOn(m, asg, Expired);
      }
    }
  }

  /** Any other error: until the next `connect` the goroutine does not return, can always step with nobody's
      help, and makes a bounded number of steps. */
  lemma OtherErrorsReconnect(actions: seq<Action>, s: Service, asg: bool, a: Action, err: Error, n: Service,
                             more: seq<Action>, m: Service)
    requires Run(INIT, asg, actions) == Some(s) && Step(s, asg, a) == Some(n) && Brings(a, err) && !err.Expired?
    requires Run(n, asg, more) == Some(m) && !m.cancelled && Connects(n, asg, more) == 0
    ensures !m.go.Returned? && Step(m, asg, Go).Some? && GoSteps(more) <= 11
  {
    ReachableInv(s, asg, actions);
    SetsOut(s, n, asg, a, err);
    StepKeepsInv(s, n, asg, a);
    if n.cancelled {
      CancelStaysInRun(n, m, asg, more);
      assert false;
    }
    RunOnTheWay(n, m, asg, more, err);
    CanGoOn(m, asg, err);
  }

  /** And the step at which it begins the next `connect`: the error is recorded, nothing is left open, it has
      paused once, and it has invalidated the cached target exactly once if a session of a service with a target
      group ended by the loss of its target, and otherwise not at all. */
  lemma ReconnectsAfter(actions: seq<Action>, s: Service, asg: bool, a: Action, err: Error, n: Service,
                        more: seq<Action>, m: Service, b: Action, next: Service)
    requires Run(INIT, asg, actions) == Some(s) && Step(s, asg, a) == Some(n) && Brings(a, err)
    requires Run(n, asg, more) == Some(m) && Connects(n, asg, more) == 0
    requires Step(m, asg, b) == Some(next) && !next.cancelled && Begins(m, next)
    ensures next.go == Connect(AllocateIP) && next.fields == Fields(Starting, None, None, err)
    ensures Invalidations(n, asg, more) == Count(a.GoWaited? && err.TargetGone? && asg) && PauseCount(n, asg, more) == 1
    ensures HoldsNothing(next)
  {
    ReachableInv(s, asg, actions);
    SetsOut(s, n, asg, a, err);
    StepKeepsInv(s, n, asg, a);
    if m.cancelled {
      CancelStays(m, next, asg, b);
      assert false;
    }
    if n.cancelled {
      CancelStaysInRun(n, m, asg, more);
      assert false;
    }
    RunOnTheWay(n, m, asg, more, err);
    StepOnTheWay(m, next, asg, b, err);
    StepKeepsInv(m, next, asg, b);
    NothingHeld(next);
  }

  predicate AllGo(actions: seq<Action>) {
    forall a :: a in actions ==> a.Go?
  }

  lemma {:induction false} GoesAlone(s: Service, asg: bool, err: Error) returns (more: seq<Action>, m: Service)
    requires Inv(s) && OnTheWay(s, err) && !s.cancelled
    ensures Run(s, asg, more) == Some(m) && AllGo(more) && !m.cancelled
    ensures if err.Expired? then m.go == Returned(ByCredentials)
      else m.go == Connect(AllocateIP) && Connects(s, asg, more) == 1
    decreases ToGo(s.go)
  {
    if s.go.Returned? {
      more, m := [], s;
    } else {
      CanGoOn(s, asg, err);
      var next := Step(s, asg, Go).value;
      assert !next.cancelled;
      StepOnTheWay(s, next, asg, Go, err);
      if Begins(s, next) {
        more, m := [Go], next;
        assert Run(next, asg, more[1..]) == Some(m);
      } else {
        StepKeepsInv(s, next, asg, Go);
        more, m := GoesAlone(next, asg, err);
        more := [Go] + more;
        assert Run(next, asg, more[1..]) == Some(m);
      }
    }
  }

  /** Left to itself, the goroutine goes on to fail by expired credentials, or to connect again. */
  lemma EndDecides(actions: seq<Action>, s: Service, asg: bool, a: Action, err: Error, n: Service)
    returns (more: seq<Action>, m: Service)
    requires Run(INIT, asg, actions) == Some(s) && Step(s, asg, a) == Some(n) && Brings(a, err) && !n.cancelled
    ensures Run(n, asg, more) == Some(m) && AllGo(more) && !m.cancelled
    ensures if err.Expired? then m.go == Returned(ByCredentials) && m.fields.state.Failed?
      else m.go == Connect(AllocateIP) && Connects(n, asg, more) == 1
  {
    ReachableInv(s, asg, actions);
    SetsOut(s, n, asg, a, err);
    StepKeepsInv(s, n, asg, a);
    more, m := GoesAlone(n, asg, err);
    if err.Expired? {
      ExpiredCredentialsEnd(actions, s, asg, a, n, more, m);
    }
  }

  // ----- A `connect` that no call fails -----

  function OwnPart(a: Action): seq<Action> {
    if IsGo(a) then [a] else []
  }

  /** The goroutine's own actions in a run. */
  function Own(actions: seq<Action>): seq<Action> {
    if actions == [] then [] else OwnPart(actions[0]) + Own(actions[1..])
  }

  /** How many steps of `connect` lie behind the goroutine. */
  function Progress(pc: ConnectPc): nat {
    match pc
    case AllocateIP => 0
    case AddDNS => 1
    case FreePort => 2
    case ResolveTarget => 3
    case StartSession => 4
    case NewProxy(_) => 5
    case AwaitLock(_, _) => 6
    case CheckStop(_, _) => 7
    case CommitFields(_, _) => 8
    case _ => 10
  }

  /** The session of these actions was started; it is not told to stop before it is committed, with the last of
      them. */
  ghost predicate Started(s: Service, done: seq<Action>) {
    |done| >= 5 ==>
      && done[4].GoCreated? && done[4].id in s.sessions && (|done| < 9 ==> !s.sessions[done[4].id].told)
      && (s.sessions[done[4].id].committed <==> |done| == 9)
  }

  /** The proxy of these actions was created on the address they allocated. */
  ghost predicate Listens(s: Service, done: seq<Action>) {
    && (|done| >= 1 ==> done[0].GoAllocated? && s.ip == done[0].octet)
    && (|done| >= 6 ==> done[5].GoCreated? && done[5].id in s.proxies && s.proxies[done[5].id] == Proxy(s.ip, 0))
  }

  /** The goroutine stands where exactly these actions lead it, none of them a failure. */
  ghost predicate At(s: Service, done: seq<Action>)
    requires |done| <= 9
    requires |done| >= 5 ==> done[4].GoCreated?
    requires |done| >= 6 ==> done[5].GoCreated?
  {
    if |done| == 9 then
      s.go == Serve(AwaitEnd(done[4].id)) &&
      s.fields == Fields(Connected, Some(done[4].id), Some(done[5].id), NoError)
    else
      && s.go.Connect? && Progress(s.go.c) == |done|
      && (|done| >= 5 ==> s.go.c.sess == done[4].id)
      && (|done| >= 6 ==> s.go.c.proxy == done[5].id)
  }

  ghost predicate Along(s: Service, done: seq<Action>) {
    |done| <= 9 && Started(s, done) && Listens(s, done) && At(s, done)
  }

  predicate NoFailure(actions: seq<Action>) {
    forall a :: a in actions ==> !a.GoFails?
  }

  lemma CallAlong(s: Service, n: Service, pc: ConnectPc, a: Action, done: seq<Action>)
    requires Along(s, done) && !a.GoFails? && s.go == Connect(pc) && ConnectCall(s, pc, a) == Some(n)
    ensures |done| <= 5 && Along(n, done + [a])
  {
  }

  lemma CommitAlong(s: Service, n: Service, pc: ConnectPc, a: Action, done: seq<Action>)
    requires StateInv(s) && !s.cancelled && Along(s, done) && s.go == Connect(pc) && CommitStep(s, pc) == Some(n)
    ensures |done| <= 8 && Along(n, done + [a])
  {
  }

  lemma OthersAlong(s: Service, n: Service, asg: bool, a: Action, done: seq<Action>)
    requires Inv(s) && Along(s, done) && !IsGo(a) && Step(s, asg, a) == Some(n) && !n.cancelled
    ensures Along(n, done)
  {
    OthersKeepLive(s, n, asg, a);
    assert a.DropStop? ==> DropOk(s, a.d);
  }

  lemma StepAlong(s: Service, n: Service, asg: bool, a: Action, done: seq<Action>)
    requires Inv(s) && Along(s, done) && Step(s, asg, a) == Some(n) && !n.cancelled && !a.GoFails?
    requires |done| + Count(IsGo(a)) <= 9
    ensures Along(n, done + OwnPart(a))
  {
    if s.cancelled {
      CancelStays(s, n, asg, a);
      assert false;
    }
    if !IsGo(a) {
      OthersAlong(s, n, asg, a, done);
      assert done + OwnPart(a) == done;
    } else if a.Go? {
      CommitAlong(s, n, s.go.c, a, done);
    } else {
      CallAlong(s, n, s.go.c, a, done);
    }
  }

  lemma {:induction false} RunAlong(s: Service, n: Service, asg: bool, more: seq<Action>, done: seq<Action>)
    requires Inv(s) && Along(s, done) && Run(s, asg, more) == Some(n) && !n.cancelled
    requires NoFailure(more) && |done| + |Own(more)| <= 9
    ensures Along(n, done + Own(more))
    decreases |more|
  {
    if more != [] {
      var next := Step(s, asg, more[0]).value;
      if next.cancelled {
        CancelStaysInRun(next, n, asg, more[1..]);
        assert false;
      }
      StepAlong(s, next, asg, more[0], done);
      StepKeepsInv(s, next, asg, more[0]);
      RunAlong(next, n, asg, more[1..], done + OwnPart(more[0]));
      assert done + Own(more) == (done + OwnPart(more[0])) + Own(more[1..]);
    } else {
      assert done + Own(more) == done;
    }
  }

  /** A `connect` whose context stays live and whose calls all succeed, in any interleaving: its goroutine's
      nine steps are the allocation, the registration, the port, the target, the session, the proxy, and the
      commit in the mutex; then the service is Connected with that session and that proxy, which listens on the
      allocated address. */
  lemma ConnectSucceeds(actions: seq<Action>, s: Service, asg: bool, more: seq<Action>, m: Service)
    requires Run(INIT, asg, actions) == Some(s) && s.go == Connect(AllocateIP)
    requires Run(s, asg, more) == Some(m) && !m.cancelled && NoFailure(more) && |Own(more)| <= 9
    ensures |Own(more)| < 9 ==> m.go.Connect? && Progress(m.go.c) == |Own(more)|
    ensures var own := Own(more); |own| == 9 ==>
      && own[0].GoAllocated? && own[4].GoCreated? && own[5].GoCreated?
      && m.fields == Fields(Connected, Some(own[4].id), Some(own[5].id), NoError)
      && m.go == Serve(AwaitEnd(own[4].id))
      && own[4].id in m.sessions && m.sessions[own[4].id].committed
      && own[5].id in m.proxies && m.proxies[own[5].id] == Proxy(own[0].octet, 0)
  {
    ReachableInv(s, asg, actions);
    RunAlong(s, m, asg, more, []);
    assert [] + Own(more) == Own(more);
  }

  /** What the next step of such a `connect` is. */
  function NextOf(k: nat, octet: Option<int>, sess: nat, proxy: nat): Action {
    match k
    case 0 => GoAllocated(octet)
    case 1 => GoSucceeds
    case 2 => GoSucceeds
    case 3 => GoSucceeds
    case 4 => GoCreated(sess)
    case 5 => GoCreated(proxy)
    case _ => Go
  }

  /** And it is possible, with any identity that is free. */
  lemma ConnectCanGoOn(actions: seq<Action>, s: Service, asg: bool, octet: Option<int>, sess: nat, proxy: nat)
    requires Run(INIT, asg, actions) == Some(s) && s.go.Connect? && Progress(s.go.c) <= 8
    requires sess !in s.sessions && proxy !in s.proxies
    ensures var a := NextOf(Progress(s.go.c), octet, sess, proxy);
      IsGo(a) && Step(s, asg, a).Some?
  {
  }

  /** A call to the outside may fail with any error, wherever the goroutine makes one. */
  lemma CallMayFail(actions: seq<Action>, s: Service, asg: bool, err: Error)
    requires Run(INIT, asg, actions) == Some(s) && s.go.Connect? && 1 <= Progress(s.go.c) <= 5 && !err.NoError?
    ensures Step(s, asg, GoFails(err)).Some?
  {
  }

  ghost predicate Serving(s: Service) {
    s.fields.session.Some? && !s.cancelled ==>
      && s.go.Serve? && (s.go.v.AwaitEnd? || s.go.v.AfterWait? || s.go.v.DetachFields?)
      && s.fields.proxy.Some? && s.fields.lastError.NoError?
  }

  lemma ServeKeepsServing(s: Service, n: Service, asg: bool, pc: ServePc, a: Action)
    requires StoredOk(s) && Serving(s) && s.go == Serve(pc) && ServeStep(s, asg, pc, a) == Some(n)
    ensures Serving(n)
  {
  }

  lemma CommitKeepsServing(s: Service, n: Service, pc: ConnectPc)
    requires StoredOk(s) && Serving(s) && s.go == Connect(pc) && CommitStep(s, pc) == Some(n)
    ensures Serving(n)
  {
  }

  lemma StepKeepsServing(s: Service, n: Service, asg: bool, a: Action)
    requires Inv(s) && Serving(s) && Step(s, asg, a) == Some(n)
    ensures Serving(n)
  {
    if s.cancelled {
      CancelStays(s, n, asg, a);
    } else if !IsGo(a) {
      if !n.cancelled {
        OthersKeepLive(s, n, asg, a);
      }
    } else {
      match s.go
      case Loop(pc) => assert n.fields.session.None?;
      case Connect(pc) =>
        if a.Go? {
          CommitKeepsServing(s, n, pc);
        } else {
          assert n.fields.session.None?;
        }
      case Serve(pc) => ServeKeepsServing(s, n, asg, pc, a);
      case Retry(pc) => assert n.fields.session.None?;
    }
  }

  lemma {:induction false} RunKeepsServing(s: Service, n: Service, asg: bool, actions: seq<Action>)
    requires Inv(s) && Serving(s) && Run(s, asg, actions) == Some(n)
    ensures Inv(n) && Serving(n)
    decreases |actions|
  {
    if actions != [] {
      var next := Step(s, asg, actions[0]).value;
      StepKeepsInv(s, next, asg, actions[0]);
      StepKeepsServing(s, next, asg, actions[0]);
      RunKeepsServing(next, n, asg, actions[1..]);
    }
  }

  /** A live service that stores a session is Connected, with no error and with a proxy that was not stopped. */
  lemma ConnectedServes(actions: seq<Action>, s: Service, asg: bool)
    requires Run(INIT, asg, actions) == Some(s) && !s.cancelled && s.fields.session.Some?
    ensures s.fields.state.Connected? && s.fields.proxy.Some? && s.fields.lastError.NoError?
    ensures s.fields.proxy.value in s.proxies && s.proxies[s.fields.proxy.value].stops == 0
    ensures s.fields.session.value in s.sessions && s.sessions[s.fields.session.value].committed
  {
    ReachableInv(INIT, asg, []);
    RunKeepsServing(INIT, s, asg, actions);
    assert SessionOk(s, s.fields.session.value);
    assert ProxyOk(s, s.fields.proxy.value);
  }

  // ----- Moves -----

  lemma SectionMoves(s: Service, n: Service)
    requires StopSection(s) == Some(n)
    ensures n.fields.state == s.fields.state || Allowed(s.fields.state, n.fields.state)
  {
  }

  lemma ServeMovesNothing(s: Service, n: Service, asg: bool, pc: ServePc, a: Action)
    requires ServeStep(s, asg, pc, a) == Some(n)
    ensures n.fields.state == s.fields.state
  {
  }

  lemma GoMoves(s: Service, n: Service, asg: bool, a: Action)
    requires GoStep(s, asg, a) == Some(n)
    ensures n.fields.state == s.fields.state ||
      (MoveAt(s.go) == Some(n.fields.state) && Allowed(s.fields.state, n.fields.state))
  {
    if s.go.Serve? {
      ServeMovesNothing(s, n, asg, s.go.v, a);
    }
  }

  /** Whatever thread steps, the state changes only as the table allows. */
  lemma MovesFollowTable(s: Service, n: Service, asg: bool, a: Action)
    requires Step(s, asg, a) == Some(n) && n.fields.state != s.fields.state
    ensures Allowed(s.fields.state, n.fields.state)
  {
    if IsGo(a) {
      GoMoves(s, n, asg, a);
    } else if a.StopStep? && StopCall(s).None? {
      SectionMoves(s, n);
    }
  }

  /** A goroutine whose move is refused returns, and leaves the state to the stop that moved it; one whose move is
      allowed makes it. */
  lemma MoveOrReturn(actions: seq<Action>, s: Service, asg: bool, a: Action, n: Service)
    requires Run(INIT, asg, actions) == Some(s) && IsGo(a) && Step(s, asg, a) == Some(n) && MoveAt(s.go).Some?
    ensures if Allowed(s.fields.state, MoveAt(s.go).value) then n.fields.state == MoveAt(s.go).value
      else s.cancelled && n == s.(go := Returned(if MoveAt(s.go) == Some(Failed) then ByCredentials else ByRefusal))
  {
    MovesAccepted(s, asg, actions);
    ReachableInv(s, asg, actions);
    if s.go.Connect? {
      assert SessionOk(s, s.go.c.sess);
    }
  }

  /** The goroutine is about to look whether its context is done. */
  predicate AtCheck(pc: GoPc) {
    (pc.Loop? && (pc.l.CheckLoop? || pc.l.StartFailed?)) || (pc.Serve? && pc.v.AfterWait?)
  }

  /** Once the context is done, a goroutine that looks returns and leaves the instance as it is. */
  lemma CheckSeesCancel(s: Service, asg: bool, a: Action, n: Service)
    requires s.cancelled && AtCheck(s.go) && IsGo(a) && Step(s, asg, a) == Some(n)
    ensures n == s.(go := Returned(ByCancel))
  {
  }

  /** Once the context is done, a pause can end with the return at once. */
  lemma PauseEndsAtOnce(s: Service, asg: bool)
    requires s.cancelled && s.go == Loop(Pause)
    ensures Step(s, asg, GoGivesUp) == Some(s.(go := Returned(ByCancel)))
  {
  }

  // ----- DropSessions -----

  /** The goroutine leaves the stop and the drops alone, and takes back neither session x nor that it was told. */
  ghost predicate Kept(s: Service, n: Service, x: nat) {
    && n.stop == s.stop && n.drops == s.drops && n.cancelled == s.cancelled
    && (x in s.sessions ==> x in n.sessions && (s.sessions[x].told ==> n.sessions[x].told))
  }

  lemma LoopKeeps(s: Service, n: Service, pc: LoopPc, a: Action, x: nat)
    requires LoopStep(s, pc, a) == Some(n)
    ensures Kept(s, n, x) && n.sessions == s.sessions
  {
  }

  lemma CallKeeps(s: Service, n: Service, pc: ConnectPc, a: Action, x: nat)
    requires ConnectCall(s, pc, a) == Some(n)
    ensures Kept(s, n, x) && (x in s.sessions ==> n.sessions[x] == s.sessions[x])
  {
  }

  lemma CommitKeeps(s: Service, n: Service, pc: ConnectPc, x: nat)
    requires CommitStep(s, pc) == Some(n)
    ensures Kept(s, n, x)
    ensures x in s.sessions && n.sessions[x].told && !s.sessions[x].told ==> pc.StopFreshSession? && pc.sess == x
  {
  }

  lemma ServeKeeps(s: Service, n: Service, asg: bool, pc: ServePc, a: Action, x: nat)
    requires ServeStep(s, asg, pc, a) == Some(n)
    ensures Kept(s, n, x) && n.sessions == s.sessions
  {
  }

  lemma RetryKeeps(s: Service, n: Service, pc: RetryPc, x: nat)
    requires RetryStep(s, pc) == Some(n)
    ensures Kept(s, n, x) && n.sessions == s.sessions
  {
  }

  lemma GoKeeps(s: Service, n: Service, asg: bool, a: Action, x: nat)
    requires GoStep(s, asg, a) == Some(n)
    ensures Kept(s, n, x)
    ensures x in s.sessions && n.sessions[x].told && !s.sessions[x].told ==>
      a.Go? && s.go.Connect? && s.go.c.StopFreshSession? && s.go.c.sess == x
  {
    match s.go
    case Loop(pc) => LoopKeeps(s, n, pc, a, x);
    case Connect(pc) =>
      if a.Go? {
        CommitKeeps(s, n, pc, x);
      } else {
        CallKeeps(s, n, pc, a, x);
      }
    case Serve(pc) => ServeKeeps(s, n, asg, pc, a, x);
    case Retry(pc) => RetryKeeps(s, n, pc, x);
  }

  lemma ToldStays(s: Service, n: Service, asg: bool, a: Action, x: nat)
    requires Step(s, asg, a) == Some(n) && x in s.sessions
    ensures x in n.sessions && (s.sessions[x].told ==> n.sessions[x].told)
  {
    if IsGo(a) {
      GoKeeps(s, n, asg, a, x);
    }
  }

  lemma {:induction false} ToldStaysInRun(s: Service, n: Service, asg: bool, actions: seq<Action>, x: nat)
    requires Run(s, asg, actions) == Some(n) && x in s.sessions && s.sessions[x].told
    ensures x in n.sessions && n.sessions[x].told
    decreases |actions|
  {
    if actions != [] {
      var next := Step(s, asg, actions[0]).value;
      ToldStays(s, next, asg, actions[0], x);
      ToldStaysInRun(next, n, asg, actions[1..], x);
    }
  }

  /** Nobody but the `DropSessions` itself takes its session away or gives it one. */
  lemma DropWaits(s: Service, n: Service, asg: bool, a: Action, d: nat)
    requires Step(s, asg, a) == Some(n) && a != DropStop(d)
    ensures d in s.drops ==> d in n.drops && n.drops[d] == s.drops[d]
    ensures d !in s.drops && a != DropSnapshot(d) ==> d !in n.drops
  {
    if IsGo(a) {
      GoKeeps(s, n, asg, a, 0);
    }
  }

  lemma {:induction false} DropTells(s: Service, n: Service, asg: bool, more: seq<Action>, d: nat, x: nat)
    requires d in s.drops && s.drops[d] == x && x in s.sessions && Run(s, asg, more) == Some(n)
    ensures if DropStop(d) in more then x in n.sessions && n.sessions[x].told else d in n.drops && n.drops[d] == x
    decreases |more|
  {
    if more != [] {
      var next := Step(s, asg, more[0]).value;
      assert more == [more[0]] + more[1..];
      if more[0] == DropStop(d) {
        ToldStaysInRun(next, n, asg, more[1..], x);
      } else {
        DropWaits(s, next, asg, more[0], d);
        ToldStays(s, next, asg, more[0], x);
        DropTells(next, n, asg, more[1..], d, x);
      }
    }
  }

  /** A `DropSessions` that looks at the service while it is Connected and stores a session: whatever
      interleaves, its stop stays possible until it is made, and from then on that session has been told. */
  lemma DropStopsStored(actions: seq<Action>, s: Service, asg: bool, d: nat, n: Service, x: nat,
                        more: seq<Action>, m: Service)
    requires Run(INIT, asg, actions) == Some(s) && Step(s, asg, DropSnapshot(d)) == Some(n)
    requires s.fields.state.Connected? && s.fields.session == Some(x) && Run(n, asg, more) == Some(m)
    ensures if DropStop(d) in more then x in m.sessions && m.sessions[x].told else Step(m, asg, DropStop(d)).Some?
  {
    ReachableInv(s, asg, actions);
    assert SessionOk(s, x);
    DropTells(n, m, asg, more, d, x);
  }

  lemma {:induction false} NoTarget(s: Service, n: Service, asg: bool, more: seq<Action>, d: nat)
    requires d !in s.drops && Run(s, asg, more) == Some(n) && DropSnapshot(d) !in more
    ensures d !in n.drops && DropStop(d) !in more
    decreases |more|
  {
    if more != [] {
      var next := Step(s, asg, more[0]).value;
      assert more == [more[0]] + more[1..];
      DropWaits(s, next, asg, more[0], d);
      NoTarget(next, n, asg, more[1..], d);
    }
  }

  /** One that looks at it in any other state, or while no session is stored, changes nothing and tells no
      session to stop. */
  lemma DropPassesOver(actions: seq<Action>, s: Service, asg: bool, d: nat, n: Service, more: seq<Action>, m: Service)
    requires Run(INIT, asg, actions) == Some(s) && Step(s, asg, DropSnapshot(d)) == Some(n)
    requires !s.fields.state.Connected? || s.fields.session.None?
    requires Run(n, asg, more) == Some(m) && DropSnapshot(d) !in more
    ensures n == s && DropStop(d) !in more && Step(m, asg, DropStop(d)).None?
  {
    NoTarget(n, m, asg, more, d);
  }

  /** A session may end and the surrounding context may be cancelled at any moment, and a `DropSessions` may look
      whenever the mutex is free; it stops its session once. */
  lemma SurroundingsAreFree(s: Service, asg: bool, id: nat, d: nat)
    ensures id in s.sessions ==>
      var n := Step(s, asg, SessionEnds(id));
      n.Some? && id in n.value.sessions && n.value.sessions[id].ended
    ensures var n := Step(s, asg, ParentCancels); n.Some? && n.value.cancelled
    ensures !Locked(s) && d !in s.drops ==> Step(s, asg, DropSnapshot(d)).Some?
    ensures var n := Step(s, asg, DropStop(d)); if n.Some? then d !in n.value.drops else d !in s.drops
  {
  }

  /** A session is new, or it was there with the same end. */
  ghost predicate SameEnd(s: Service, n: Service, x: nat) {
    x in n.sessions ==> x in s.sessions && n.sessions[x].ended == s.sessions[x].ended
  }

  lemma CallStarts(s: Service, n: Service, pc: ConnectPc, a: Action, x: nat)
    requires ConnectCall(s, pc, a) == Some(n)
    ensures SameEnd(s, n, x) ||
      (pc.StartSession? && a == GoCreated(x) && x !in s.sessions && n.sessions[x] == Session(false, false, false))
  {
  }

  lemma CommitEndsNone(s: Service, n: Service, pc: ConnectPc, x: nat)
    requires CommitStep(s, pc) == Some(n)
    ensures SameEnd(s, n, x)
  {
  }

  lemma GoEndsNone(s: Service, n: Service, asg: bool, a: Action, x: nat)
    requires GoStep(s, asg, a) == Some(n)
    ensures SameEnd(s, n, x) ||
      (s.go == Connect(StartSession) && a == GoCreated(x) && x !in s.sessions &&
       n.sessions[x] == Session(false, false, false))
  {
    match s.go
    case Loop(pc) => LoopKeeps(s, n, pc, a, x);
    case Connect(pc) =>
      if a.Go? {
        CommitEndsNone(s, n, pc, x);
      } else {
        CallStarts(s, n, pc, a, x);
      }
    case Serve(pc) => ServeKeeps(s, n, asg, pc, a, x);
    case Retry(pc) => RetryKeeps(s, n, pc, x);
  }

  /** A session is begun by `connect` alone, neither told to stop nor ended nor committed; and it ends only when
      it ends by itself. */
  lemma SessionsBeginAndEnd(s: Service, n: Service, asg: bool, a: Action, x: nat)
    requires Step(s, asg, a) == Some(n) && x in n.sessions
    ensures x !in s.sessions ==>
      s.go == Connect(StartSession) && a == GoCreated(x) && n.sessions[x] == Session(false, false, false)
    ensures x in s.sessions && n.sessions[x].ended && !s.sessions[x].ended ==> a == SessionEnds(x)
  {
    if IsGo(a) {
      GoEndsNone(s, n, asg, a, x);
    }
  }

  /** While the context is live, only a `DropSessions` tells a committed session to stop, and only a failed
      `connect` its own fresh one. */
  lemma ToldByWhom(actions: seq<Action>, s: Service, asg: bool, a: Action, n: Service, x: nat)
    requires Run(INIT, asg, actions) == Some(s)
    requires Step(s, asg, a) == Some(n) && !n.cancelled && x in s.sessions && !s.sessions[x].told
    requires x in n.sessions && n.sessions[x].told
    ensures if s.sessions[x].committed then a.DropStop? && a.d in s.drops && s.drops[a.d] == x
      else a.Go? && s.go.Connect? && s.go.c.StopFreshSession? && s.go.c.sess == x
  {
    ReachableInv(s, asg, actions);
    assert SessionOk(s, x);
    if IsGo(a) {
      GoKeeps(s, n, asg, a, x);
    } else if a.DropStop? {
      assert DropOk(s, a.d);
    }
  }

  // ----- stopService -----

  /** How many steps `stopService` has left at most. */
  function StopRank(pc: StopPc): nat {
    match pc
    case NotStopped => 7
    case Cancelled => 6
    case EnterStopping(_, _) => 5
    case StopSession(_, _) => 4
    case TakeProxy(_) => 3
    case StopTaken(_, _) => 2
    case EnterDisconnected(_) => 1
    case StopDone(_) => 0
  }

  function StopSteps(actions: seq<Action>): nat {
    if actions == [] then 0 else Count(actions[0].StopStep?) + StopSteps(actions[1..])
  }

  lemma StopAdvances(s: Service, n: Service, asg: bool, a: Action)
    requires Step(s, asg, a) == Some(n)
    ensures StopRank(n.stop) + Count(a.StopStep?) <= StopRank(s.stop)
  {
    if IsGo(a) {
      GoKeeps(s, n, asg, a, 0);
    }
  }

  /** `stopService` makes at most seven steps. */
  lemma {:induction false} StopReturns(s: Service, n: Service, asg: bool, actions: seq<Action>)
    requires Run(s, asg, actions) == Some(n)
    ensures StopSteps(actions) + StopRank(n.stop) <= StopRank(s.stop)
    decreases |actions|
  {
    if actions != [] {
      var next := Step(s, asg, actions[0]).value;
      StopAdvances(s, next, asg, actions[0]);
      StopReturns(next, n, asg, actions[1..]);
    }
  }

  /** What a stop that has not returned waits for: its own step, or a goroutine that has to leave its commit. */
  function AwaitedStep(s: Service): Action {
    if Locked(s) && StopCall(s).None? then Go else StopStep
  }

  /** That step is always possible. */
  lemma StopNeverStuck(s: Service, asg: bool)
    requires !s.stop.StopDone?
    ensures Step(s, asg, AwaitedStep(s)).Some?
  {
  }

  /** What `stopService` read as the session is told before it returns. */
  ghost predicate StopHolds(s: Service, x: nat) {
    x in s.sessions &&
    match s.stop
    case EnterStopping(sess, _) => sess == Some(x)
    case StopSession(sess, _) => sess == Some(x)
    case NotStopped => false
    case Cancelled => false
    case _ => s.sessions[x].told
  }

  lemma StepKeepsStopHolds(s: Service, n: Service, asg: bool, a: Action, x: nat)
    requires StopHolds(s, x) && Step(s, asg, a) == Some(n)
    ensures StopHolds(n, x)
  {
    ToldStays(s, n, asg, a, x);
    if IsGo(a) {
      GoKeeps(s, n, asg, a, x);
    }
  }

  lemma {:induction false} RunKeepsStopHolds(s: Service, n: Service, asg: bool, more: seq<Action>, x: nat)
    requires StopHolds(s, x) && Run(s, asg, more) == Some(n)
    ensures StopHolds(n, x)
    decreases |more|
  {
    if more != [] {
      StepKeepsStopHolds(s, Step(s, asg, more[0]).value, asg, more[0], x);
      RunKeepsStopHolds(Step(s, asg, more[0]).value, n, asg, more[1..], x);
    }
  }

  /** The session that is stored when `stopService` looks has been told to stop when it returns, in every
      interleaving. */
  lemma StopTellsStored(actions: seq<Action>, s: Service, asg: bool, n: Service, x: nat, more: seq<Action>, m: Service)
    requires Run(INIT, asg, actions) == Some(s) && s.stop.Cancelled? && s.fields.session == Some(x)
    requires Step(s, asg, StopStep) == Some(n) && Run(n, asg, more) == Some(m) && m.stop.StopDone?
    ensures x in m.sessions && m.sessions[x].told && m.cancelled && m.fields.proxy.None?
  {
    ReachableInv(s, asg, actions);
    assert SessionOk(s, x);
    RunKeepsStopHolds(n, m, asg, more, x);
    StepKeepsInv(s, n, asg, StopStep);
    RunKeepsInv(n, m, asg, more);
  }
}
