/** The invariant of one service's life, kept by every step of every thread, and what follows from it. */
module LifecycleInvariant {
  import opened Wrappers
  import opened State
  import opened Lifecycle

  /** How far `stopService` is: it has not read the instance; it has, without moving it; it has moved
      it to Stopping; it has returned after that. */
  datatype Phase = Live | Unmoved | Moving | Gone

  function PhaseOf(stop: StopPc): Phase {
    match stop
    case NotStopped => Live
    case Cancelled => Live
    case EnterStopping(_, _) => Unmoved
    case StopSession(_, seen) => if seen.Disconnected? then Unmoved else Moving
    case TakeProxy(seen) => if seen.Disconnected? then Unmoved else Moving
    case StopTaken(_, seen) => if seen.Disconnected? then Unmoved else Moving
    case EnterDisconnected(seen) => if seen.Disconnected? then Unmoved else Moving
    case StopDone(seen) => if seen.Disconnected? then Unmoved else Gone
  }

  /** `stopService` has moved the service. */
  predicate Touched(stop: StopPc) {
    PhaseOf(stop).Moving? || PhaseOf(stop).Gone?
  }

  /** The state that the program counter implies as long as `stopService` has not moved the service. */
  predicate StateAt(pc: GoPc, st: ServiceState) {
    match pc
    case Loop(l) =>
      if l.StartFailed? then st.Starting? else if l.Pause? then st.Reconnecting?
        else st.Disconnected? || st.Reconnecting?
    case Connect(_) => st.Starting?
    case Serve(v) => if v.AfterReconnecting? || v.Invalidate? then st.Reconnecting? else st.Connected?
    case Retry(r) => st == r.from
    case Returned(why) => if why.ByCancel? then !st.Failed? && !st.Stopping? else why.ByCredentials? && st.Failed?
  }

  /** The goroutine has passed its context check before a stop, or has returned from there. */
  predicate StartedLate(pc: GoPc) {
    pc.Connect? || (pc.Loop? && pc.l.StartFailed?) || (pc.Returned? && pc.why.ByCancel?)
  }

  /** The state at each program counter, by the phase of the stop. */
  ghost predicate StateAtPhase(pc: GoPc, phase: Phase, st: ServiceState) {
    && (pc.Connect? && pc.c.CommitFields? ==> phase.Live?)
    && match phase
       case Live => StateAt(pc, st)
       case Unmoved => StateAt(pc, st)
       case Moving => st.Stopping?
       case Gone => st.Disconnected? || (st.Starting? && StartedLate(pc))
  }

  /** What the local variables of the goroutine hold at each program counter. */
  ghost predicate LocalsOk(s: Service) {
    && (s.go.Retry? ==>
          match s.go.r
          case RecordRetry(from, _) => from.Starting? || from.Connected?
          case EnterReconnecting(from, _) => from.Starting? || from.Connected?
          case RecordExpired(from) => from.Starting? || from.Reconnecting?
          case EnterFailed(from) => (from.Starting? || from.Reconnecting?) && s.fields.lastError.Expired?)
    && (s.go.Returned? && s.go.why.ByCredentials? ==> s.fields.lastError.Expired?)
    && (s.go.Returned? && s.go.why.ByCancel? ==> s.cancelled)
  }

  /** What `stopService` has read and done. */
  ghost predicate SeenOk(s: Service) {
    && (s.stop.NotStopped? || s.cancelled)
    && (s.stop.EnterStopping? ==> s.stop.seen.Disconnected? || !s.fields.state.Disconnected?)
    && (!s.stop.NotStopped? && !s.stop.Cancelled? ==> !s.stop.seen.Stopping?)
  }

  /** Where a goroutine can be with a cancelled context that never got as far as its commit, and in which state. */
  predicate EarlyAt(pc: GoPc, st: ServiceState) {
    match pc
    case Loop(l) => if l.StartFailed? then st.Starting? else !l.Pause? && st.Disconnected?
    case Connect(c) => st.Starting? && !c.CommitFields?
    case Returned(why) => why.ByCancel? && (st.Disconnected? || st.Starting?)
    case _ => false
  }

  /** A stop that read Disconnected leaves the state to the goroutine. */
  ghost predicate EarlyOk(s: Service) {
    !s.stop.NotStopped? && !s.stop.Cancelled? && s.stop.seen.Disconnected? ==> EarlyAt(s.go, s.fields.state)
  }

  ghost predicate StateInv(s: Service) {
    LocalsOk(s) && SeenOk(s) && StateAtPhase(s.go, PhaseOf(s.stop), s.fields.state) && EarlyOk(s)
  }

  /** The goroutine alone holds this session, started and not committed. */
  predicate HoldsFresh(pc: GoPc, id: nat) {
    pc.Connect? &&
    match pc.c
    case NewProxy(sess) => sess == id
    case AwaitLock(sess, _) => sess == id
    case CheckStop(sess, _) => sess == id
    case CommitFields(sess, _) => sess == id
    case StopFreshProxy(sess, _, _) => sess == id
    case StopFreshSession(sess, _) => sess == id
    case _ => false
  }

  predicate Settled(sess: Session) {
    sess.told || sess.ended
  }

  /** A session is settled, held by the goroutine before its commit, or stored in the instance. */
  ghost predicate SessionOk(s: Service, id: nat) {
    && (HoldsFresh(s.go, id) ==> id in s.sessions && !s.sessions[id].committed)
    && (s.fields.session == Some(id) ==> id in s.sessions && s.sessions[id].committed)
    && (id in s.sessions ==> Settled(s.sessions[id]) || HoldsFresh(s.go, id) || s.fields.session == Some(id))
  }

  /** Which session the instance stores, by program counter. */
  ghost predicate StoredOk(s: Service) {
    && (s.go.Serve? && s.go.v.AwaitEnd? ==> s.fields.session == Some(s.go.v.sess))
    && (s.go.Serve? && (s.go.v.AfterWait? || s.go.v.DetachFields?) ==>
          s.fields.session.Some? && (s.fields.session.value in s.sessions ==> s.sessions[s.fields.session.value].ended))
    && (s.fields.session.Some? ==>
          s.go.Returned? || (s.go.Serve? && (s.go.v.AwaitEnd? || s.go.v.AfterWait? || s.go.v.DetachFields?)))
  }

  ghost predicate DropOk(s: Service, d: nat) {
    d in s.drops ==> s.drops[d] in s.sessions && s.sessions[s.drops[d]].committed
  }

  ghost predicate SessionInv(s: Service) {
    && StoredOk(s)
    && (forall id :: SessionOk(s, id))
    && (forall d :: DropOk(s, d))
  }

  /** Once `stopService` has read the instance, it stops whatever session the instance still holds. */
  ghost predicate StopInv(s: Service) {
    && (s.stop.EnterStopping? || s.stop.StopSession? ==> s.fields.session.None? || s.fields.session == s.stop.stopSess)
    && (s.stop.TakeProxy? || s.stop.StopTaken? || s.stop.EnterDisconnected? || s.stop.StopDone? ==>
          s.fields.session.Some? && s.fields.session.value in s.sessions ==> s.sessions[s.fields.session.value].told)
    && (s.stop.StopTaken? || s.stop.EnterDisconnected? || s.stop.StopDone? ==> s.fields.proxy.None?)
  }

  predicate GoHoldsProxy(pc: GoPc, id: nat) {
    match pc
    case Connect(c) =>
      if c.AwaitLock? || c.CheckStop? || c.CommitFields? || c.StopFreshProxy? then c.proxy == id else false
    case Serve(v) => if v.StopDetached? then v.proxy == id else false
    case _ => false
  }

  function Count(b: bool): nat {
    if b then 1 else 0
  }

  /** In how many hands a proxy is: the goroutine's, the instance's, the stop's. */
  function Holders(s: Service, id: nat): nat {
    Count(GoHoldsProxy(s.go, id)) + Count(s.fields.proxy == Some(id)) + Count(s.stop.StopTaken? && s.stop.taken == id)
  }

  /** A proxy is in one hand until it is stopped, once. */
  ghost predicate ProxyOk(s: Service, id: nat) {
    Holders(s, id) + (if id in s.proxies then s.proxies[id].stops else 1) == 1
  }

  ghost predicate ProxyInv(s: Service) {
    && (forall id :: ProxyOk(s, id))
    && (s.fields.proxy.Some? ==> s.fields.session.Some?)
  }

  ghost predicate Inv(s: Service) {
    StateInv(s) && SessionInv(s) && StopInv(s) && ProxyInv(s)
  }

  lemma LoopKeepsState(s: Service, n: Service, pc: LoopPc, a: Action)
    requires StateInv(s) && s.go == Loop(pc) && LoopStep(s, pc, a) == Some(n)
    ensures StateInv(n)
  {
  }

  lemma LoopKeepsStored(s: Service, n: Service, pc: LoopPc, a: Action)
    requires StateInv(s) && SessionInv(s) && StopInv(s) && s.go == Loop(pc) && LoopStep(s, pc, a) == Some(n)
    ensures StoredOk(n) && StopInv(n)
  {
  }

  lemma LoopKeepsSession(s: Service, n: Service, pc: LoopPc, a: Action, i: nat)
    requires SessionInv(s) && s.go == Loop(pc) && LoopStep(s, pc, a) == Some(n)
    ensures SessionOk(n, i) && DropOk(n, i)
  {
    assert SessionOk(s, i) && DropOk(s, i);
  }

  lemma LoopKeepsProxy(s: Service, n: Service, pc: LoopPc, a: Action, i: nat)
    requires StoredOk(s) && ProxyInv(s) && s.go == Loop(pc) && LoopStep(s, pc, a) == Some(n)
    ensures ProxyOk(n, i)
    ensures n.fields.proxy.Some? ==> n.fields.session.Some?
  {
    assert ProxyOk(s, i);
  }

  lemma CommitKeepsState(s: Service, n: Service, pc: ConnectPc)
    requires StateInv(s) && s.go == Connect(pc) && CommitStep(s, pc) == Some(n)
    ensures StateInv(n)
  {
  }

  lemma CommitKeepsStored(s: Service, n: Service, pc: ConnectPc)
    requires StateInv(s) && SessionInv(s) && StopInv(s) && s.go == Connect(pc) && CommitStep(s, pc) == Some(n)
    ensures StoredOk(n) && StopInv(n)
  {
  }

  lemma CommitKeepsSession(s: Service, n: Service, pc: ConnectPc, i: nat)
    requires SessionInv(s) && s.go == Connect(pc) && CommitStep(s, pc) == Some(n)
    ensures SessionOk(n, i) && DropOk(n, i)
  {
    assert SessionOk(s, i) && DropOk(s, i);
  }

  lemma CommitKeepsProxy(s: Service, n: Service, pc: ConnectPc, i: nat)
    requires StoredOk(s) && ProxyInv(s) && s.go == Connect(pc) && CommitStep(s, pc) == Some(n)
    ensures ProxyOk(n, i)
    ensures n.fields.proxy.Some? ==> n.fields.session.Some?
  {
    assert ProxyOk(s, i);
  }

  lemma CallKeepsState(s: Service, n: Service, pc: ConnectPc, a: Action)
    requires StateInv(s) && s.go == Connect(pc) && ConnectCall(s, pc, a) == Some(n)
    ensures StateInv(n)
  {
  }

  lemma CallKeepsStored(s: Service, n: Service, pc: ConnectPc, a: Action)
    requires StateInv(s) && SessionInv(s) && StopInv(s) && s.go == Connect(pc) && ConnectCall(s, pc, a) == Some(n)
    ensures StoredOk(n) && StopInv(n)
  {
  }

  lemma CallKeepsSession(s: Service, n: Service, pc: ConnectPc, a: Action, i: nat)
    requires SessionInv(s) && s.go == Connect(pc) && ConnectCall(s, pc, a) == Some(n)
    ensures SessionOk(n, i) && DropOk(n, i)
  {
    assert SessionOk(s, i) && DropOk(s, i);
  }

  lemma CallKeepsProxy(s: Service, n: Service, pc: ConnectPc, a: Action, i: nat)
    requires StoredOk(s) && ProxyInv(s) && s.go == Connect(pc) && ConnectCall(s, pc, a) == Some(n)
    ensures ProxyOk(n, i)
    ensures n.fields.proxy.Some? ==> n.fields.session.Some?
  {
    assert ProxyOk(s, i);
  }

  lemma ServeKeepsState(s: Service, n: Service, asg: bool, pc: ServePc, a: Action)
    requires StateInv(s) && s.go == Serve(pc) && ServeStep(s, asg, pc, a) == Some(n)
    ensures StateInv(n)
  {
  }

  lemma ServeKeepsStored(s: Service, n: Service, asg: bool, pc: ServePc, a: Action)
    requires StateInv(s) && SessionInv(s) && StopInv(s) && s.go == Serve(pc) && ServeStep(s, asg, pc, a) == Some(n)
    ensures StoredOk(n) && StopInv(n)
  {
  }

  lemma ServeKeepsSession(s: Service, n: Service, asg: bool, pc: ServePc, a: Action, i: nat)
    requires SessionInv(s) && s.go == Serve(pc) && ServeStep(s, asg, pc, a) == Some(n)
    ensures SessionOk(n, i) && DropOk(n, i)
  {
    assert SessionOk(s, i) && DropOk(s, i);
  }

  lemma ServeKeepsProxy(s: Service, n: Service, asg: bool, pc: ServePc, a: Action, i: nat)
    requires StoredOk(s) && ProxyInv(s) && s.go == Serve(pc) && ServeStep(s, asg, pc, a) == Some(n)
    ensures ProxyOk(n, i)
    ensures n.fields.proxy.Some? ==> n.fields.session.Some?
  {
    assert ProxyOk(s, i);
  }

  lemma RetryKeepsState(s: Service, n: Service, pc: RetryPc)
    requires StateInv(s) && s.go == Retry(pc) && RetryStep(s, pc) == Some(n)
    ensures StateInv(n)
  {
  }

  lemma RetryKeepsStored(s: Service, n: Service, pc: RetryPc)
    requires StateInv(s) && SessionInv(s) && StopInv(s) && s.go == Retry(pc) && RetryStep(s, pc) == Some(n)
    ensures StoredOk(n) && StopInv(n)
  {
  }

  lemma RetryKeepsSession(s: Service, n: Service, pc: RetryPc, i: nat)
    requires SessionInv(s) && s.go == Retry(pc) && RetryStep(s, pc) == Some(n)
    ensures SessionOk(n, i) && DropOk(n, i)
  {
    assert SessionOk(s, i) && DropOk(s, i);
  }

  lemma RetryKeepsProxy(s: Service, n: Service, pc: RetryPc, i: nat)
    requires StoredOk(s) && ProxyInv(s) && s.go == Retry(pc) && RetryStep(s, pc) == Some(n)
    ensures ProxyOk(n, i)
    ensures n.fields.proxy.Some? ==> n.fields.session.Some?
  {
    assert ProxyOk(s, i);
  }

  lemma StopCallKeepsState(s: Service, n: Service)
    requires StateInv(s) && StopCall(s) == Some(n)
    ensures StateInv(n)
  {
  }

  lemma StopCallKeepsStored(s: Service, n: Service)
    requires StateInv(s) && SessionInv(s) && StopInv(s) && StopCall(s) == Some(n)
    ensures StoredOk(n) && StopInv(n)
  {
  }

  lemma StopCallKeepsSession(s: Service, n: Service, i: nat)
    requires SessionInv(s) && StopCall(s) == Some(n)
    ensures SessionOk(n, i) && DropOk(n, i)
  {
    assert SessionOk(s, i) && DropOk(s, i);
  }

  lemma StopCallKeepsProxy(s: Service, n: Service, i: nat)
    requires StoredOk(s) && ProxyInv(s) && StopCall(s) == Some(n)
    ensures ProxyOk(n, i)
    ensures n.fields.proxy.Some? ==> n.fields.session.Some?
  {
    assert ProxyOk(s, i);
    assert n.go == s.go && n.fields == s.fields;
    if !s.stop.StopTaken? {
      assert n.proxies == s.proxies && !n.stop.StopTaken?;
    }
  }

  lemma SectionKeepsState(s: Service, n: Service)
    requires StateInv(s) && StopSection(s) == Some(n) && !Locked(s)
    ensures StateInv(n)
  {
  }

  lemma SectionKeepsStored(s: Service, n: Service)
    requires StateInv(s) && SessionInv(s) && StopInv(s) && StopSection(s) == Some(n) && !Locked(s)
    ensures StoredOk(n) && StopInv(n)
  {
  }

  lemma SectionKeepsSession(s: Service, n: Service, i: nat)
    requires SessionInv(s) && StopSection(s) == Some(n) && !Locked(s)
    ensures SessionOk(n, i) && DropOk(n, i)
  {
    assert SessionOk(s, i) && DropOk(s, i);
  }

  lemma SectionKeepsProxy(s: Service, n: Service, i: nat)
    requires StoredOk(s) && ProxyInv(s) && StopSection(s) == Some(n) && !Locked(s)
    ensures ProxyOk(n, i)
    ensures n.fields.proxy.Some? ==> n.fields.session.Some?
  {
    assert ProxyOk(s, i);
  }

  lemma EnvironmentKeepsState(s: Service, n: Service, a: Action)
    requires StateInv(s) && EnvironmentStep(s, a) == Some(n)
    ensures StateInv(n)
  {
  }

  lemma EnvironmentKeepsStored(s: Service, n: Service, a: Action)
    requires StateInv(s) && SessionInv(s) && StopInv(s) && EnvironmentStep(s, a) == Some(n)
    ensures StoredOk(n) && StopInv(n)
  {
  }

  lemma EnvironmentKeepsSession(s: Service, n: Service, a: Action, i: nat)
    requires SessionInv(s) && EnvironmentStep(s, a) == Some(n)
    ensures SessionOk(n, i) && DropOk(n, i)
  {
    assert SessionOk(s, i) && DropOk(s, i);
    assert s.fields.session.Some? ==> SessionOk(s, s.fields.session.value);
  }

  lemma EnvironmentKeepsProxy(s: Service, n: Service, a: Action, i: nat)
    requires StoredOk(s) && ProxyInv(s) && EnvironmentStep(s, a) == Some(n)
    ensures ProxyOk(n, i)
    ensures n.fields.proxy.Some? ==> n.fields.session.Some?
  {
    assert ProxyOk(s, i);
  }

  lemma StepKeepsState(s: Service, n: Service, asg: bool, a: Action)
    requires StateInv(s) && Step(s, asg, a) == Some(n)
    ensures StateInv(n)
  {
    if IsGo(a) {
      match s.go
      case Loop(pc) => LoopKeepsState(s, n, pc, a);
      case Connect(pc) =>
        if a.Go? {
          CommitKeepsState(s, n, pc);
        } else {
          CallKeepsState(s, n, pc, a);
        }
      case Serve(pc) => ServeKeepsState(s, n, asg, pc, a);
      case Retry(pc) => RetryKeepsState(s, n, pc);
    } else if !a.StopStep? {
      EnvironmentKeepsState(s, n, a);
    } else if StopCall(s).Some? {
      StopCallKeepsState(s, n);
    } else {
      SectionKeepsState(s, n);
    }
  }

  lemma StepKeepsStored(s: Service, n: Service, asg: bool, a: Action)
    requires StateInv(s) && SessionInv(s) && StopInv(s) && Step(s, asg, a) == Some(n)
    ensures StoredOk(n) && StopInv(n)
  {
    if IsGo(a) {
      match s.go
      case Loop(pc) => LoopKeepsStored(s, n, pc, a);
      case Connect(pc) =>
        if a.Go? {
          CommitKeepsStored(s, n, pc);
        } else {
          CallKeepsStored(s, n, pc, a);
        }
      case Serve(pc) => ServeKeepsStored(s, n, asg, pc, a);
      case Retry(pc) => RetryKeepsStored(s, n, pc);
    } else if !a.StopStep? {
      EnvironmentKeepsStored(s, n, a);
    } else if StopCall(s).Some? {
      StopCallKeepsStored(s, n);
    } else {
      SectionKeepsStored(s, n);
    }
  }

  lemma StepKeepsSession(s: Service, n: Service, asg: bool, a: Action, i: nat)
    requires SessionInv(s) && Step(s, asg, a) == Some(n)
    ensures SessionOk(n, i) && DropOk(n, i)
  {
    if IsGo(a) {
      match s.go
      case Loop(pc) => LoopKeepsSession(s, n, pc, a, i);
      case Connect(pc) =>
        if a.Go? {
          CommitKeepsSession(s, n, pc, i);
        } else {
          CallKeepsSession(s, n, pc, a, i);
        }
      case Serve(pc) => ServeKeepsSession(s, n, asg, pc, a, i);
      case Retry(pc) => RetryKeepsSession(s, n, pc, i);
    } else if !a.StopStep? {
      EnvironmentKeepsSession(s, n, a, i);
    } else if StopCall(s).Some? {
      StopCallKeepsSession(s, n, i);
    } else {
      SectionKeepsSession(s, n, i);
    }
  }

  lemma StepKeepsProxy(s: Service, n: Service, asg: bool, a: Action, i: nat)
    requires StoredOk(s) && ProxyInv(s) && Step(s, asg, a) == Some(n)
    ensures ProxyOk(n, i)
    ensures n.fields.proxy.Some? ==> n.fields.session.Some?
  {
    if IsGo(a) {
      match s.go
      case Loop(pc) => LoopKeepsProxy(s, n, pc, a, i);
      case Connect(pc) =>
        if a.Go? {
          CommitKeepsProxy(s, n, pc, i);
        } else {
          CallKeepsProxy(s, n, pc, a, i);
        }
      case Serve(pc) => ServeKeepsProxy(s, n, asg, pc, a, i);
      case Retry(pc) => RetryKeepsProxy(s, n, pc, i);
    } else if !a.StopStep? {
      EnvironmentKeepsProxy(s, n, a, i);
    } else if StopCall(s).Some? {
      StopCallKeepsProxy(s, n, i);
    } else {
      SectionKeepsProxy(s, n, i);
    }
  }

  /** Every step of every thread keeps the invariant. */
  lemma StepKeepsInv(s: Service, n: Service, asg: bool, a: Action)
    requires Inv(s) && Step(s, asg, a) == Some(n)
    ensures Inv(n)
  {
    StepKeepsState(s, n, asg, a);
    StepKeepsStored(s, n, asg, a);
    forall i: nat
      ensures SessionOk(n, i) && DropOk(n, i) && ProxyOk(n, i)
      ensures n.fields.proxy.Some? ==> n.fields.session.Some?
    {
      StepKeepsSession(s, n, asg, a, i);
      StepKeepsProxy(s, n, asg, a, i);
    }
    StepKeepsProxy(s, n, asg, a, 0);
  }

  lemma {:induction false} RunKeepsInv(s: Service, n: Service, asg: bool, actions: seq<Action>)
    requires Inv(s) && Run(s, asg, actions) == Some(n)
    ensures Inv(n)
    decreases |actions|
  {
    if actions != [] {
      var next := Step(s, asg, actions[0]).value;
      StepKeepsInv(s, next, asg, actions[0]);
      RunKeepsInv(next, n, asg, actions[1..]);
    }
  }

  lemma ReachableInv(s: Service, asg: bool, actions: seq<Action>)
    requires Run(INIT, asg, actions) == Some(s)
    ensures Inv(s)
  {
    assert forall id: nat :: SessionOk(INIT, id) && DropOk(INIT, id) && ProxyOk(INIT, id);
    RunKeepsInv(INIT, s, asg, actions);
  }

  // ----- What holds in every interleaving -----

  lemma RestHoldsNothing(s: Service)
    requires Inv(s) && s.go.Returned? && s.stop.StopDone?
    ensures forall id :: id in s.sessions ==> Settled(s.sessions[id])
    ensures forall id :: id in s.proxies ==> s.proxies[id].stops == 1
  {
    forall id | id in s.sessions
      ensures Settled(s.sessions[id])
    {
      assert SessionOk(s, id);
    }
    forall id | id in s.proxies
      ensures s.proxies[id].stops == 1
    {
      assert ProxyOk(s, id);
    }
  }

  /** Once `stopService` and the goroutine have both returned, every session ever started has ended or
      was told to stop, and every proxy ever created was stopped, once. */
  lemma NothingLeaks(s: Service, asg: bool, actions: seq<Action>)
    requires Run(INIT, asg, actions) == Some(s) && s.go.Returned? && s.stop.StopDone?
    ensures forall id :: id in s.sessions ==> s.sessions[id].told || s.sessions[id].ended
    ensures forall id :: id in s.proxies ==> s.proxies[id].stops == 1
  {
    ReachableInv(s, asg, actions);
    RestHoldsNothing(s);
  }

  /** The goroutine returns only if its context was cancelled or an error was classified as expired
      credentials; in the second case without a cancel the service is left Failed with that error. */
  lemma ReturnsOnlyIf(s: Service, asg: bool, actions: seq<Action>)
    requires Run(INIT, asg, actions) == Some(s) && s.go.Returned? && !s.cancelled
    ensures s.go.why.ByCredentials? && s.fields.state.Failed? && s.fields.lastError.Expired?
  {
    ReachableInv(s, asg, actions);
  }

  /** The state that the goroutine's next step asks for, if that step is a move. */
  function MoveAt(pc: GoPc): Option<ServiceState> {
    match pc
    case Loop(l) => if l.EnterStarting? then Some(Starting) else None
    case Connect(c) => if c.CommitFields? then Some(Connected) else None
    case Retry(r) => if r.EnterReconnecting? then Some(Reconnecting) else if r.EnterFailed? then Some(Failed) else None
    case _ => None
  }

  /** A move of the goroutine is refused only after `stopService` moved the service, so never while the
      context is live; and no goroutine starts a service from Failed. */
  lemma MovesAccepted(s: Service, asg: bool, actions: seq<Action>)
    requires Run(INIT, asg, actions) == Some(s) && MoveAt(s.go).Some?
    ensures !Allowed(s.fields.state, MoveAt(s.go).value) ==> Touched(s.stop) && s.cancelled
    ensures MoveAt(s.go) == Some(Starting) ==> !s.fields.state.Failed?
    ensures MoveAt(s.go) == Some(Connected) ==> Allowed(s.fields.state, Connected)
  {
    ReachableInv(s, asg, actions);
  }

  /** While the context is live, the program counter fixes the state. */
  lemma PcFixesState(s: Service, asg: bool, actions: seq<Action>)
    requires Run(INIT, asg, actions) == Some(s) && !s.cancelled
    ensures StateAt(s.go, s.fields.state)
  {
    ReachableInv(s, asg, actions);
  }

  /** At most one committed session is neither ended nor told to stop, and it is the stored one. A
      proxy is never stopped twice. A held proxy implies a held session. */
  lemma OneLiveSession(s: Service, asg: bool, actions: seq<Action>)
    requires Run(INIT, asg, actions) == Some(s)
    ensures forall id :: id in s.sessions && s.sessions[id].committed && !Settled(s.sessions[id]) ==>
      s.fields.session == Some(id)
    ensures forall id :: id in s.proxies ==> s.proxies[id].stops <= 1
    ensures s.fields.proxy.Some? ==> s.fields.session.Some?
  {
    ReachableInv(s, asg, actions);
    forall id
      ensures id in s.sessions && s.sessions[id].committed && !Settled(s.sessions[id]) ==> s.fields.session == Some(id)
      ensures id in s.proxies ==> s.proxies[id].stops <= 1
    {
      assert SessionOk(s, id) && ProxyOk(s, id);
    }
  }

  /** `DropSessions` tells a session to stop only if that session was committed. */
  lemma DropsCommittedOnly(s: Service, asg: bool, actions: seq<Action>, d: nat)
    requires Run(INIT, asg, actions) == Some(s) && d in s.drops
    ensures s.drops[d] in s.sessions && s.sessions[s.drops[d]].committed
  {
    ReachableInv(s, asg, actions);
    assert DropOk(s, d);
  }

  /** The stop that read any state but Disconnected has both its moves accepted; the one that read
      Disconnected makes no first move and has the second one refused. */
  lemma StopCompletes(s: Service, asg: bool, actions: seq<Action>)
    requires Run(INIT, asg, actions) == Some(s)
    ensures s.stop.EnterStopping? && !s.stop.seen.Disconnected? ==>
              !s.stop.seen.Stopping? && Allowed(s.fields.state, Stopping)
    ensures s.stop.EnterDisconnected? ==> (Allowed(s.fields.state, Disconnected) <==> !s.stop.seen.Disconnected?)
  {
    ReachableInv(s, asg, actions);
  }

  /** After both returned, the service is Disconnected, or Starting when the goroutine noticed the cancel
      only after it had passed its context check. */
  lemma StateAfterStop(s: Service, asg: bool, actions: seq<Action>)
    requires Run(INIT, asg, actions) == Some(s) && s.stop.StopDone? && s.go.Returned?
    ensures s.fields.state.Disconnected? || (s.fields.state.Starting? && s.go.why.ByCancel?)
  {
    ReachableInv(s, asg, actions);
  }

  // ----- After the cancel -----

  /** An upper bound on the steps that the goroutine still makes once its context is done. */
  function Rank(pc: GoPc): nat {
    match pc
    case Loop(l) => LoopRank(l)
    case Connect(c) => ConnectRank(c)
    case Serve(v) => ServeRank(v)
    case Retry(r) =>
      if r.RecordRetry? then 12 else if r.EnterReconnecting? then 11 else if r.RecordExpired? then 8 else 7
    case Returned(_) => 0
  }

  function LoopRank(pc: LoopPc): nat {
    match pc
    case ReadFrom => 30
    case EnterStarting(_) => 29
    case StartFailed(_) => 17
    case Pause => 2
    case CheckLoop => 1
  }

  function ConnectRank(pc: ConnectPc): nat {
    match pc
    case AllocateIP => 28
    case AddDNS => 27
    case FreePort => 26
    case ResolveTarget => 25
    case StartSession => 24
    case NewProxy(_) => 23
    case AwaitLock(_, _) => 22
    case CheckStop(_, _) => 21
    case CommitFields(_, _) => 20
    case StopFreshProxy(_, _, _) => 19
    case StopFreshSession(_, _) => 18
  }

  function ServeRank(pc: ServePc): nat {
    match pc
    case AwaitEnd(_) => 16
    case AfterWait(_) => 15
    case DetachFields(_) => 14
    case StopDetached(_, _) => 13
    case AfterReconnecting(_) => 10
    case Invalidate => 9
  }

  lemma LoopDecreasesRank(s: Service, n: Service, pc: LoopPc, a: Action)
    requires s.cancelled && LoopStep(s, pc, a) == Some(n)
    ensures n.cancelled && Rank(n.go) < LoopRank(pc)
  {
  }

  lemma ConnectDecreasesRank(s: Service, n: Service, pc: ConnectPc, a: Action)
    requires s.cancelled && (CommitStep(s, pc) == Some(n) || ConnectCall(s, pc, a) == Some(n))
    ensures n.cancelled && Rank(n.go) < ConnectRank(pc)
  {
  }

  lemma ServeDecreasesRank(s: Service, n: Service, asg: bool, pc: ServePc, a: Action)
    requires s.cancelled && ServeStep(s, asg, pc, a) == Some(n)
    ensures n.cancelled && Rank(n.go) < ServeRank(pc)
  {
  }

  lemma StepDecreasesRank(s: Service, n: Service, asg: bool, a: Action)
    requires s.cancelled && IsGo(a) && GoStep(s, asg, a) == Some(n)
    ensures n.cancelled && Rank(n.go) < Rank(s.go)
  {
    match s.go
    case Loop(pc) => LoopDecreasesRank(s, n, pc, a);
    case Connect(pc) => ConnectDecreasesRank(s, n, pc, a);
    case Serve(pc) => ServeDecreasesRank(s, n, asg, pc, a);
    case Retry(_) =>
  }

  lemma OthersKeepRank(s: Service, n: Service, asg: bool, a: Action)
    requires s.cancelled && !IsGo(a) && Step(s, asg, a) == Some(n)
    ensures n.cancelled && n.go == s.go
  {
  }

  /** How many steps the goroutine makes in a run. */
  function GoSteps(actions: seq<Action>): nat {
    if actions == [] then 0 else Count(IsGo(actions[0])) + GoSteps(actions[1..])
  }

  /** The goroutine begins `connect`. */
  predicate Begins(s: Service, n: Service) {
    s.go.Loop? && n.go.Connect?
  }

  /** How many times `connect` begins in a run. */
  function Connects(s: Service, asg: bool, actions: seq<Action>): nat
    decreases |actions|
  {
    if actions == [] || Step(s, asg, actions[0]).None? then 0
    else
      var n := Step(s, asg, actions[0]).value;
      Count(Begins(s, n)) + Connects(n, asg, actions[1..])
  }

  /** Once the context is done, the goroutine makes a bounded number of steps and begins `connect` at
      most once, whatever the other threads do. */
  lemma {:induction false} CancelEndsGoroutine(s: Service, n: Service, asg: bool, actions: seq<Action>)
    requires s.cancelled && Run(s, asg, actions) == Some(n)
    ensures GoSteps(actions) + Rank(n.go) <= Rank(s.go)
    ensures Connects(s, asg, actions) <= Count(Rank(s.go) >= LoopRank(EnterStarting(Disconnected)))
    decreases |actions|
  {
    if actions != [] {
      var next := Step(s, asg, actions[0]).value;
      if IsGo(actions[0]) {
        StepDecreasesRank(s, next, asg, actions[0]);
      } else {
        OthersKeepRank(s, next, asg, actions[0]);
      }
      CancelEndsGoroutine(next, n, asg, actions[1..]);
    }
  }

  /** The goroutine waits for its session to end. */
  predicate WaitsForEnd(s: Service) {
    s.go.Serve? && s.go.v.AwaitEnd? && s.go.v.sess in s.sessions && !s.sessions[s.go.v.sess].ended
  }

  /** A goroutine that has not returned can step, unless it waits for its session to end; and after a
      completed stop that session was told to stop. */
  lemma NeverStuck(s: Service, asg: bool, actions: seq<Action>) returns (a: Action)
    requires Run(INIT, asg, actions) == Some(s) && !s.go.Returned?
    ensures IsGo(a) && (Step(s, asg, a).Some? || WaitsForEnd(s))
    ensures WaitsForEnd(s) && s.stop.StopDone? ==> s.sessions[s.go.v.sess].told
  {
    ReachableInv(s, asg, actions);
    if s.fields.session.Some? {
      assert SessionOk(s, s.fields.session.value);
    }
    a := if s.go.Connect? then
        match s.go.c {
          case AllocateIP => GoAllocated(None)
          case AddDNS => GoSucceeds
          case FreePort => GoSucceeds
          case ResolveTarget => GoSucceeds
          case StartSession => GoFails(Other)
          case NewProxy(_) => GoFails(Other)
          case _ => Go
        }
      else if s.go.Serve? && s.go.v.AwaitEnd? then GoWaited(NoError)
      else Go;
  }
}
