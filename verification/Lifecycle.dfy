/**
 The life of one service: its goroutine (`runService` and `connect`), one `stopService`, and any
 number of `DropSessions`, interleaved at the grain of the critical sections of the instance's
 mutex. The context check of `connect` is a step of its own inside that mutex, because `cancel`
 runs outside it.
*/
module Lifecycle {
  import opened Wrappers
  import opened State

  /** What the engine asks of an error: does it wrap one of the session package's two sentinels? */
  datatype Error = NoError | Expired | TargetGone | Other

  // ----- The fields under the mutex, and what each critical section does to them -----

  datatype Fields = Fields(state: ServiceState, session: Option<nat>, proxy: Option<nat>, lastError: Error)

  const FRESH := Fields(Disconnected, None, None, NoError)

  /** `serviceInstance.transition` */
  function Moved(f: Fields, to: ServiceState): Fields {
    if Allowed(f.state, to) then f.(state := to) else f
  }

  /** The commit of `connect`, once it has seen that the context is live. */
  function Committed(f: Fields, session: nat, proxy: nat): Fields {
    if Allowed(f.state, Connected) then Fields(Connected, Some(session), Some(proxy), NoError) else f
  }

  function Detached(f: Fields): Fields {
    f.(session := None, proxy := None)
  }

  function WithoutProxy(f: Fields): Fields {
    f.(proxy := None)
  }

  /** The instance object: one method per critical section. */
  class ServiceInstance {
    var state: ServiceState
    var session: Option<nat>
    var tcpProxy: Option<nat>
    var lastError: Error

    ghost function Contents(): Fields
      reads this
    {
      Fields(state, session, tcpProxy, lastError)
    }

    constructor ()
      ensures Contents() == FRESH
    {
      state, session, tcpProxy, lastError := Disconnected, None, None, NoError;
    }

    method Transition(to: ServiceState) returns (ok: bool)
      modifies this
      ensures Contents() == Moved(old(Contents()), to) && ok == Allowed(old(state), to)
    {
      ok := Allowed(state, to);
      if ok {
        state := to;
      }
    }

    /** The commit section of `connect`; `cancelled` is what its context check saw. */
    method Commit(cancelled: bool, sess: nat, proxy: nat) returns (committed: bool)
      modifies this
      ensures committed == (!cancelled && Allowed(old(state), Connected))
      ensures Contents() == if cancelled then old(Contents()) else Committed(old(Contents()), sess, proxy)
    {
      if cancelled || !Allowed(state, Connected) {
        return false;
      }
      state := Connected;
      session := Some(sess);
      tcpProxy := Some(proxy);
      lastError := NoError;
      committed := true;
    }

    method Detach() returns (proxy: Option<nat>)
      modifies this
      ensures Contents() == Detached(old(Contents())) && proxy == old(tcpProxy)
    {
      proxy := tcpProxy;
      tcpProxy := None;
      session := None;
    }

    method RecordError(err: Error)
      modifies this
      ensures Contents() == old(Contents()).(lastError := err)
    {
      lastError := err;
    }

    /** What `stopService` reads after it cancelled the context. */
    method Snapshot() returns (sess: Option<nat>, seen: ServiceState)
      ensures sess == session && seen == state
    {
      sess, seen := session, state;
    }

    method TakeProxy() returns (proxy: Option<nat>)
      modifies this
      ensures Contents() == WithoutProxy(old(Contents())) && proxy == old(tcpProxy)
    {
      proxy := tcpProxy;
      tcpProxy := None;
    }

    /** What `DropSessions` reads: the session it will stop, if any. */
    method DropTarget() returns (target: Option<nat>)
      ensures target == DropTargetOf(Contents())
      ensures target == session || target.None?
      ensures target.Some? <==> state.Connected? && session.Some?
    {
      target := if state.Connected? then session else None;
    }
  }

  function DropTargetOf(f: Fields): Option<nat> {
    if f.state.Connected? then f.session else None
  }

  // ----- The protocol -----

  /** Why the goroutine returned. */
  datatype Why = ByCancel | ByCredentials | ByRefusal

  /** `runService` around its calls. */
  datatype LoopPc =
    | CheckLoop
    | ReadFrom
    | EnterStarting(seenFrom: ServiceState)
    | StartFailed(startErr: Error)
    | Pause

  /** Inside `connect`. */
  datatype ConnectPc =
    | AllocateIP
    | AddDNS
    | FreePort
    | ResolveTarget
    | StartSession
    | NewProxy(sess: nat)
    | AwaitLock(sess: nat, proxy: nat)
    | CheckStop(sess: nat, proxy: nat)          // holds the mutex
    | CommitFields(sess: nat, proxy: nat)       // holds the mutex, saw a live context
    | StopFreshProxy(sess: nat, proxy: nat, err: Error)
    | StopFreshSession(sess: nat, err: Error)

  /** `runService` once `connect` has returned a session. */
  datatype ServePc =
    | AwaitEnd(sess: nat)
    | AfterWait(err: Error)
    | DetachFields(err: Error)
    | StopDetached(proxy: nat, err: Error)
    | AfterReconnecting(err: Error)
    | Invalidate

  /** Inside `reconnecting` or `credentialsExpired`, called in the state `from`. */
  datatype RetryPc =
    | RecordRetry(from: ServiceState, err: Error)
    | EnterReconnecting(from: ServiceState, err: Error)
    | RecordExpired(from: ServiceState)
    | EnterFailed(from: ServiceState)

  /** Where the goroutine stands, with its local variables. */
  datatype GoPc = Loop(l: LoopPc) | Connect(c: ConnectPc) | Serve(v: ServePc) | Retry(r: RetryPc) | Returned(why: Why)

  /** Where `stopService` stands, with its local variables. */
  datatype StopPc =
    | NotStopped
    | Cancelled
    | EnterStopping(stopSess: Option<nat>, seen: ServiceState)
    | StopSession(stopSess: Option<nat>, seen: ServiceState)
    | TakeProxy(seen: ServiceState)
    | StopTaken(taken: nat, seen: ServiceState)
    | EnterDisconnected(seen: ServiceState)
    | StopDone(seen: ServiceState)

  /** A started session; `committed` once it was stored in the instance. */
  datatype Session = Session(told: bool, ended: bool, committed: bool)

  /** A created proxy: the octet it listens on and how often it was stopped. */
  datatype Proxy = Proxy(ip: Option<int>, stops: nat)

  datatype Service = Service(
    fields: Fields,
    cancelled: bool,
    go: GoPc,
    ip: Option<int>,             // the local variable of `connect`; None is a nil address
    stop: StopPc,
    drops: map<nat, nat>,        // running DropSessions and the session each will stop
    sessions: map<nat, Session>,
    proxies: map<nat, Proxy>)

  const INIT := Service(FRESH, false, Loop(CheckLoop), None, NotStopped, map[], map[], map[])

  datatype Action =
    | Go                          // the goroutine's next step, or its timer
    | GoAllocated(octet: Option<int>)
    | GoSucceeds                  // the outside call succeeds
    | GoFails(err: Error)         // the outside call fails
    | GoCreated(id: nat)          // the outside call creates this session or proxy
    | GoWaited(waitErr: Error)
    | GoGivesUp                   // the pause ends because the context is done
    | StopStep
    | DropSnapshot(d: nat)
    | DropStop(d: nat)
    | SessionEnds(id: nat)
    | ParentCancels

  predicate Locked(s: Service) {
    s.go.Connect? && (s.go.c.CheckStop? || s.go.c.CommitFields?)
  }

  function Tell(s: Service, id: nat): Service {
    if id in s.sessions then s.(sessions := s.sessions[id := s.sessions[id].(told := true)]) else s
  }

  function StopProxy(s: Service, id: nat): Service {
    if id in s.proxies then s.(proxies := s.proxies[id := s.proxies[id].(stops := s.proxies[id].stops + 1)]) else s
  }

  function AtGo(s: Service, pc: GoPc): Service {
    s.(go := pc)
  }

  /** A step of `runService` before `connect`, after it failed, or in the pause. */
  function LoopStep(s: Service, pc: LoopPc, a: Action): Option<Service> {
    match pc
    case CheckLoop => OnGo(a, AtGo(s, if s.cancelled then Returned(ByCancel) else Loop(ReadFrom)))
    case ReadFrom => OnGo(a, AtGo(s, Loop(EnterStarting(s.fields.state))))
    case EnterStarting(_) =>
      OnGo(a, s.(fields := Moved(s.fields, Starting),
        go := if Allowed(s.fields.state, Starting) then Connect(AllocateIP) else Returned(ByRefusal)))
    case StartFailed(err) =>
      OnGo(a, AtGo(s,
        if s.cancelled then Returned(ByCancel)
        else if err.Expired? then Retry(RecordExpired(Starting))
        else Retry(RecordRetry(Starting, err))))
    case Pause =>
      if a.GoGivesUp? && s.cancelled then Some(AtGo(s, Returned(ByCancel))) else OnGo(a, AtGo(s, Loop(CheckLoop)))
  }

  function OnGo(a: Action, n: Service): Option<Service> {
    if a.Go? then Some(n) else None
  }

  predicate Failure(a: Action) {
    a.GoFails? && !a.err.NoError?
  }

  /** A call of `connect` to the outside; when it fails, what was created so far is cleaned up. */
  function ConnectCall(s: Service, pc: ConnectPc, a: Action): Option<Service> {
    match pc
    case AllocateIP => if a.GoAllocated? then Some(s.(ip := a.octet, go := Connect(AddDNS))) else None
    case AddDNS => Called(s, a, FreePort)
    case FreePort => Called(s, a, ResolveTarget)
    case ResolveTarget => Called(s, a, StartSession)
    case StartSession =>
      if Failure(a) then Some(AtGo(s, Loop(StartFailed(a.err))))
      else if a.GoCreated? && a.id !in s.sessions then
        Some(s.(sessions := s.sessions[a.id := Session(false, false, false)], go := Connect(NewProxy(a.id))))
      else None
    case NewProxy(sess) =>
      if Failure(a) then Some(AtGo(s, Connect(StopFreshSession(sess, a.err))))
      else if a.GoCreated? && a.id !in s.proxies then
        Some(s.(proxies := s.proxies[a.id := Proxy(s.ip, 0)], go := Connect(AwaitLock(sess, a.id))))
      else None
    case _ => None
  }

  /** An outside call without a result of its own. */
  function Called(s: Service, a: Action, next: ConnectPc): Option<Service> {
    if Failure(a) then Some(AtGo(s, Loop(StartFailed(a.err))))
    else if a.GoSucceeds? then Some(AtGo(s, Connect(next)))
    else None
  }

  /** The commit of `connect` and its deferred clean-up. */
  function CommitStep(s: Service, pc: ConnectPc): Option<Service> {
    match pc
    case AwaitLock(sess, proxy) => Some(AtGo(s, Connect(CheckStop(sess, proxy))))
    case CheckStop(sess, proxy) =>
      Some(AtGo(s, Connect(if s.cancelled then StopFreshProxy(sess, proxy, Other) else CommitFields(sess, proxy))))
    case CommitFields(sess, proxy) =>
      if Allowed(s.fields.state, Connected) && sess in s.sessions then
        Some(s.(fields := Committed(s.fields, sess, proxy), go := Serve(AwaitEnd(sess)),
          sessions := s.sessions[sess := s.sessions[sess].(committed := true)]))
      else
        Some(AtGo(s, Connect(StopFreshProxy(sess, proxy, Other))))
    case StopFreshProxy(sess, proxy, err) => Some(AtGo(StopProxy(s, proxy), Connect(StopFreshSession(sess, err))))
    case StopFreshSession(sess, err) => Some(AtGo(Tell(s, sess), Loop(StartFailed(err))))
    case _ => None
  }

  /** A step of `runService` that waits for the committed session or follows its end. */
  function ServeStep(s: Service, asg: bool, pc: ServePc, a: Action): Option<Service> {
    var f := s.fields;
    match pc
    case AwaitEnd(sess) =>
      if a.GoWaited? && sess in s.sessions && s.sessions[sess].ended then Some(AtGo(s, Serve(AfterWait(a.waitErr))))
        else None
    case AfterWait(err) => OnGo(a, AtGo(s, if s.cancelled then Returned(ByCancel) else Serve(DetachFields(err))))
    case DetachFields(err) =>
      OnGo(a, s.(fields := Detached(f),
        go := if f.proxy.Some? then Serve(StopDetached(f.proxy.value, err)) else Retry(RecordRetry(Connected, err))))
    case StopDetached(proxy, err) => OnGo(a, AtGo(StopProxy(s, proxy), Retry(RecordRetry(Connected, err))))
    case AfterReconnecting(err) =>
      OnGo(a, AtGo(s,
        if err.Expired? then Retry(RecordExpired(Reconnecting))
        else if err.TargetGone? && asg then Serve(Invalidate)
        else Loop(Pause)))
    case Invalidate => OnGo(a, AtGo(s, Loop(Pause)))
  }

  /** A step of `reconnecting` or of `credentialsExpired`. */
  function RetryStep(s: Service, pc: RetryPc): Option<Service> {
    var f := s.fields;
    match pc
    case RecordRetry(from, err) => Some(s.(fields := f.(lastError := err), go := Retry(EnterReconnecting(from, err))))
    case EnterReconnecting(from, err) =>
      Some(s.(fields := Moved(f, Reconnecting), go :=
        if !Allowed(f.state, Reconnecting) then Returned(ByRefusal)
        else if from.Connected? then Serve(AfterReconnecting(err))
        else Loop(Pause)))
    case RecordExpired(from) => Some(s.(fields := f.(lastError := Expired), go := Retry(EnterFailed(from))))
    case EnterFailed(_) => Some(s.(fields := Moved(f, Failed), go := Returned(ByCredentials)))
  }

  /** A step of the goroutine. */
  function GoStep(s: Service, asg: bool, a: Action): Option<Service> {
    match s.go
    case Loop(pc) => LoopStep(s, pc, a)
    case Connect(pc) => if a.Go? then CommitStep(s, pc) else ConnectCall(s, pc, a)
    case Serve(pc) => ServeStep(s, asg, pc, a)
    case Retry(pc) => if a.Go? then RetryStep(s, pc) else None
    case Returned(_) => None
  }

  /** A step of `stopService` outside the mutex. */
  function StopCall(s: Service): Option<Service> {
    match s.stop
    case NotStopped => Some(s.(cancelled := true, stop := Cancelled))
    case StopSession(sess, seen) => Some((if sess.Some? then Tell(s, sess.value) else s).(stop := TakeProxy(seen)))
    case StopTaken(proxy, seen) => Some(StopProxy(s, proxy).(stop := EnterDisconnected(seen)))
    case _ => None
  }

  /** A critical section of `stopService`. */
  function StopSection(s: Service): Option<Service> {
    var f := s.fields;
    match s.stop
    case Cancelled => Some(s.(stop := EnterStopping(f.session, f.state)))
    case EnterStopping(sess, seen) =>
      var moved := if !seen.Disconnected? && !seen.Stopping? then Moved(f, Stopping) else f;
      Some(s.(fields := moved, stop := StopSession(sess, seen)))
    case TakeProxy(seen) =>
      Some(s.(fields := WithoutProxy(f),
        stop := if f.proxy.Some? then StopTaken(f.proxy.value, seen) else EnterDisconnected(seen)))
    case EnterDisconnected(seen) => Some(s.(fields := Moved(f, Disconnected), stop := StopDone(seen)))
    case _ => None
  }

  /** A step of a `DropSessions`, or of what surrounds the engine. */
  function EnvironmentStep(s: Service, a: Action): Option<Service> {
    match a
    case DropSnapshot(d) =>
      if Locked(s) || d in s.drops then None
      else
        var target := DropTargetOf(s.fields);
        Some(if target.Some? then s.(drops := s.drops[d := target.value]) else s)
    case DropStop(d) =>
      if d !in s.drops then None else Some(Tell(s, s.drops[d]).(drops := s.drops - {d}))
    case SessionEnds(id) =>
      if id !in s.sessions then None
      else Some(s.(sessions := s.sessions[id := s.sessions[id].(ended := true)]))
    case ParentCancels => Some(s.(cancelled := true))
    case _ => None
  }

  predicate IsGo(a: Action) {
    a.Go? || a.GoAllocated? || a.GoSucceeds? || a.GoFails? || a.GoCreated? || a.GoWaited? || a.GoGivesUp?
  }

  /** One step of the service; None when the action is not possible. A critical section waits for the mutex. */
  function Step(s: Service, asg: bool, a: Action): Option<Service> {
    if IsGo(a) then GoStep(s, asg, a)
    else if !a.StopStep? then EnvironmentStep(s, a)
    else if StopCall(s).Some? then StopCall(s)
    else if Locked(s) then None
    else StopSection(s)
  }

  function Run(s: Service, asg: bool, actions: seq<Action>): Option<Service>
    decreases |actions|
  {
    if actions == [] then Some(s)
    else match Step(s, asg, actions[0])
      case Some(next) => Run(next, asg, actions[1..])
      case None => None
  }
}
