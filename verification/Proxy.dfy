/** Shutting down the TCP proxy while connections are accepted, dialled, tracked and copied. */
module Proxy {
  import opened Wrappers

  datatype Side = Src | Dst

  /** The two connections of a handler: the one it was given and the one that it dials. */
  datatype Conn = Conn(handler: nat, side: Side)

  /** Where a handler stands. Its deferred calls run in the order UntrackDst, CloseDst, UntrackSrc, CloseSrc. */
  datatype HandlerPc = Accepted | Dialing | Dialed | Copying | UntrackDst | CloseDst | UntrackSrc | CloseSrc | Done

  datatype AcceptPc = Accepting | Holding | AcceptReturned

  datatype StopPc = NotStopped | Marked(toClose: set<Conn>) | Closing(left: set<Conn>) | Waiting | StopReturned

  /** What `mu` guards. */
  datatype Tracked = Tracked(stopped: bool, conns: set<Conn>)

  datatype Proxy = Proxy(
    tracked: Tracked,
    listening: bool,
    accept: AcceptPc,
    handlers: seq<HandlerPc>,
    stop: StopPc,
    made: set<Conn>,
    closed: set<Conn>)

  /** `Track` and `Untrack` of the handler's current connection happen in the handler's own steps. */
  datatype Action =
    | Accept
    | AcceptFails
    | Spawn
    | Handler(i: nat, dialOk: bool)
    | StopMarks
    | StopClosesListener
    | StopCloses(conn: Conn)
    | StopWaits
    | StopReturns

  predicate CanTrack(t: Tracked) {
    !t.stopped
  }

  function Track(t: Tracked, c: Conn): Tracked {
    if t.stopped then t else t.(conns := t.conns + {c})
  }

  function Untrack(t: Tracked, c: Conn): Tracked {
    t.(conns := t.conns - {c})
  }

  function At(p: Proxy, i: nat, pc: HandlerPc): Proxy
    requires i < |p.handlers|
  {
    p.(handlers := p.handlers[i := pc])
  }

  /** The next step of handler i. Its copying may end whenever the peers end it. */
  function HandlerStep(p: Proxy, i: nat, dialOk: bool): Option<Proxy>
    requires i < |p.handlers|
  {
    var (src, dst) := (Conn(i, Src), Conn(i, Dst));
    match p.handlers[i]
    case Accepted =>
      Some(At(p, i, if CanTrack(p.tracked) then Dialing else CloseSrc).(tracked := Track(p.tracked, src)))
    case Dialing =>
      if dialOk then Some(At(p, i, Dialed).(made := p.made + {dst})) else Some(At(p, i, UntrackSrc))
    case Dialed => Some(At(p, i, if CanTrack(p.tracked) then Copying else CloseDst).(tracked := Track(p.tracked, dst)))
    case Copying => Some(At(p, i, UntrackDst))
    case UntrackDst => Some(At(p, i, CloseDst).(tracked := Untrack(p.tracked, dst)))
    case CloseDst => Some(At(p, i, UntrackSrc).(closed := p.closed + {dst}))
    case UntrackSrc => Some(At(p, i, CloseSrc).(tracked := Untrack(p.tracked, src)))
    case CloseSrc => Some(At(p, i, Done).(closed := p.closed + {src}))
    case Done => None
  }

  /** The wait group is at zero. */
  predicate AllReturned(p: Proxy) {
    p.accept.AcceptReturned? && forall i :: 0 <= i < |p.handlers| ==> p.handlers[i].Done?
  }

  /** One step, or None when it cannot happen now. An `Accept` that was under way when the listener was
      closed may still hand over a connection: the loop then stands at `Holding`. */
  function Step(p: Proxy, a: Action): Option<Proxy> {
    match a
    case Accept =>
      if p.accept.Accepting? && p.listening
      then Some(p.(accept := Holding, made := p.made + {Conn(|p.handlers|, Src)}))
      else None
    case AcceptFails => if p.accept.Accepting? then Some(p.(accept := AcceptReturned)) else None
    case Spawn => if p.accept.Holding? then Some(p.(accept := Accepting, handlers := p.handlers + [Accepted])) else None
    case Handler(i, dialOk) => if i < |p.handlers| then HandlerStep(p, i, dialOk) else None
    case StopMarks =>
      if p.stop.NotStopped? then Some(p.(stop := Marked(p.tracked.conns), tracked := p.tracked.(stopped := true)))
        else None
    case StopClosesListener =>
      if p.stop.Marked? then Some(p.(stop := Closing(p.stop.toClose), listening := false)) else None
    case StopCloses(c) =>
      if p.stop.Closing? && c in p.stop.left
      then Some(p.(stop := Closing(p.stop.left - {c}), closed := p.closed + {c}))
      else None
    case StopWaits => if p.stop.Closing? && p.stop.left == {} then Some(p.(stop := Waiting)) else None
    case StopReturns => if p.stop.Waiting? && AllReturned(p) then Some(p.(stop := StopReturned)) else None
  }

  /** A proxy whose `Start` succeeded. */
  function Started(): Proxy {
    Proxy(Tracked(false, {}), true, Accepting, [], NotStopped, {}, {})
  }

  function Run(acts: seq<Action>): Option<Proxy> {
    if acts == [] then Some(Started())
    else match Run(acts[..|acts| - 1]) case None => None case Some(p) => Step(p, acts[|acts| - 1])
  }

  // ----- The invariant -----

  /** Which of a handler's connections are tracked, open and closed, from where it stands. */
  ghost predicate HandlerOk(p: Proxy, i: nat)
    requires i < |p.handlers|
  {
    var (src, dst, pc) := (Conn(i, Src), Conn(i, Dst), p.handlers[i]);
    && src in p.made
    && (src in p.tracked.conns <==> !pc.Accepted? && !pc.CloseSrc? && !pc.Done?)
    && (dst in p.tracked.conns <==> pc.Copying? || pc.UntrackDst?)
    && (pc.Dialed? || pc.Copying? || pc.UntrackDst? || pc.CloseDst? ==> dst in p.made)
    && (pc.Accepted? || pc.Dialing? ==> dst !in p.made)
    && (pc.UntrackSrc? || pc.CloseSrc? || pc.Done? ==> dst in p.made ==> dst in p.closed)
    && (pc.Done? ==> src in p.closed)
  }

  ghost predicate Known(p: Proxy, c: Conn) {
    c.handler < |p.handlers| || (c == Conn(|p.handlers|, Src) && p.accept.Holding?)
  }

  function Left(s: StopPc): set<Conn> {
    if s.Marked? then s.toClose else if s.Closing? then s.left else {}
  }

  ghost predicate StopOk(p: Proxy) {
    && (p.tracked.stopped <==> !p.stop.NotStopped?)
    && (p.tracked.stopped ==> forall c :: c in p.tracked.conns ==> c in Left(p.stop) || c in p.closed)
    && (p.listening <==> p.stop.NotStopped? || p.stop.Marked?)
    && (p.stop.StopReturned? ==> AllReturned(p))
    && Left(p.stop) <= p.made
  }

  ghost predicate ConnsOk(p: Proxy) {
    && p.tracked.conns <= p.made
    && p.closed <= p.made
    && (forall c :: c in p.tracked.conns ==> c.handler < |p.handlers|)
    && (forall c :: c in p.made ==> Known(p, c))
    && (p.accept.Holding? ==> Conn(|p.handlers|, Src) in p.made)
  }

  ghost predicate Inv(p: Proxy) {
    StopOk(p) && ConnsOk(p) && forall i :: 0 <= i < |p.handlers| ==> HandlerOk(p, i)
  }

  lemma StepKeepsStop(p: Proxy, a: Action, n: Proxy)
    requires Inv(p) && Step(p, a) == Some(n)
    ensures StopOk(n)
  {
  }

  lemma StepKeepsConns(p: Proxy, a: Action, n: Proxy)
    requires Inv(p) && Step(p, a) == Some(n)
    ensures ConnsOk(n)
  {
    if a.Handler? {
      assert HandlerOk(p, a.i);
    }
    forall c | c in n.made
      ensures Known(n, c)
    {
      assert c in p.made ==> Known(p, c);
    }
  }

  lemma OwnStepKeepsHandler(p: Proxy, i: nat, dialOk: bool, n: Proxy)
    requires Inv(p) && i < |p.handlers| && HandlerStep(p, i, dialOk) == Some(n)
    ensures i < |n.handlers| && HandlerOk(n, i)
  {
    assert HandlerOk(p, i);
  }

  lemma OtherStepKeepsHandler(p: Proxy, i: nat, j: nat, dialOk: bool, n: Proxy)
    requires Inv(p) && i != j && i < |p.handlers| && j < |p.handlers| && HandlerStep(p, j, dialOk) == Some(n)
    ensures i < |n.handlers| && HandlerOk(n, i)
  {
    assert HandlerOk(p, i) && HandlerOk(p, j);
  }

  lemma StepKeepsHandlers(p: Proxy, a: Action, n: Proxy, i: nat)
    requires Inv(p) && Step(p, a) == Some(n) && i < |n.handlers|
    ensures HandlerOk(n, i)
  {
    if a.Handler? && a.i == i {
      OwnStepKeepsHandler(p, i, a.dialOk, n);
    } else if a.Handler? {
      OtherStepKeepsHandler(p, i, a.i, a.dialOk, n);
    } else if i < |p.handlers| {
      assert HandlerOk(p, i);
    } else {
      assert Conn(i, Dst) in p.made ==> Known(p, Conn(i, Dst));
    }
  }

  lemma StepKeepsInv(p: Proxy, a: Action, n: Proxy)
    requires Inv(p) && Step(p, a) == Some(n)
    ensures Inv(n)
  {
    StepKeepsStop(p, a, n);
    StepKeepsConns(p, a, n);
    forall i | 0 <= i < |n.handlers|
      ensures HandlerOk(n, i)
    {
      StepKeepsHandlers(p, a, n, i);
    }
  }

  lemma {:induction false} Reachable(acts: seq<Action>, p: Proxy)
    requires Run(acts) == Some(p)
    ensures Inv(p)
  {
    if acts != [] {
      var before := Run(acts[..|acts| - 1]).value;
      Reachable(acts[..|acts| - 1], before);
      StepKeepsInv(before, acts[|acts| - 1], p);
    }
  }

  // ----- The theorems -----

  /** When `Stop` is at its final wait, a handler that copies, or comes to copy later, has both of its
      connections closed, and the listener accepts no more. */
  lemma WaitsOnNothingOpen(acts: seq<Action>, p: Proxy)
    requires Run(acts) == Some(p) && (p.stop.Waiting? || p.stop.StopReturned?)
    ensures forall i :: 0 <= i < |p.handlers| && p.handlers[i].Copying? ==>
      Conn(i, Src) in p.closed && Conn(i, Dst) in p.closed
    ensures Step(p, Accept).None?
  {
    Reachable(acts, p);
    forall i | 0 <= i < |p.handlers| && p.handlers[i].Copying?
      ensures Conn(i, Src) in p.closed && Conn(i, Dst) in p.closed
    {
      assert HandlerOk(p, i);
    }
  }

  /** Once `Stop` returned, every connection that was ever accepted or dialled is closed, none is tracked,
      and no step is left to anyone. */
  lemma StopLeavesNothing(acts: seq<Action>, p: Proxy)
    requires Run(acts) == Some(p) && p.stop.StopReturned?
    ensures p.closed == p.made && p.tracked.conns == {}
    ensures forall a :: Step(p, a).None?
  {
    Reachable(acts, p);
    forall c | c in p.made
      ensures c in p.closed && c !in p.tracked.conns
    {
      assert Known(p, c) && HandlerOk(p, c.handler);
      assert c.side.Src? || c.side.Dst?;
      assert c == if c.side.Src? then Conn(c.handler, Src) else Conn(c.handler, Dst);
    }
  }

  // ----- Serving -----

  /** The outcomes that the dialler would have at the handler's own steps so far, one for each step. */
  function OwnSteps(acts: seq<Action>, i: nat): seq<bool> {
    if acts == [] then []
    else
      var (before, a) := (OwnSteps(acts[..|acts| - 1], i), acts[|acts| - 1]);
      if a.Handler? && a.i == i then before + [a.dialOk] else before
  }

  /** The places of a handler whose dial succeeds, and of one whose dial fails. */
  const SERVED := [Accepted, Dialing, Dialed, Copying, UntrackDst, CloseDst, UntrackSrc, CloseSrc, Done]
  const REFUSED := [Accepted, Dialing, UntrackSrc, CloseSrc, Done]

  function Way(own: seq<bool>): seq<HandlerPc> {
    if |own| >= 2 && !own[1] then REFUSED else SERVED
  }

  predicate OnWay(pc: HandlerPc, own: seq<bool>) {
    |own| < |Way(own)| && pc == Way(own)[|own|]
  }

  /** As long as `Stop` has not marked the proxy, a handler closes what it has made, at its end. */
  ghost predicate OpenOk(p: Proxy, own: seq<bool>, i: nat)
    requires i < |p.handlers|
  {
    var (src, dst, pc) := (Conn(i, Src), Conn(i, Dst), p.handlers[i]);
    && (src in p.closed <==> pc.Done?)
    && (dst in p.closed ==> pc.UntrackSrc? || pc.CloseSrc? || pc.Done?)
    && (dst in p.made <==> |own| >= 2 && own[1])
  }

  ghost predicate ServeOk(p: Proxy, own: seq<bool>, i: nat) {
    if i >= |p.handlers| then own == [] && (!p.tracked.stopped ==> Conn(i, Src) !in p.closed)
    else !p.tracked.stopped ==> OnWay(p.handlers[i], own) && OpenOk(p, own, i)
  }

  lemma OwnStepServes(p: Proxy, own: seq<bool>, i: nat, dialOk: bool, n: Proxy)
    requires Inv(p) && i < |p.handlers| && HandlerStep(p, i, dialOk) == Some(n) && ServeOk(p, own, i)
    ensures ServeOk(n, own + [dialOk], i)
  {
    assert HandlerOk(p, i);
  }

  /** What a step of handler j changes is its own. */
  ghost predicate OnlyTouches(p: Proxy, j: nat, n: Proxy)
    requires j < |p.handlers|
  {
    && n.tracked.stopped == p.tracked.stopped
    && |n.handlers| == |p.handlers| && (forall i :: 0 <= i < |p.handlers| && i != j ==> n.handlers[i] == p.handlers[i])
    && (forall c: Conn :: c.handler != j ==> (c in n.made <==> c in p.made) && (c in n.closed <==> c in p.closed))
  }

  lemma HandlerTouchesOwn(p: Proxy, j: nat, dialOk: bool, n: Proxy)
    requires j < |p.handlers| && HandlerStep(p, j, dialOk) == Some(n)
    ensures OnlyTouches(p, j, n)
  {
  }

  lemma OtherHandlerServes(p: Proxy, own: seq<bool>, j: nat, i: nat, n: Proxy)
    requires j < |p.handlers| && OnlyTouches(p, j, n) && ServeOk(p, own, i) && i != j
    ensures ServeOk(n, own, i)
  {
  }

  lemma SpawnServes(p: Proxy, own: seq<bool>, i: nat, n: Proxy)
    requires Inv(p) && Step(p, Spawn) == Some(n) && ServeOk(p, own, i)
    ensures ServeOk(n, own, i)
  {
    if i == |p.handlers| {
      assert Conn(i, Dst) in p.made ==> Known(p, Conn(i, Dst));
    }
  }

  lemma OtherStepServes(p: Proxy, own: seq<bool>, a: Action, i: nat, n: Proxy)
    requires Inv(p) && Step(p, a) == Some(n) && ServeOk(p, own, i) && !a.Handler? && !a.Spawn?
    ensures ServeOk(n, own, i)
  {
  }

  lemma {:induction false} RunServes(acts: seq<Action>, p: Proxy, i: nat)
    requires Run(acts) == Some(p)
    ensures ServeOk(p, OwnSteps(acts, i), i)
  {
    if acts != [] {
      var (before, a) := (acts[..|acts| - 1], acts[|acts| - 1]);
      var (was, own) := (Run(before).value, OwnSteps(before, i));
      Reachable(before, was);
      RunServes(before, was, i);
      if a.Handler? && a.i == i {
        OwnStepServes(was, own, i, a.dialOk, p);
      } else if a.Handler? {
        HandlerTouchesOwn(was, a.i, a.dialOk, p);
        OtherHandlerServes(was, own, a.i, i, p);
      } else if a.Spawn? {
        SpawnServes(was, own, i, p);
      } else {
        OtherStepServes(was, own, a, i, p);
      }
    }
  }

  /** As long as `Stop` has not marked the proxy, where a handler stands is decided by its own steps and its
      dial alone: after a dial that succeeds it copies before it closes anything, between two open connections
      that `Stop` could close, for as long as it makes no step; after one that fails it closes what it was given. */
  lemma HandlerServes(acts: seq<Action>, p: Proxy, i: nat)
    requires Run(acts) == Some(p) && p.stop.NotStopped? && i < |p.handlers|
    ensures var own := OwnSteps(acts, i);
      |own| < |Way(own)| && p.handlers[i] == Way(own)[|own|]
    ensures p.handlers[i].Copying? ==>
      {Conn(i, Src), Conn(i, Dst)} <= p.made && {Conn(i, Src), Conn(i, Dst)} <= p.tracked.conns &&
      {Conn(i, Src), Conn(i, Dst)} !! p.closed
  {
    Reachable(acts, p);
    RunServes(acts, p, i);
    assert HandlerOk(p, i);
  }

  /** At some moment of the run the handler was copying. */
  ghost predicate Copied(acts: seq<Action>, i: nat) {
    exists k: nat ::
      k <= |acts| && Run(acts[..k]).Some? && i < |Run(acts[..k]).value.handlers| &&
      Run(acts[..k]).value.handlers[i].Copying?
  }

  lemma StopMarksOnce(p: Proxy, a: Action, n: Proxy)
    requires Step(p, a) == Some(n) && n.stop.NotStopped?
    ensures p.stop.NotStopped?
  {
  }

  /** The run up to the moment at which handler i had made k of its steps. */
  lemma {:induction false} MomentOf(acts: seq<Action>, p: Proxy, i: nat, k: nat) returns (m: nat, was: Proxy)
    requires Run(acts) == Some(p) && p.stop.NotStopped? && k <= |OwnSteps(acts, i)|
    ensures m <= |acts| && Run(acts[..m]) == Some(was) && OwnSteps(acts[..m], i) == OwnSteps(acts, i)[..k]
    ensures was.stop.NotStopped?
  {
    m, was := |acts|, p;
    assert acts[..m] == acts;
    if k < |OwnSteps(acts, i)| {
      var before := acts[..m - 1];
      was := Run(before).value;
      StopMarksOnce(was, acts[m - 1], p);
      assert OwnSteps(before, i)[..k] == OwnSteps(acts, i)[..k];
      m, was := MomentOf(before, was, i, k);
      assert acts[..m] == before[..m];
    }
  }

  /** On a way on which the dial succeeded, the third step leads to the copying, and closing comes later. */
  lemma CopiesThird(pc: HandlerPc, own: seq<bool>)
    requires OnWay(pc, own) && |own| >= 2 && own[1]
    ensures |own| == 3 ==> pc.Copying?
    ensures pc.UntrackSrc? || pc.CloseSrc? || pc.Done? ==> |own| >= 3
  {
  }

  /** So a handler that closes a connection it dialled has copied, unless `Stop` has marked the proxy. */
  lemma ClosesAfterCopying(acts: seq<Action>, p: Proxy, i: nat)
    requires Run(acts) == Some(p) && Conn(i, Dst) in p.closed
    ensures Copied(acts, i) || p.tracked.stopped
  {
    Reachable(acts, p);
    assert Known(p, Conn(i, Dst));
    if !p.tracked.stopped {
      var own := OwnSteps(acts, i);
      RunServes(acts, p, i);
      CopiesThird(p.handlers[i], own);
      var m, was := MomentOf(acts, p, i, 3);
      RunServes(acts[..m], was, i);
      Reachable(acts[..m], was);
      CopiesThird(was.handlers[i], own[..3]);
    }
  }

  /** How many connections the listener has handed over. */
  function Accepts(acts: seq<Action>): nat {
    if acts == [] then 0
    else Accepts(acts[..|acts| - 1]) + if acts[|acts| - 1].Accept? then 1 else 0
  }

  lemma StepAccepts(p: Proxy, a: Action, n: Proxy)
    requires Step(p, a) == Some(n)
    ensures |n.handlers| + (if n.accept.Holding? then 1 else 0) ==
      |p.handlers| + (if p.accept.Holding? then 1 else 0) + if a.Accept? then 1 else 0
    ensures n.accept.AcceptReturned? ==> a.AcceptFails? || p.accept.AcceptReturned?
  {
  }

  /** Each accepted connection gets a handler of its own, and the loop accepts on as long as it is not made to
      fail. */
  lemma {:induction false} EachGetsHandler(acts: seq<Action>, p: Proxy)
    requires Run(acts) == Some(p)
    ensures Accepts(acts) == |p.handlers| + if p.accept.Holding? then 1 else 0
    ensures p.accept.Holding? ==> Step(p, Spawn).Some?
    ensures AcceptFails !in acts ==> !p.accept.AcceptReturned?
    ensures p.accept.Accepting? && p.stop.NotStopped? ==> Step(p, Accept).Some?
  {
    Reachable(acts, p);
    if acts != [] {
      var before := Run(acts[..|acts| - 1]).value;
      StepAccepts(before, acts[|acts| - 1], p);
      EachGetsHandler(acts[..|acts| - 1], before);
    }
  }

  /** `Stop` can begin at any moment, and takes everything that is tracked then. */
  lemma StopMayBegin(acts: seq<Action>, p: Proxy)
    requires Run(acts) == Some(p) && p.stop.NotStopped?
    ensures var n := Step(p, StopMarks);
      n.Some? && n.value.stop == Marked(p.tracked.conns) && n.value.tracked.stopped && n.value.handlers == p.handlers
  {
  }

  function HandlerRank(pc: HandlerPc): nat {
    match pc
    case Accepted => 8
    case Dialing => 7
    case Dialed => 6
    case Copying => 5
    case UntrackDst => 4
    case CloseDst => 3
    case UntrackSrc => 2
    case CloseSrc => 1
    case Done => 0
  }

  function HandlersRank(handlers: seq<HandlerPc>): nat {
    if handlers == [] then 0 else HandlersRank(handlers[..|handlers| - 1]) + HandlerRank(handlers[|handlers| - 1])
  }

  /** How many steps are left at most once `Stop` closed the listener. */
  function Rank(p: Proxy): nat {
    HandlersRank(p.handlers)
    + (match p.accept case Holding => 10 case Accepting => 1 case AcceptReturned => 0)
    + if p.stop.StopReturned? then 0 else if p.stop.Waiting? then 1 else 2 + |Left(p.stop)|
  }

  lemma {:induction false} RankOfUpdate(handlers: seq<HandlerPc>, i: nat, pc: HandlerPc)
    requires i < |handlers|
    ensures HandlersRank(handlers[i := pc]) == HandlersRank(handlers) - HandlerRank(handlers[i]) + HandlerRank(pc)
  {
    var k := |handlers| - 1;
    if i < k {
      RankOfUpdate(handlers[..k], i, pc);
      assert handlers[i := pc][..k] == handlers[..k][i := pc];
    } else {
      assert handlers[i := pc][..k] == handlers[..k];
    }
  }

  lemma StepOfHandler(p: Proxy, i: nat, dialOk: bool, n: Proxy)
    requires i < |p.handlers| && HandlerStep(p, i, dialOk) == Some(n)
    ensures |n.handlers| == |p.handlers| && n.handlers == p.handlers[i := n.handlers[i]]
    ensures HandlerRank(n.handlers[i]) < HandlerRank(p.handlers[i])
    ensures n.accept == p.accept && n.stop == p.stop && n.listening == p.listening
  {
  }

  /** After the listener is closed, whatever happens brings `Stop` nearer to its return. */
  lemma EveryStepCounts(p: Proxy, a: Action, n: Proxy)
    requires Inv(p) && !p.listening && Step(p, a) == Some(n)
    ensures !n.listening && Rank(n) < Rank(p)
  {
    match a
    case Handler(i, dialOk) =>
      StepOfHandler(p, i, dialOk, n);
      RankOfUpdate(p.handlers, i, n.handlers[i]);
    case Spawn => assert n.handlers[..|p.handlers|] == p.handlers;
    case _ =>
  }

  /** A step for which no peer of a connection has to do anything: neither an `Accept` nor the end of a copy
      between connections that are not both closed. */
  predicate OnItsOwn(p: Proxy, a: Action) {
    !a.Accept? &&
    (a.Handler? && a.i < |p.handlers| && p.handlers[a.i].Copying? ==>
      Conn(a.i, Src) in p.closed && Conn(a.i, Dst) in p.closed)
  }

  /** Until `Stop` has returned, some step can happen on its own. */
  lemma StopIsNeverStuck(acts: seq<Action>, p: Proxy) returns (a: Action)
    requires Run(acts) == Some(p) && !p.stop.StopReturned? && !p.stop.NotStopped?
    ensures Step(p, a).Some? && OnItsOwn(p, a)
  {
    Reachable(acts, p);
    match p.stop
    case Marked(_) => a := StopClosesListener;
    case Closing(left) =>
      if c :| c in left {
        a := StopCloses(c);
      } else {
        a := StopWaits;
      }
    case Waiting =>
      if i: nat :| i < |p.handlers| && !p.handlers[i].Done? {
        assert HandlerOk(p, i);
        a := Handler(i, true);
      } else {
        a := match p.accept case Holding => Spawn case Accepting => AcceptFails case AcceptReturned => StopReturns;
      }
  }

  /** A way to the return of `Stop` on which each step can happen on its own. */
  ghost predicate ReturnsBy(p: Proxy, rest: seq<Action>)
    decreases |rest|
  {
    if rest == [] then p.stop.StopReturned?
    else OnItsOwn(p, rest[0]) && Step(p, rest[0]).Some? && ReturnsBy(Step(p, rest[0]).value, rest[1..])
  }

  /** So from any moment of any run at which `Stop` has closed the listener, it can return with nothing done
      by a peer, and no run goes on for more than Rank(p) steps from there. */
  lemma {:induction false} StopReturnsUnaided(acts: seq<Action>, p: Proxy) returns (rest: seq<Action>)
    requires Run(acts) == Some(p) && !p.listening
    ensures |rest| <= Rank(p) && ReturnsBy(p, rest)
    decreases Rank(p)
  {
    Reachable(acts, p);
    rest := [];
    if !p.stop.StopReturned? {
      var a := StopIsNeverStuck(acts, p);
      var next := Step(p, a).value;
      EveryStepCounts(p, a, next);
      assert (acts + [a])[..|acts|] == acts;
      rest := StopReturnsUnaided(acts + [a], next);
      rest := [a] + rest;
    }
  }

  /** Nor can it be kept from returning: any way of going on is that short. */
  lemma {:induction false} StopReturnsSoon(acts: seq<Action>, p: Proxy, more: seq<Action>)
    requires Run(acts) == Some(p) && !p.listening && Run(acts + more).Some?
    ensures |more| <= Rank(p) && !Run(acts + more).value.listening
    ensures |more| + Rank(Run(acts + more).value) <= Rank(p)
  {
    if more == [] {
      assert acts + more == acts;
    } else {
      var k := |more| - 1;
      assert (acts + more)[..|acts + more| - 1] == acts + more[..k];
      StopReturnsSoon(acts, p, more[..k]);
      var before := Run(acts + more[..k]).value;
      Reachable(acts + more[..k], before);
      EveryStepCounts(before, more[k], Run(acts + more).value);
    }
  }

  // ----- The object -----

  class TcpProxy {
    var conns: set<Conn>
    var stopped: bool

    constructor ()
      ensures View() == Started().tracked
    {
      conns, stopped := {}, false;
    }

    function View(): Tracked
      reads this
    {
      Tracked(stopped, conns)
    }

    method TrackConn(c: Conn) returns (ok: bool)
      modifies this
      ensures ok == CanTrack(old(View())) && View() == Track(old(View()), c)
      ensures ok ==> c in conns
    {
      if stopped {
        return false;
      }
      conns := conns + {c};
      ok := true;
    }

    method UntrackConn(c: Conn)
      modifies this
      ensures View() == Untrack(old(View()), c)
    {
      conns := conns - {c};
    }

    /** The critical section of `Stop`: the connections it will close are all that were tracked. */
    method Mark() returns (toClose: set<Conn>)
      modifies this
      ensures toClose == conns == old(conns) && stopped
      ensures forall p: Proxy :: p.tracked == old(View()) && p.stop.NotStopped? ==>
        Step(p, StopMarks) == Some(p.(tracked := View(), stop := Marked(toClose)))
    {
      stopped := true;
      toClose := {};
      var left := conns;
      while left != {}
        invariant left <= conns && toClose == conns - left
        decreases |left|
      {
        var c :| c in left;
        toClose := toClose + {c};
        left := left - {c};
      }
    }
  }
}
