/** The event bus: one source fans out to subscribers through channels of 128 places that drop when full. */
module Bus {
  import opened Wrappers
  import opened State

  const SUBSCRIBER_BUFFER := 128

  datatype Event = Event(profile: string, service: string, to: ServiceState, error: string)

  /** One subscriber's channel: what waits in it, what its reader took, and whether its cancel ran. */
  datatype Queue = Queue(pending: seq<Event>, received: seq<Event>, closed: bool, cancelled: bool)

  /** `run` between two events, or with the read lock held and some subscribers still to serve. */
  datatype Dispatch<C> = Idle | Sending(evt: Event, left: set<C>)

  /** The channels ever made, those registered, and whether a send or a close met a closed channel. */
  datatype Hub<C> = Hub(queues: map<C, Queue>, subs: set<C>, closed: bool, dispatch: Dispatch<C>, panicked: bool)

  /** `Recv` takes an event that waits; a receive that finds a closed empty channel changes nothing. */
  datatype Action<C> =
    | Subscribe(ch: C)
    | Cancel(ch: C)
    | Recv(ch: C)
    | Begin(evt: Event)
    | SendTo(ch: C)
    | End
    | CloseSource

  function Fresh(closed: bool): Queue {
    Queue([], [], closed, false)
  }

  /** A send that does not block: a full channel drops the event. */
  function Offer(q: Queue, evt: Event): Queue {
    if |q.pending| < SUBSCRIBER_BUFFER then q.(pending := q.pending + [evt]) else q
  }

  function Take(q: Queue): Queue
    requires q.pending != []
  {
    q.(pending := q.pending[1..], received := q.received + [q.pending[0]])
  }

  function SubscribeStep<C>(h: Hub<C>, ch: C): Hub<C> {
    h.(queues := h.queues[ch := Fresh(h.closed)], subs := if h.closed then h.subs else h.subs + {ch})
  }

  function CancelStep<C>(h: Hub<C>, ch: C): Hub<C>
    requires ch in h.queues
  {
    var q := h.queues[ch].(cancelled := true);
    if h.queues[ch].cancelled || ch !in h.subs then h.(queues := h.queues[ch := q])
    else h.(queues := h.queues[ch := q.(closed := true)], subs := h.subs - {ch}, panicked := h.panicked || q.closed)
  }

  function SendStep<C>(h: Hub<C>, ch: C): Hub<C>
    requires h.dispatch.Sending? && ch in h.queues
  {
    var next := h.(dispatch := h.dispatch.(left := h.dispatch.left - {ch}));
    if h.queues[ch].closed then next.(panicked := true)
    else next.(queues := h.queues[ch := Offer(h.queues[ch], h.dispatch.evt)])
  }

  function CloseStep<C>(h: Hub<C>): Hub<C> {
    Hub(map ch | ch in h.queues :: if ch in h.subs then h.queues[ch].(closed := true) else h.queues[ch], {}, true, Idle,
        h.panicked || exists ch :: ch in h.subs && ch in h.queues && h.queues[ch].closed)
  }

  /** One step, or None when it cannot happen now. A dispatch holds the read lock, so that subscribing,
      cancelling and closing wait for its end; receiving needs no lock. */
  function Step<C>(h: Hub<C>, a: Action<C>): Option<Hub<C>> {
    match a
    case Subscribe(ch) => if h.dispatch.Idle? && ch !in h.queues then Some(SubscribeStep(h, ch)) else None
    case Cancel(ch) => if h.dispatch.Idle? && ch in h.queues then Some(CancelStep(h, ch)) else None
    case Recv(ch) =>
      if ch in h.queues && h.queues[ch].pending != [] then Some(h.(queues := h.queues[ch := Take(h.queues[ch])]))
        else None
    case Begin(evt) => if h.dispatch.Idle? && !h.closed then Some(h.(dispatch := Sending(evt, h.subs))) else None
    case SendTo(ch) =>
      if h.dispatch.Sending? && ch in h.dispatch.left && ch in h.queues then Some(SendStep(h, ch)) else None
    case End => if h.dispatch.Sending? && h.dispatch.left == {} then Some(h.(dispatch := Idle)) else None
    case CloseSource => if h.dispatch.Idle? && !h.closed then Some(CloseStep(h)) else None
  }

  function Empty<C>(): Hub<C> {
    Hub(map[], {}, false, Idle, false)
  }

  function Front<T>(s: seq<T>): seq<T>
    requires s != []
  {
    s[..|s| - 1]
  }

  function Last<T>(s: seq<T>): T
    requires s != []
  {
    s[|s| - 1]
  }

  /** The bus after a sequence of steps, or None when one of them could not happen. */
  function Run<C>(acts: seq<Action<C>>): Option<Hub<C>> {
    if acts == [] then Some(Empty())
    else match Run(Front(acts)) case None => None case Some(h) => Step(h, Last(acts))
  }

  // ----- No panic -----

  ghost predicate QueueOk<C>(h: Hub<C>, ch: C)
    requires ch in h.queues
  {
    (h.queues[ch].closed <==> ch !in h.subs) && (h.queues[ch].cancelled ==> ch !in h.subs) &&
      |h.queues[ch].pending| <= SUBSCRIBER_BUFFER
  }

  ghost predicate Inv<C(!new)>(h: Hub<C>) {
    && !h.panicked
    && h.subs <= h.queues.Keys
    && (h.closed ==> h.subs == {})
    && (forall ch :: ch in h.queues ==> QueueOk(h, ch))
    && (h.dispatch.Sending? ==> !h.closed && h.dispatch.left <= h.subs)
  }

  lemma StepKeepsInv<C(!new)>(h: Hub<C>, a: Action<C>, n: Hub<C>)
    requires Inv(h) && Step(h, a) == Some(n)
    ensures Inv(n)
  {
  }

  /** No run sends on a closed channel or closes one twice. */
  lemma {:induction false} NeverPanics<C(!new)>(acts: seq<Action<C>>, h: Hub<C>)
    requires Run(acts) == Some(h)
    ensures Inv(h)
    ensures !h.panicked && forall ch :: ch in h.queues ==> |h.queues[ch].pending| <= SUBSCRIBER_BUFFER
  {
    if acts != [] {
      var before := Run(Front(acts)).value;
      NeverPanics(Front(acts), before);
      StepKeepsInv(before, Last(acts), h);
    }
    assert forall ch :: ch in h.queues ==> QueueOk(h, ch);
  }

  /** Whatever the subscribers do or fail to do, the event being dispatched can be sent to any subscriber
      that is left, and then to the next, until the dispatch ends. */
  lemma {:induction false} DispatchNeverBlocks<C(!new)>(acts: seq<Action<C>>, h: Hub<C>)
    returns (rest: seq<Action<C>>, n: Hub<C>)
    requires Run(acts) == Some(h) && h.dispatch.Sending?
    ensures |rest| == |h.dispatch.left| + 1 && (forall i :: 0 <= i < |rest| ==> rest[i].SendTo? || rest[i].End?)
    ensures Run(acts + rest) == Some(n) && n.dispatch.Idle? && n.subs == h.subs
    decreases |h.dispatch.left|
  {
    NeverPanics(acts, h);
    var a: Action<C>;
    if ch :| ch in h.dispatch.left {
      a := SendTo(ch);
    } else {
      a := End;
    }
    var next := Step(h, a).value;
    assert Front(acts + [a]) == acts;
    if a.End? {
      rest, n := [a], next;
    } else {
      rest, n := DispatchNeverBlocks(acts + [a], next);
      assert acts + [a] + rest == acts + ([a] + rest);
      rest := [a] + rest;
    }
  }

  // ----- One subscriber's events -----

  predicate Registered<C(==)>(ch: C, acts: seq<Action<C>>) {
    Subscribe(ch) in acts && Cancel(ch) !in acts && CloseSource !in acts
  }

  /** The events whose dispatch began while the subscriber was registered. */
  function Heard<C(==)>(ch: C, acts: seq<Action<C>>): seq<Event> {
    if acts == [] then []
    else
      var a := Last(acts);
      Heard(ch, Front(acts)) + if a.Begin? && Registered(ch, Front(acts)) then [a.evt] else []
  }

  function WithoutLast(heard: seq<Event>, waits: bool): seq<Event> {
    if waits && heard != [] then Front(heard) else heard
  }

  /** Those events, in a run that reached h, without the one that is being dispatched and has not come to
      this subscriber yet. */
  ghost function Offered<C>(ch: C, acts: seq<Action<C>>, h: Hub<C>): seq<Event> {
    WithoutLast(Heard(ch, acts), Waits(ch, h))
  }

  function TakenBy<C(==)>(ch: C, acts: seq<Action<C>>): nat {
    if acts == [] then 0 else TakenBy(ch, Front(acts)) + if Last(acts) == Recv(ch) then 1 else 0
  }

  /** Each element of `part` in its order, with perhaps others of `whole` between. */
  ghost predicate IsSubsequence(part: seq<Event>, whole: seq<Event>) {
    part == [] ||
    (whole != [] && (IsSubsequence(part, Front(whole)) ||
                     (Last(part) == Last(whole) && IsSubsequence(Front(part), Front(whole)))))
  }

  lemma {:induction false} SubsequenceIsNoLonger(part: seq<Event>, whole: seq<Event>)
    requires IsSubsequence(part, whole)
    ensures |part| <= |whole| && (|part| == |whole| ==> part == whole)
  {
    if part != [] {
      if IsSubsequence(part, Front(whole)) {
        SubsequenceIsNoLonger(part, Front(whole));
      } else {
        SubsequenceIsNoLonger(Front(part), Front(whole));
        assert part == Front(part) + [Last(part)] && whole == Front(whole) + [Last(whole)];
      }
    }
  }

  /** What the subscriber took and what waits for it. */
  function Got(q: Queue): seq<Event> {
    q.received + q.pending
  }

  lemma {:induction false} RegisteredMeans<C(!new)>(ch: C, acts: seq<Action<C>>, h: Hub<C>)
    requires Run(acts) == Some(h)
    ensures Registered(ch, acts) <==> ch in h.subs
    ensures ch in h.queues <==> Subscribe(ch) in acts
    ensures h.closed <==> CloseSource in acts
    ensures Subscribe(ch) !in acts ==> Cancel(ch) !in acts
  {
    NeverPanics(acts, h);
    if acts != [] {
      var before := Run(Front(acts)).value;
      NeverPanics(Front(acts), before);
      RegisteredMeans(ch, Front(acts), before);
      assert acts == Front(acts) + [Last(acts)];
      assert ch in before.queues ==> QueueOk(before, ch);
    }
  }

  /** While the dispatch has not come to a subscriber, the last event it heard is the one being dispatched. */
  lemma {:induction false} PendingIsLast<C(!new)>(ch: C, acts: seq<Action<C>>, h: Hub<C>)
    requires Run(acts) == Some(h) && Waits(ch, h)
    ensures Heard(ch, acts) != [] && Last(Heard(ch, acts)) == h.dispatch.evt
  {
    var before := Run(Front(acts)).value;
    RegisteredMeans(ch, Front(acts), before);
    NeverPanics(Front(acts), before);
    StepOfWaiting(ch, before, Last(acts), h);
    if !Last(acts).Begin? {
      PendingIsLast(ch, Front(acts), before);
    }
  }

  /** A registered subscriber waits for the dispatch exactly from its beginning to the send. */
  ghost predicate Waits<C>(ch: C, h: Hub<C>) {
    h.dispatch.Sending? && ch in h.dispatch.left
  }

  lemma StepOfWaiting<C(!new)>(ch: C, h: Hub<C>, a: Action<C>, n: Hub<C>)
    requires Inv(h) && Step(h, a) == Some(n)
    ensures a.Begin? ==> !Waits(ch, h) && (Waits(ch, n) <==> ch in h.subs)
    ensures !a.Begin? ==> (Waits(ch, n) <==> Waits(ch, h) && a != SendTo(ch))
    ensures Waits(ch, n) && !a.Begin? ==> n.dispatch.evt == h.dispatch.evt
    ensures a == SendTo(ch) ==> Waits(ch, h)
  {
  }

  lemma StepOfQueue<C(!new)>(ch: C, h: Hub<C>, a: Action<C>, n: Hub<C>)
    requires Inv(h) && Step(h, a) == Some(n) && ch in h.queues
    ensures ch in n.queues && |h.queues[ch].pending| <= SUBSCRIBER_BUFFER
    ensures Got(n.queues[ch]) ==
      Got(h.queues[ch]) + if a == SendTo(ch) && |h.queues[ch].pending| < SUBSCRIBER_BUFFER then [h.dispatch.evt] else []
    ensures |n.queues[ch].received| == |h.queues[ch].received| + if a == Recv(ch) then 1 else 0
  {
  }

  /** A step either offers the subscriber one event more, the one being dispatched, or none. */
  lemma OfferedByStep<C(!new)>(ch: C, acts: seq<Action<C>>, h: Hub<C>, n: Hub<C>)
    requires acts != [] && Inv(h) && Step(h, Last(acts)) == Some(n)
    requires Registered(ch, Front(acts)) <==> ch in h.subs
    requires Waits(ch, h) ==> Heard(ch, Front(acts)) != [] && Last(Heard(ch, Front(acts))) == h.dispatch.evt
    ensures Offered(ch, acts, n) ==
      Offered(ch, Front(acts), h) + if Last(acts) == SendTo(ch) then [h.dispatch.evt] else []
  {
  }

  lemma OfferedGrows<C(!new)>(ch: C, acts: seq<Action<C>>, h: Hub<C>, n: Hub<C>)
    requires acts != [] && Run(Front(acts)) == Some(h) && Step(h, Last(acts)) == Some(n)
    ensures Offered(ch, acts, n) ==
      Offered(ch, Front(acts), h) + if Last(acts) == SendTo(ch) then [h.dispatch.evt] else []
  {
    RegisteredMeans(ch, Front(acts), h);
    NeverPanics(Front(acts), h);
    if Waits(ch, h) {
      PendingIsLast(ch, Front(acts), h);
    }
    OfferedByStep(ch, acts, h, n);
  }

  lemma SubsequenceOfMore(part: seq<Event>, whole: seq<Event>, e: Event)
    requires IsSubsequence(part, whole)
    ensures IsSubsequence(part, whole + [e]) && IsSubsequence(part + [e], whole + [e])
  {
  }

  /** Each subscriber gets, in order, some of the events dispatched while it was registered. */
  lemma {:induction false} InOrder<C(!new)>(ch: C, acts: seq<Action<C>>, h: Hub<C>)
    requires Run(acts) == Some(h) && ch in h.queues
    ensures IsSubsequence(Got(h.queues[ch]), Offered(ch, acts, h))
    ensures |h.queues[ch].received| == TakenBy(ch, acts)
  {
    var before := Run(Front(acts)).value;
    OfferedGrows(ch, acts, before, h);
    NeverPanics(Front(acts), before);
    if ch !in before.queues {
      NothingBefore(ch, Front(acts), before);
    } else {
      InOrder(ch, Front(acts), before);
      StepOfQueue(ch, before, Last(acts), h);
      if Last(acts) == SendTo(ch) {
        SubsequenceOfMore(Got(before.queues[ch]), Offered(ch, Front(acts), before), before.dispatch.evt);
      } else {
        assert Got(h.queues[ch]) == Got(before.queues[ch]);
        assert Offered(ch, acts, h) == Offered(ch, Front(acts), before);
      }
    }
  }

  /** At every moment of the run, at most 128 of the events offered to the subscriber had not been taken. */
  ghost predicate KeepsUp<C>(ch: C, acts: seq<Action<C>>) {
    && (Run(acts).Some? ==> |Offered(ch, acts, Run(acts).value)| <= TakenBy(ch, acts) + SUBSCRIBER_BUFFER)
    && (acts != [] ==> KeepsUp(ch, Front(acts)))
  }

  /** A subscriber loses nothing exactly when it keeps up. */
  lemma {:induction false} LosslessIffKeepsUp<C(!new)>(ch: C, acts: seq<Action<C>>, h: Hub<C>)
    requires Run(acts) == Some(h) && ch in h.queues
    ensures Got(h.queues[ch]) == Offered(ch, acts, h) <==> KeepsUp(ch, acts)
  {
    var before := Run(Front(acts)).value;
    OfferedGrows(ch, acts, before, h);
    NeverPanics(Front(acts), before);
    InOrder(ch, acts, h);
    SubsequenceIsNoLonger(Got(h.queues[ch]), Offered(ch, acts, h));
    if ch in before.queues {
      InOrder(ch, Front(acts), before);
      SubsequenceIsNoLonger(Got(before.queues[ch]), Offered(ch, Front(acts), before));
      LosslessIffKeepsUp(ch, Front(acts), before);
      StepOfQueue(ch, before, Last(acts), h);
    } else {
      NothingBefore(ch, Front(acts), before);
    }
  }

  lemma {:induction false} NothingBefore<C(!new)>(ch: C, acts: seq<Action<C>>, h: Hub<C>)
    requires Run(acts) == Some(h) && ch !in h.queues
    ensures TakenBy(ch, acts) == 0 && Offered(ch, acts, h) == [] && KeepsUp(ch, acts)
  {
    if acts != [] {
      var before := Run(Front(acts)).value;
      NothingBefore(ch, Front(acts), before);
      NeverPanics(Front(acts), before);
      OfferedGrows(ch, acts, before, h);
    }
  }

  // ----- One round -----

  function Sends<C>(order: seq<C>): seq<Action<C>> {
    seq(|order|, i requires 0 <= i < |order| => SendTo(order[i]))
  }

  /** The bus while an event is dispatched, once some subscribers are served. */
  function Served<C>(h: Hub<C>, evt: Event, done: set<C>): Hub<C> {
    h.(queues := map ch | ch in h.queues :: if ch in done then Offer(h.queues[ch], evt) else h.queues[ch],
       dispatch := Sending(evt, h.subs - done))
  }

  /** The bus after an event was dispatched to all subscribers. */
  function Round<C>(h: Hub<C>, evt: Event): Hub<C> {
    h.(queues := map ch | ch in h.queues :: if ch in h.subs then Offer(h.queues[ch], evt) else h.queues[ch])
  }

  predicate NoRepeats<C(==)>(s: seq<C>) {
    forall i, j :: 0 <= i < j < |s| ==> s[i] != s[j]
  }

  ghost function Elements<C>(s: seq<C>): set<C> {
    set i | 0 <= i < |s| :: s[i]
  }

  lemma {:induction false} SendsServe<C(!new)>(acts: seq<Action<C>>, h: Hub<C>, evt: Event, order: seq<C>)
    requires Run(acts) == Some(h) && h.dispatch.Idle? && !h.closed && NoRepeats(order) && Elements(order) <= h.subs
    ensures Run(acts + [Begin(evt)] + Sends(order)) == Some(Served(h, evt, Elements(order)))
  {
    NeverPanics(acts, h);
    if order == [] {
      assert acts + [Begin(evt)] + Sends(order) == acts + [Begin(evt)];
      assert Front(acts + [Begin(evt)]) == acts;
      assert Elements(order) == {} && h.subs - {} == h.subs && Served(h, evt, {}).queues == h.queues;
    } else {
      var (some, ch) := (Front(order), Last(order));
      assert Elements(order) == Elements(some) + {ch};
      SendsServe(acts, h, evt, some);
      var all := acts + [Begin(evt)] + Sends(order);
      assert Front(all) == acts + [Begin(evt)] + Sends(some) && Last(all) == SendTo(ch);
      assert QueueOk(h, ch);
      assert SendStep(Served(h, evt, Elements(some)), ch) == Served(h, evt, Elements(order)) by {
        assert SendStep(Served(h, evt, Elements(some)), ch).queues == Served(h, evt, Elements(order)).queues;
        assert h.subs - Elements(some) - {ch} == h.subs - Elements(order);
      }
    }
  }

  /** In whatever order the subscribers are served, an undisturbed round offers the event to each once. */
  lemma RoundIsOrderFree<C(!new)>(acts: seq<Action<C>>, h: Hub<C>, evt: Event, order: seq<C>)
    requires Run(acts) == Some(h) && h.dispatch.Idle? && !h.closed && NoRepeats(order) && Elements(order) == h.subs
    ensures Run(acts + [Begin(evt)] + Sends(order) + [End]) == Some(Round(h, evt))
  {
    SendsServe(acts, h, evt, order);
    assert Front(acts + [Begin(evt)] + Sends(order) + [End]) == acts + [Begin(evt)] + Sends(order);
  }

  // ----- One subscriber alone -----

  predicate Concerns<C(==)>(ch: C, a: Action<C>) {
    a.Begin? || a.End? || a.CloseSource? || a.ch == ch
  }

  /** The run without the steps of any other subscriber. */
  function Only<C(==)>(ch: C, acts: seq<Action<C>>): seq<Action<C>> {
    if acts == [] then [] else Only(ch, Front(acts)) + if Concerns(ch, Last(acts)) then [Last(acts)] else []
  }

  /** The bus as if it had one subscriber. */
  function OnlyHub<C>(ch: C, h: Hub<C>): Hub<C> {
    Hub(map c | c in h.queues && c == ch :: h.queues[c], h.subs * {ch}, h.closed,
        if h.dispatch.Sending? then h.dispatch.(left := h.dispatch.left * {ch}) else Idle, h.panicked)
  }

  lemma StepOfConcern<C(!new)>(ch: C, h: Hub<C>, a: Action<C>, n: Hub<C>)
    requires Inv(h) && Step(h, a) == Some(n) && Concerns(ch, a)
    ensures Step(OnlyHub(ch, h), a) == Some(OnlyHub(ch, n))
  {
    StepKeepsInv(h, a, n);
    assert ch in h.queues ==> QueueOk(h, ch);
    assert Waits(ch, h) ==> (h.dispatch.left * {ch}) - {ch} == (h.dispatch.left - {ch}) * {ch};
    var (next, after) := (Step(OnlyHub(ch, h), a).value, OnlyHub(ch, n));
    assert next.queues == after.queues;
    assert next.subs == after.subs;
    assert next.dispatch == after.dispatch;
  }

  lemma StepOfOther<C(!new)>(ch: C, h: Hub<C>, a: Action<C>, n: Hub<C>)
    requires Inv(h) && Step(h, a) == Some(n) && !Concerns(ch, a)
    ensures OnlyHub(ch, n) == OnlyHub(ch, h)
  {
    StepKeepsInv(h, a, n);
    var (before, after) := (OnlyHub(ch, h), OnlyHub(ch, n));
    assert before.queues == after.queues;
    assert before.subs == after.subs;
    assert before.dispatch == after.dispatch;
  }

  /** Taking every other subscriber's steps out of a run leaves a run, in which the subscriber's channel
      fares exactly as before. */
  lemma {:induction false} OthersDoNotMatter<C(!new)>(ch: C, acts: seq<Action<C>>, h: Hub<C>)
    requires Run(acts) == Some(h)
    ensures Run(Only(ch, acts)) == Some(OnlyHub(ch, h))
  {
    if acts == [] {
      assert OnlyHub(ch, h).queues == map[] && OnlyHub(ch, h).subs == {};
    } else {
      var before := Run(Front(acts)).value;
      NeverPanics(Front(acts), before);
      OthersDoNotMatter(ch, Front(acts), before);
      if Concerns(ch, Last(acts)) {
        StepOfConcern(ch, before, Last(acts), h);
        var some := Only(ch, Front(acts));
        assert Front(some + [Last(acts)]) == some && Last(some + [Last(acts)]) == Last(acts);
      } else {
        StepOfOther(ch, before, Last(acts), h);
        assert Only(ch, acts) == Only(ch, Front(acts));
      }
    }
  }

  /** Two runs that agree on the events and on the subscriber's own steps, whatever the other subscribers
      do in them, give it the same events. */
  lemma SubscribersAreIsolated<C(!new)>(ch: C, acts: seq<Action<C>>, h: Hub<C>, others: seq<Action<C>>, g: Hub<C>)
    requires Run(acts) == Some(h) && Run(others) == Some(g) && Only(ch, acts) == Only(ch, others)
    ensures ch in h.queues <==> ch in g.queues
    ensures ch in h.queues ==> h.queues[ch] == g.queues[ch]
  {
    OthersDoNotMatter(ch, acts, h);
    OthersDoNotMatter(ch, others, g);
    assert ch in h.queues <==> ch in OnlyHub(ch, h).queues;
    assert ch in g.queues <==> ch in OnlyHub(ch, g).queues;
  }

  // ----- The objects -----

  class Channel {
    var pending: seq<Event>
    var closed: bool
    var cancelled: bool
    ghost var received: seq<Event>

    constructor (closed: bool)
      ensures View() == Fresh(closed)
    {
      pending, this.closed, cancelled, received := [], closed, false, [];
    }

    ghost function View(): Queue
      reads this
    {
      Queue(pending, received, closed, cancelled)
    }

    method Receive() returns (evt: Option<Event>)
      modifies this
      ensures evt.None? <==> old(pending) == []
      ensures View() == if evt.None? then old(View()) else Take(old(View()))
      ensures evt.Some? ==> received == old(received) + [evt.value]
    {
      evt := None;
      if pending != [] {
        evt := Some(pending[0]);
        received := received + [pending[0]];
        pending := pending[1..];
      }
    }
  }

  class EventBus {
    var subs: set<Channel>
    var closed: bool
    ghost var made: set<Channel>

    constructor ()
      ensures Valid() && View() == Empty()
    {
      subs, closed, made := {}, false, {};
    }

    /** The bus between two critical sections, on which no send and no close has panicked. */
    ghost function View(): Hub<Channel>
      reads this, made
    {
      Hub(map ch | ch in made :: ch.View(), subs, closed, Idle, false)
    }

    ghost predicate Valid()
      reads this, made
    {
      && subs <= made
      && (closed ==> subs == {})
      && (forall ch <- made :: ch.closed <==> ch !in subs)
      && (forall ch <- made :: ch.cancelled ==> ch !in subs)
    }

    method Subscribe() returns (ch: Channel)
      requires Valid()
      modifies this
      ensures Valid() && fresh(ch)
      ensures Step(old(View()), Action.Subscribe(ch)) == Some(View())
    {
      ch := new Channel(closed);
      made := made + {ch};
      if !closed {
        subs := subs + {ch};
      }
      assert View().queues == old(View()).queues[ch := Fresh(closed)];
    }

    method Cancel(ch: Channel)
      requires Valid() && ch in made
      modifies this, ch
      ensures Valid()
      ensures Step(old(View()), Action.Cancel(ch)) == Some(View())
    {
      if ch.cancelled {
        assert View().queues == View().queues[ch := ch.View()];
        return;
      }
      ch.cancelled := true;
      if ch in subs {
        subs := subs - {ch};
        ch.closed := true;
      }
      assert View().queues == old(View()).queues[ch := ch.View()];
    }

    /** The end of `run`, once the source is closed. */
    method CloseAll()
      requires Valid() && !closed
      modifies this, subs
      ensures Valid()
      ensures View() == CloseStep(old(View()))
    {
      closed := true;
      while subs != {}
        invariant closed && made == old(made) && subs <= old(subs)
        invariant forall ch <- made :: ch.View() == old(ch.View()).(closed := ch !in subs)
        modifies this, old(subs)
        decreases |subs|
      {
        var ch :| ch in subs;
        ch.closed := true;
        subs := subs - {ch};
      }
      assert View().queues == old(CloseStep(View())).queues;
    }

    /** One event's round over the subscribers, in whatever order the map yields them. */
    method Dispatch(evt: Event)
      requires Valid() && !closed
      modifies subs
      ensures Valid()
      ensures View() == Round(old(View()), evt)
    {
      var left := subs;
      while left != {}
        invariant left <= subs
        invariant forall ch <- made ::
          ch.View() == if ch in subs - left then Offer(old(ch.View()), evt) else old(ch.View())
        modifies subs
        decreases |left|
      {
        var ch :| ch in left;
        if |ch.pending| < SUBSCRIBER_BUFFER {
          ch.pending := ch.pending + [evt];
        }
        left := left - {ch};
      }
    }
  }
}
