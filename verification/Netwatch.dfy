/** Noticing that the host slept or changed its addresses. */
module Netwatch {
  import opened Wrappers

  /** An interface address: an IP network, or something else. */
  datatype Addr = IPNet(v4: bool, loopback: bool, text: string) | OtherAddr

  // ----- Sorted lists of texts -----

  /** The order of texts, character by character. */
  predicate Less(a: string, b: string): (less: bool)
    ensures less ==> a != b
  {
    b != "" && (a == "" || a[0] < b[0] || (a[0] == b[0] && Less(a[1..], b[1..])))
  }

  lemma {:induction false} LessIsTotal(a: string, b: string)
    ensures !(Less(a, b) && Less(b, a)) && !Less(a, a)
    ensures !Less(a, b) && !Less(b, a) ==> a == b
  {
    if a != "" {
      LessIsTotal(a[1..], a[1..]);
    }
    if a != "" && b != "" {
      LessIsTotal(a[1..], b[1..]);
      assert a == [a[0]] + a[1..] && b == [b[0]] + b[1..];
    }
  }

  lemma {:induction false} LessIsTransitive(a: string, b: string, c: string)
    requires Less(a, b) && Less(b, c)
    ensures Less(a, c)
  {
    if a != "" && a[0] == b[0] == c[0] {
      LessIsTransitive(a[1..], b[1..], c[1..]);
    }
  }

  predicate Sorted(s: seq<string>) {
    forall i, j :: 0 <= i < j < |s| ==> !Less(s[j], s[i])
  }

  predicate StrictlySorted(s: seq<string>) {
    forall i, j :: 0 <= i < j < |s| ==> Less(s[i], s[j])
  }

  function Insert(x: string, s: seq<string>): (r: seq<string>)
    ensures multiset(r) == multiset(s) + multiset{x}
  {
    if s == [] || !Less(s[0], x) then [x] + s
    else
      assert s == [s[0]] + s[1..];
      [s[0]] + Insert(x, s[1..])
  }

  /** What `slices.Sort` makes of a list. */
  function Sort(s: seq<string>): (r: seq<string>)
    ensures multiset(r) == multiset(s)
  {
    if s == [] then []
    else
      assert s == [s[0]] + s[1..];
      Insert(s[0], Sort(s[1..]))
  }

  lemma InMultiset(s: seq<string>, t: seq<string>)
    requires multiset(s) == multiset(t)
    ensures forall x :: x in s <==> x in t
  {
    forall x
      ensures x in s <==> x in t
    {
      assert x in s <==> x in multiset(s);
      assert x in t <==> x in multiset(t);
    }
  }

  lemma {:induction false} InsertSorts(x: string, s: seq<string>)
    requires Sorted(s)
    ensures Sorted(Insert(x, s))
  {
    if s == [] {
      return;
    }
    var (rest, r) := (s[1..], Insert(x, s));
    if !Less(s[0], x) {
      forall i, j | 0 <= i < j < |r|
        ensures !Less(r[j], r[i])
      {
        if i == 0 {
          assert r[j] == s[j - 1];
          NotBelow(x, s[0], s[j - 1]);
        }
      }
    } else {
      InsertSorts(x, rest);
      InMultiset(Insert(x, rest), rest + [x]);
      forall j | 0 < j < |r|
        ensures !Less(r[j], r[0])
      {
        assert r[j] == Insert(x, rest)[j - 1] && r[j] in rest + [x];
        LessIsTotal(s[0], x);
      }
    }
  }

  /** a is not above b and b is not above c, so a is not above c. */
  lemma NotBelow(a: string, b: string, c: string)
    requires !Less(b, a) && !Less(c, b)
    ensures !Less(c, a)
  {
  }

  lemma {:induction false} SortSorts(s: seq<string>)
    ensures Sorted(Sort(s))
  {
    if s != [] {
      SortSorts(s[1..]);
      InsertSorts(s[0], Sort(s[1..]));
    }
  }

  /** What `slices.Compact` makes of a list: runs of equal elements become one. */
  function Compact(s: seq<string>): seq<string> {
    if |s| < 2 then s else if s[0] == s[1] then Compact(s[1..]) else [s[0]] + Compact(s[1..])
  }

  lemma {:induction false} CompactKeepsElements(s: seq<string>)
    ensures forall x :: x in Compact(s) <==> x in s
    ensures s != [] ==> Compact(s) != [] && Compact(s)[0] == s[0]
  {
    if |s| >= 2 {
      CompactKeepsElements(s[1..]);
      assert s == [s[0]] + s[1..];
    }
  }

  lemma {:induction false} CompactIsStrict(s: seq<string>)
    requires Sorted(s)
    ensures StrictlySorted(Compact(s))
  {
    if |s| >= 2 {
      CompactIsStrict(s[1..]);
      CompactKeepsElements(s[1..]);
      if s[0] != s[1] {
        var r := Compact(s);
        forall j | 0 < j < |r|
          ensures Less(r[0], r[j])
        {
          assert r[j] == Compact(s[1..])[j - 1] && r[j] in s[1..];
          var k :| 0 <= k < |s[1..]| && s[1..][k] == r[j];
          assert !Less(s[k + 1], s[0]) && !Less(s[k + 1], s[1]) && !Less(s[1], s[0]);
          LessIsTotal(s[0], s[1]);
          LessIsTotal(s[1], r[j]);
          if s[1] != r[j] {
            LessIsTransitive(s[0], s[1], r[j]);
          }
        }
      }
    }
  }

  /** Two strictly sorted lists with the same elements are the same list. */
  lemma {:induction false} StrictListsOfOneSet(s: seq<string>, t: seq<string>)
    requires StrictlySorted(s) && StrictlySorted(t) && (forall x :: x in s <==> x in t)
    ensures s == t
  {
    assert (s != [] ==> s[0] in s) && (t != [] ==> t[0] in t);
    if s != [] {
      assert s[0] in t && t[0] in s;
      var i :| 0 <= i < |t| && t[i] == s[0];
      var j :| 0 <= j < |s| && s[j] == t[0];
      LessIsTotal(s[0], t[0]);
      assert s[0] == t[0];
      assert s == [s[0]] + s[1..] && t == [t[0]] + t[1..];
      forall x
        ensures x in s[1..] <==> x in t[1..]
      {
        assert x in s <==> x == s[0] || x in s[1..];
        assert x in t <==> x == t[0] || x in t[1..];
      }
      StrictListsOfOneSet(s[1..], t[1..]);
    }
  }

  // ----- The set of addresses -----

  predicate Counts(a: Addr) {
    a.IPNet? && a.v4 && !a.loopback
  }

  function Texts(addrs: seq<Addr>): seq<string> {
    if addrs == [] then []
    else Texts(addrs[..|addrs| - 1]) + if Counts(addrs[|addrs| - 1]) then [addrs[|addrs| - 1].text] else []
  }

  function Ipv4List(addrs: seq<Addr>): seq<string> {
    Compact(Sort(Texts(addrs)))
  }

  method Ipv4Set(addrs: seq<Addr>) returns (list: seq<string>)
    ensures list == Ipv4List(addrs)
  {
    var i, texts := 0, [];
    while i < |addrs|
      invariant i <= |addrs| && texts == Texts(addrs[..i])
    {
      assert addrs[..i + 1][..i] == addrs[..i];
      if addrs[i].IPNet? && addrs[i].v4 && !addrs[i].loopback {
        texts := texts + [addrs[i].text];
      }
      i := i + 1;
    }
    assert addrs[..i] == addrs;
    list := Compact(Sort(texts));
  }

  /** The non-loopback IPv4 addresses of a listing, whatever their order and repetitions. */
  ghost function Addresses(addrs: seq<Addr>): set<string> {
    set a | a in addrs && Counts(a) :: a.text
  }

  lemma {:induction false} TextsAreAddresses(addrs: seq<Addr>)
    ensures forall x :: x in Texts(addrs) <==> x in Addresses(addrs)
  {
    if addrs != [] {
      var k := |addrs| - 1;
      TextsAreAddresses(addrs[..k]);
      assert addrs == addrs[..k] + [addrs[k]];
    }
  }

  lemma ListMeaning(addrs: seq<Addr>)
    ensures StrictlySorted(Ipv4List(addrs)) && forall x :: x in Ipv4List(addrs) <==> x in Addresses(addrs)
  {
    SortSorts(Texts(addrs));
    CompactIsStrict(Sort(Texts(addrs)));
    CompactKeepsElements(Sort(Texts(addrs)));
    InMultiset(Sort(Texts(addrs)), Texts(addrs));
    TextsAreAddresses(addrs);
  }

  /** The lists of two listings are equal exactly when their sets of addresses are. */
  lemma ListsDecideSets(a: seq<Addr>, b: seq<Addr>)
    ensures Ipv4List(a) == Ipv4List(b) <==> Addresses(a) == Addresses(b)
  {
    ListMeaning(a);
    ListMeaning(b);
    if Addresses(a) == Addresses(b) {
      StrictListsOfOneSet(Ipv4List(a), Ipv4List(b));
    }
  }

  // ----- Ticks -----

  datatype Reason = Slept(gap: int) | Changed(before: seq<string>, now: seq<string>)

  datatype Event = Event(reasons: seq<Reason>, time: int)

  /** `lastTick` is 0 for Go's zero time; `pending` is the channel of one place. */
  datatype Watch = Watch(lastTick: int, lastAddrs: Option<seq<string>>, pending: Option<Event>)

  function Reasons(w: Watch, interval: int, now: int, listing: Option<seq<Addr>>): seq<Reason> {
    (if w.lastTick != 0 && now - w.lastTick > 2 * interval then [Slept(now - w.lastTick)] else [])
    + if listing.Some? && w.lastAddrs.Some? && Ipv4List(listing.value) != w.lastAddrs.value
      then [Changed(w.lastAddrs.value, Ipv4List(listing.value))]
      else []
  }

  function Tick(w: Watch, interval: int, now: int, listing: Option<seq<Addr>>): Watch {
    var reasons := Reasons(w, interval, now, listing);
    Watch(now, if listing.Some? then Some(Ipv4List(listing.value)) else w.lastAddrs,
          if reasons != [] && w.pending.None? then Some(Event(reasons, now)) else w.pending)
  }

  class Watcher {
    const interval: int
    var lastTick: int
    var lastAddrs: Option<seq<string>>
    var pending: Option<Event>

    constructor (interval: int)
      ensures this.interval == interval && View() == Watch(0, None, None)
    {
      this.interval := interval;
      lastTick, lastAddrs, pending := 0, None, None;
    }

    function View(): Watch
      reads this
    {
      Watch(lastTick, lastAddrs, pending)
    }

    method DoTick(now: int, listing: Option<seq<Addr>>)
      modifies this
      ensures View() == Tick(old(View()), interval, now, listing)
    {
      var reasons: seq<Reason> := [];
      if lastTick != 0 {
        var gap := now - lastTick;
        if gap > 2 * interval {
          reasons := reasons + [Slept(gap)];
        }
      }
      lastTick := now;
      if listing.Some? {
        var current := Ipv4Set(listing.value);
        if lastAddrs.Some? && current != lastAddrs.value {
          reasons := reasons + [Changed(lastAddrs.value, current)];
        }
        lastAddrs := Some(current);
      }
      assert reasons == old(Reasons(View(), interval, now, listing));
      if reasons == [] {
        return;
      }
      if pending.None? {
        pending := Some(Event(reasons, now));
      }
    }

    method Receive() returns (evt: Option<Event>)
      modifies this`pending
      ensures evt == old(pending) && pending == None
    {
      evt := pending;
      pending := None;
    }
  }

  // ----- Runs -----

  /** A tick with its wall-clock reading and its listing, None when it failed; or a receive. */
  datatype Action = Ticks(now: int, listing: Option<seq<Addr>>) | Receives

  function Step(w: Watch, interval: int, a: Action): Watch {
    match a
    case Ticks(now, listing) => Tick(w, interval, now, listing)
    case Receives => w.(pending := None)
  }

  function Run(interval: int, acts: seq<Action>): Watch {
    if acts == [] then Watch(0, None, None) else Step(Run(interval, acts[..|acts| - 1]), interval, acts[|acts| - 1])
  }

  function PreviousTick(acts: seq<Action>): Option<int> {
    if acts == [] then None
    else if acts[|acts| - 1].Ticks? then Some(acts[|acts| - 1].now)
    else PreviousTick(acts[..|acts| - 1])
  }

  /** The last listing that did not fail. */
  function LastListing(acts: seq<Action>): Option<seq<Addr>> {
    if acts == [] then None
    else if acts[|acts| - 1].Ticks? && acts[|acts| - 1].listing.Some? then acts[|acts| - 1].listing
    else LastListing(acts[..|acts| - 1])
  }

  /** What a tick has to report: a gap, or another set of addresses than the last one known. */
  ghost predicate Noticeable(interval: int, before: seq<Action>, now: int, listing: Option<seq<Addr>>) {
    || (PreviousTick(before).Some? && now - PreviousTick(before).value > 2 * interval)
    || (listing.Some? && LastListing(before).Some? && Addresses(listing.value) != Addresses(LastListing(before).value))
  }

  predicate WallClock(acts: seq<Action>) {
    forall k :: 0 <= k < |acts| ==> acts[k].Ticks? ==> acts[k].now != 0
  }

  lemma {:induction false} WatchRemembers(interval: int, acts: seq<Action>)
    requires WallClock(acts)
    ensures var (w, tick, listing) := (Run(interval, acts), PreviousTick(acts), LastListing(acts));
      && w.lastTick == (if tick.Some? then tick.value else 0)
      && (tick.Some? ==> w.lastTick != 0)
      && w.lastAddrs == (if listing.Some? then Some(Ipv4List(listing.value)) else None)
  {
    if acts != [] {
      WatchRemembers(interval, acts[..|acts| - 1]);
    }
  }

  /** After any ticks, failed listings and receives, a tick has a reason exactly when there is something
      noticeable; then an event is pending after it, an unread one standing for both; and otherwise it
      leaves what is pending alone. */
  lemma TickNotices(interval: int, before: seq<Action>, now: int, listing: Option<seq<Addr>>)
    requires WallClock(before)
    ensures var (w, n) := (Run(interval, before), Run(interval, before + [Ticks(now, listing)]));
      && (Noticeable(interval, before, now, listing) ==>
        n.pending.Some? && (w.pending.None? ==> n.pending.value.time == now))
      && (!Noticeable(interval, before, now, listing) ==> n.pending == w.pending)
      && (w.pending.Some? ==> n.pending == w.pending)
  {
    assert (before + [Ticks(now, listing)])[..|before|] == before;
    WatchRemembers(interval, before);
    if listing.Some? && LastListing(before).Some? {
      ListsDecideSets(listing.value, LastListing(before).value);
    }
  }

  /** The pair of listings that a tick finds different, if there is one. */
  ghost predicate SetsDiffer(before: seq<Action>, listing: Option<seq<Addr>>) {
    listing.Some? && LastListing(before).Some? && Addresses(listing.value) != Addresses(LastListing(before).value)
  }

  /** What a tick after these actions has to say: the gap, and both lists of addresses. */
  ghost function Told(interval: int, before: seq<Action>, now: int, listing: Option<seq<Addr>>): seq<Reason> {
    (match PreviousTick(before)
     case Some(last) => if now - last > 2 * interval then [Slept(now - last)] else []
     case None => [])
    + if SetsDiffer(before, listing)
      then [Changed(Ipv4List(LastListing(before).value), Ipv4List(listing.value))]
      else []
  }

  lemma TickTells(interval: int, before: seq<Action>, now: int, listing: Option<seq<Addr>>)
    requires WallClock(before)
    ensures Reasons(Run(interval, before), interval, now, listing) == Told(interval, before, now, listing)
  {
    WatchRemembers(interval, before);
    if listing.Some? && LastListing(before).Some? {
      ListsDecideSets(listing.value, LastListing(before).value);
    }
  }

  lemma StepPending(w: Watch, interval: int, a: Action)
    requires Step(w, interval, a).pending.Some?
    ensures !a.Receives?
    ensures w.pending.Some? ==> Step(w, interval, a).pending == w.pending
    ensures w.pending.None? ==>
      var reasons := Reasons(w, interval, a.now, a.listing);
      reasons != [] && Step(w, interval, a).pending == Some(Event(reasons, a.now))
  {
  }

  /** After these actions this one sends the event into the empty channel. */
  ghost predicate Sends(interval: int, before: seq<Action>, a: Action, e: Event) {
    && a.Ticks? && Run(interval, before).pending.None?
    && e == Event(Told(interval, before, a.now, a.listing), a.now) && e.reasons != []
  }

  predicate NoReceive(acts: seq<Action>, from: nat) {
    forall j :: from <= j < |acts| ==> !acts[j].Receives?
  }

  lemma NoLaterReceive(acts: seq<Action>, k: nat)
    requires k < |acts| - 1 && NoReceive(acts[..|acts| - 1], k) && !acts[|acts| - 1].Receives?
    ensures NoReceive(acts, k) && acts[..|acts| - 1][..k] == acts[..k]
  {
    var last := |acts| - 1;
    forall j | k <= j < last
      ensures acts[j] == acts[..last][j]
    {
    }
  }

  /** The pending event is that of the first tick with something to say since the last receive: it says how long
      the gap was if there was one, and both lists of addresses if they differ. */
  lemma {:induction false} PendingIsFirst(interval: int, acts: seq<Action>) returns (k: nat)
    requires WallClock(acts) && Run(interval, acts).pending.Some?
    ensures k < |acts| && Sends(interval, acts[..k], acts[k], Run(interval, acts).pending.value) && NoReceive(acts, k)
  {
    k := |acts| - 1;
    var (before, a) := (acts[..k], acts[k]);
    StepPending(Run(interval, before), interval, a);
    if Run(interval, before).pending.Some? {
      k := PendingIsFirst(interval, before);
      NoLaterReceive(acts, k);
    } else {
      TickTells(interval, before, a.now, a.listing);
    }
  }
}
