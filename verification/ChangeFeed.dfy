/** The coalescing of change events into one notification a window (internal/kube/informer.go), with a
    record of every event ever accepted and every change ever handed out. */
module ChangeFeed {
  import opened Order
  import opened Watches

  const MAX_PENDING_KEYS := 256

  /** An object of a watch changed, or, without a name, the whole of it must be read again. */
  datatype Event = Event(key: WatchKey, name: Option<string>)

  datatype Pending = Pending(keys: set<string>, full: bool)

  datatype Change = Change(key: WatchKey, keys: seq<string>, full: bool)

  datatype Fate = Waiting | Sent(at: nat) | Dropped

  datatype Window = Window(key: WatchKey, fate: Fate)

  // ---- what a window holds ----

  ghost function NamesIn(accepted: seq<Event>, home: seq<nat>, w: nat): set<string> {
    set i | 0 <= i < |accepted| && i < |home| && home[i] == w && accepted[i].name.Some? :: accepted[i].name.value
  }

  ghost predicate AllIn(accepted: seq<Event>, home: seq<nat>, w: nat) {
    exists i :: 0 <= i < |accepted| && i < |home| && home[i] == w && accepted[i].name.None?
  }

  /** The window cannot be told by naming objects. */
  ghost predicate Overflows(accepted: seq<Event>, home: seq<nat>, w: nat) {
    AllIn(accepted, home, w) || |NamesIn(accepted, home, w)| > MAX_PENDING_KEYS
  }

  ghost predicate Sums(p: Pending, accepted: seq<Event>, home: seq<nat>, w: nat) {
    && (p.full <==> Overflows(accepted, home, w))
    && p.keys == if p.full then {} else NamesIn(accepted, home, w)
  }

  ghost predicate NoRepeats(s: seq<string>) {
    forall i, j :: 0 <= i < j < |s| ==> s[i] != s[j]
  }

  ghost predicate Tells(c: Change, key: WatchKey, accepted: seq<Event>, home: seq<nat>, w: nat) {
    && c.key == key
    && (c.full <==> Overflows(accepted, home, w))
    && NoRepeats(c.keys)
    && Elements(c.keys) == if c.full then {} else NamesIn(accepted, home, w)
  }

  lemma OtherWindow(accepted: seq<Event>, home: seq<nat>, e: Event, w: nat, other: nat)
    requires |home| == |accepted| && other != w
    ensures NamesIn(accepted + [e], home + [w], other) == NamesIn(accepted, home, other)
    ensures Overflows(accepted + [e], home + [w], other) == Overflows(accepted, home, other)
  {
    var a, h := accepted + [e], home + [w];
    forall n ensures n in NamesIn(a, h, other) <==> n in NamesIn(accepted, home, other) {
      if n in NamesIn(accepted, home, other) {
        var i :| 0 <= i < |accepted| && home[i] == other && accepted[i].name == Some(n);
        assert a[i] == accepted[i] && h[i] == home[i];
      }
    }
    if AllIn(accepted, home, other) {
      var i :| 0 <= i < |accepted| && home[i] == other && accepted[i].name.None?;
      assert a[i] == accepted[i] && h[i] == home[i];
    }
  }

  lemma SameWindow(accepted: seq<Event>, home: seq<nat>, e: Event, w: nat)
    requires |home| == |accepted|
    ensures NamesIn(accepted + [e], home + [w], w) == NamesIn(accepted, home, w) + if e.name.Some? then {e.name.value} else {}
    ensures AllIn(accepted + [e], home + [w], w) <==> AllIn(accepted, home, w) || e.name.None?
  {
    var a, h := accepted + [e], home + [w];
    var n := |accepted|;
    assert a[n] == e && h[n] == w;
    forall x ensures x in NamesIn(a, h, w) <==> x in NamesIn(accepted, home, w) || e.name == Some(x) {
      if x in NamesIn(accepted, home, w) {
        var i :| 0 <= i < |accepted| && home[i] == w && accepted[i].name == Some(x);
        assert a[i] == accepted[i] && h[i] == home[i];
      }
    }
    if AllIn(accepted, home, w) {
      var i :| 0 <= i < |accepted| && home[i] == w && accepted[i].name.None?;
      assert a[i] == accepted[i] && h[i] == home[i];
    }
  }

  /** What one more event does to a pending window. */
  function Absorb(p: Pending, name: Option<string>): Pending {
    if name.None? then Pending({}, true)
    else if p.full then p
    else if |p.keys + {name.value}| > MAX_PENDING_KEYS then Pending({}, true)
    else Pending(p.keys + {name.value}, false)
  }

  lemma AbsorbSums(p: Pending, accepted: seq<Event>, home: seq<nat>, e: Event, w: nat)
    requires |home| == |accepted| && Sums(p, accepted, home, w)
    ensures Sums(Absorb(p, e.name), accepted + [e], home + [w], w)
  {
    SameWindow(accepted, home, e, w);
    SubsetSize(NamesIn(accepted, home, w), NamesIn(accepted + [e], home + [w], w));
  }

  lemma FreshWindow(accepted: seq<Event>, home: seq<nat>, w: nat)
    requires forall i :: 0 <= i < |home| ==> home[i] < w
    ensures Sums(Pending({}, false), accepted, home, w)
  {
    assert NamesIn(accepted, home, w) == {};
  }

  // ---- the feed as a state machine ----

  /** What is pending, and the record: every event accepted, with the window it fell in; every window, with
      what became of it; every change handed out, with the window it tells of. */
  datatype State = State(pending: map<WatchKey, Pending>, closed: bool, accepted: seq<Event>, home: seq<nat>,
                         windows: seq<Window>, open: map<WatchKey, nat>, sent: seq<Change>, origin: seq<nat>)

  const INITIAL := State(map[], false, [], [], [], map[], [], [])

  ghost predicate Homes(s: State) {
    |s.home| == |s.accepted| &&
    forall i :: 0 <= i < |s.home| ==> s.home[i] < |s.windows| && s.windows[s.home[i]].key == s.accepted[i].key
  }

  ghost predicate Peopled(s: State) {
    forall w :: 0 <= w < |s.windows| ==> w in s.home
  }

  ghost predicate OpenAt(s: State, k: WatchKey) {
    k in s.pending && k in s.open && s.open[k] < |s.windows| && s.windows[s.open[k]] == Window(k, Waiting) &&
    Sums(s.pending[k], s.accepted, s.home, s.open[k])
  }

  ghost predicate Opens(s: State) {
    && s.open.Keys == s.pending.Keys
    && (forall k :: k in s.open ==> OpenAt(s, k))
    && (forall w :: 0 <= w < |s.windows| && s.windows[w].fate.Waiting? ==> s.windows[w].key in s.open && s.open[s.windows[w].key] == w)
  }

  ghost predicate SentAt(s: State, n: nat) {
    n < |s.sent| && n < |s.origin| && s.origin[n] < |s.windows| && s.windows[s.origin[n]].fate == Sent(n) &&
    Tells(s.sent[n], s.windows[s.origin[n]].key, s.accepted, s.home, s.origin[n])
  }

  ghost predicate Sends(s: State) {
    && |s.origin| == |s.sent|
    && (forall n :: 0 <= n < |s.sent| ==> SentAt(s, n))
    && (forall w :: 0 <= w < |s.windows| && s.windows[w].fate.Sent? ==> s.windows[w].fate.at < |s.sent| && s.origin[s.windows[w].fate.at] == w)
  }

  ghost predicate Closes(s: State) {
    (s.closed ==> s.pending == map[]) && forall w :: 0 <= w < |s.windows| && s.windows[w].fate.Dropped? ==> s.closed
  }

  ghost predicate Consistent(s: State) {
    Homes(s) && Peopled(s) && Opens(s) && Sends(s) && Closes(s)
  }

  function Opened(s: State, key: WatchKey): State {
    if key in s.pending then s
    else s.(pending := s.pending[key := Pending({}, false)], open := s.open[key := |s.windows|],
            windows := s.windows + [Window(key, Waiting)])
  }

  function Joined(s: State, e: Event): State
    requires e.key in s.pending && e.key in s.open
  {
    s.(pending := s.pending[e.key := Absorb(s.pending[e.key], e.name)], accepted := s.accepted + [e], home := s.home + [s.open[e.key]])
  }

  /** An event arrives: it joins the window of its watch, which is opened if there is none. */
  function Accepting(s: State, e: Event): State
    requires s.open.Keys == s.pending.Keys
  {
    if s.closed then s else Joined(Opened(s, e.key), e)
  }

  /** The change a window is told by, its names in the order the set was read out. */
  function ChangeOf(p: Pending, key: WatchKey, names: seq<string>): Change {
    Change(key, if p.full then [] else names, p.full)
  }

  /** A window's timer fires: it leaves the pending map and its change is handed out. */
  function Flushing(s: State, key: WatchKey, names: seq<string>): State
    requires s.open.Keys == s.pending.Keys
  {
    if key !in s.pending || s.open[key] >= |s.windows| then s
    else s.(pending := s.pending - {key}, open := s.open - {key},
            windows := s.windows[s.open[key] := Window(key, Sent(|s.sent|))],
            sent := s.sent + [ChangeOf(s.pending[key], key, names)], origin := s.origin + [s.open[key]])
  }

  function DropWaiting(w: Window): Window {
    if w.fate.Waiting? then Window(w.key, Dropped) else w
  }

  /** Windows still waiting when the hub closes are dropped. */
  function Closing(s: State): State {
    if s.closed then s
    else s.(pending := map[], closed := true, open := map[],
            windows := seq(|s.windows|, i requires 0 <= i < |s.windows| => DropWaiting(s.windows[i])))
  }

  // ---- each step keeps the record consistent ----

  lemma OpenedKeeps(s: State, key: WatchKey)
    requires Consistent(s)
    ensures var o := Opened(s, key); Homes(o) && Opens(o) && Sends(o) && (s.closed || Closes(o))
    ensures var o := Opened(s, key); key in o.open && forall w :: 0 <= w < |o.windows| && w != o.open[key] ==> w in o.home
  {
    var o := Opened(s, key);
    if key !in s.pending {
      FreshWindow(s.accepted, s.home, |s.windows|);
      forall k | k in o.open ensures OpenAt(o, k) { assert k != key ==> OpenAt(s, k); }
      forall n | 0 <= n < |o.sent| ensures SentAt(o, n) { assert SentAt(s, n); }
    } else {
      assert OpenAt(s, key);
    }
  }

  lemma JoinedPeopled(o: State, e: Event)
    requires Homes(o) && e.key in o.pending && e.key in o.open && o.open[e.key] < |o.windows| && o.windows[o.open[e.key]].key == e.key
    requires forall w :: 0 <= w < |o.windows| && w != o.open[e.key] ==> w in o.home
    ensures Homes(Joined(o, e)) && Peopled(Joined(o, e))
  {
    var s, w := Joined(o, e), o.open[e.key];
    assert s.home[|o.home|] == w;
    forall x | 0 <= x < |s.windows| ensures x in s.home {
      if x != w {
        assert x in o.home;
        var i :| 0 <= i < |o.home| && o.home[i] == x;
        assert s.home[i] == x;
      }
    }
  }

  lemma JoinedOpens(o: State, e: Event)
    requires Homes(o) && Opens(o) && e.key in o.pending && e.key in o.open
    ensures Opens(Joined(o, e))
  {
    var s, w := Joined(o, e), o.open[e.key];
    assert OpenAt(o, e.key);
    AbsorbSums(o.pending[e.key], o.accepted, o.home, e, w);
    forall k | k in s.open ensures OpenAt(s, k) {
      assert OpenAt(o, k);
      if k != e.key { OtherWindow(o.accepted, o.home, e, w, o.open[k]); }
    }
  }

  lemma JoinedSends(o: State, e: Event)
    requires Homes(o) && Opens(o) && Sends(o) && e.key in o.pending && e.key in o.open
    ensures Sends(Joined(o, e))
  {
    var s, w := Joined(o, e), o.open[e.key];
    assert OpenAt(o, e.key);
    forall n | 0 <= n < |s.sent| ensures SentAt(s, n) {
      assert SentAt(o, n);
      OtherWindow(o.accepted, o.home, e, w, o.origin[n]);
    }
  }

  lemma AcceptingKeeps(s: State, e: Event)
    requires Consistent(s)
    ensures Consistent(Accepting(s, e))
  {
    if !s.closed {
      var o := Opened(s, e.key);
      OpenedKeeps(s, e.key);
      assert OpenAt(o, e.key);
      JoinedPeopled(o, e);
      JoinedOpens(o, e);
      JoinedSends(o, e);
    }
  }

  lemma AcceptingPending(s: State, e: Event)
    requires s.open.Keys == s.pending.Keys && !s.closed
    ensures Accepting(s, e).pending == s.pending[e.key := Absorb(if e.key in s.pending then s.pending[e.key] else Pending({}, false), e.name)]
    ensures !Accepting(s, e).closed
  {
  }

  lemma AcceptingSent(s: State, e: Event)
    requires s.open.Keys == s.pending.Keys
    ensures Accepting(s, e).sent == s.sent
  {
  }

  lemma ClosedAccepts(s: State, e: Event)
    requires s.open.Keys == s.pending.Keys && s.closed
    ensures Accepting(s, e) == s
  {
  }

  lemma OpenKeys(s: State)
    requires Consistent(s)
    ensures s.open.Keys == s.pending.Keys
  {
  }

  lemma HandedOut(s: State, key: WatchKey, names: seq<string>)
    requires OpenAt(s, key) && NoRepeats(names) && (!s.pending[key].full ==> Elements(names) == s.pending[key].keys)
    ensures Tells(ChangeOf(s.pending[key], key, names), key, s.accepted, s.home, s.open[key])
  {
  }

  lemma FlushingOpens(s: State, key: WatchKey, names: seq<string>)
    requires Opens(s) && key in s.pending
    ensures Opens(Flushing(s, key, names))
  {
    var t := Flushing(s, key, names);
    assert OpenAt(s, key);
    forall k | k in t.open ensures OpenAt(t, k) { assert OpenAt(s, k); }
  }

  lemma FlushingSends(s: State, key: WatchKey, names: seq<string>)
    requires Opens(s) && Sends(s) && key in s.pending
    requires NoRepeats(names) && (!s.pending[key].full ==> Elements(names) == s.pending[key].keys)
    ensures Sends(Flushing(s, key, names))
  {
    var t := Flushing(s, key, names);
    assert OpenAt(s, key);
    HandedOut(s, key, names);
    forall n | 0 <= n < |t.sent| ensures SentAt(t, n) {
      if n < |s.sent| { assert SentAt(s, n); }
    }
  }

  lemma FlushingKeeps(s: State, key: WatchKey, names: seq<string>)
    requires Consistent(s) && NoRepeats(names) && (key in s.pending && !s.pending[key].full ==> Elements(names) == s.pending[key].keys)
    ensures Consistent(Flushing(s, key, names))
    ensures key in s.pending ==> Flushing(s, key, names).sent == s.sent + [ChangeOf(s.pending[key], key, names)]
  {
    if key in s.pending {
      assert OpenAt(s, key);
      FlushingOpens(s, key, names);
      FlushingSends(s, key, names);
    }
  }

  lemma ClosingKeeps(s: State)
    requires Consistent(s)
    ensures Consistent(Closing(s)) && Closing(s).closed
  {
    var t := Closing(s);
    forall n | 0 <= n < |t.sent| ensures SentAt(t, n) { assert SentAt(s, n); }
  }

  // ---- whole runs ----

  datatype Step = Accept(e: Event) | Fire(key: WatchKey, names: seq<string>) | Shut

  /** A timer's flush reads out the names its window holds, each once, in some order. */
  ghost predicate Allowed(s: State, step: Step) {
    step.Fire? ==> NoRepeats(step.names) && (step.key in s.pending && !s.pending[step.key].full ==> Elements(step.names) == s.pending[step.key].keys)
  }

  ghost function Next(s: State, step: Step): State
    requires s.open.Keys == s.pending.Keys
  {
    match step
    case Accept(e) => Accepting(s, e)
    case Fire(key, names) => Flushing(s, key, names)
    case Shut => Closing(s)
  }

  ghost predicate Run(states: seq<State>, steps: seq<Step>) {
    && |states| == |steps| + 1 && states[0] == INITIAL
    && forall i :: 0 <= i < |steps| ==>
         states[i].open.Keys == states[i].pending.Keys && Allowed(states[i], steps[i]) && states[i + 1] == Next(states[i], steps[i])
  }

  lemma NextKeeps(s: State, step: Step)
    requires Consistent(s) && Allowed(s, step)
    ensures Consistent(Next(s, step))
  {
    match step
    case Accept(e) => AcceptingKeeps(s, e);
    case Fire(key, names) => FlushingKeeps(s, key, names);
    case Shut => ClosingKeeps(s);
  }

  lemma {:induction false} RunsAreConsistent(states: seq<State>, steps: seq<Step>, i: nat)
    requires Run(states, steps) && i < |states|
    ensures Consistent(states[i])
  {
    if i > 0 {
      RunsAreConsistent(states, steps, i - 1);
      NextKeeps(states[i - 1], steps[i - 1]);
    }
  }

  predicate Told(c: Change, e: Event) {
    c.key == e.key && (c.full || (e.name.Some? && e.name.value in c.keys))
  }

  /** Told by exactly one of the changes handed out, the one of its window. */
  ghost predicate ToldOnce(s: State, i: nat) {
    i < |s.accepted| && i < |s.home| &&
    exists n :: 0 <= n < |s.sent| && n < |s.origin| && s.origin[n] == s.home[i] && Told(s.sent[n], s.accepted[i]) &&
      forall m :: 0 <= m < |s.sent| && m < |s.origin| && s.origin[m] == s.home[i] ==> m == n
  }

  ghost predicate StillPending(s: State, i: nat) {
    i < |s.accepted| && s.accepted[i].key in s.pending &&
    var p := s.pending[s.accepted[i].key];
    p.full || (s.accepted[i].name.Some? && s.accepted[i].name.value in p.keys)
  }

  ghost predicate ClosedOver(s: State, i: nat) {
    s.closed && i < |s.home| && s.home[i] < |s.windows| && s.windows[s.home[i]].fate.Dropped?
  }

  /** No change is lost: in every state of every run, each accepted event is told by exactly one change, or
      is still pending, or the hub closed over it. */
  lemma NoChangeIsLost(states: seq<State>, steps: seq<Step>, at: nat, i: nat)
    requires Run(states, steps) && at < |states| && i < |states[at].accepted|
    ensures var s := states[at];
      ToldOnce(s, i) || StillPending(s, i) || ClosedOver(s, i)
  {
    var s := states[at];
    RunsAreConsistent(states, steps, at);
    var w := s.home[i];
    EventCounts(s.accepted, s.home, i);
    match s.windows[w].fate
    case Sent(n) =>
      assert SentAt(s, n);
      if !s.sent[n].full { assert s.accepted[i].name.value in Elements(s.sent[n].keys); }
      forall m | 0 <= m < |s.sent| && s.origin[m] == w ensures m == n { assert SentAt(s, m); }
      assert s.origin[n] == w && Told(s.sent[n], s.accepted[i]);
    case Waiting =>
      assert OpenAt(s, s.accepted[i].key);
    case Dropped =>
  }

  /** A change that names objects names exactly those of its window, at least one and at most 256; a change
      that names none had too many to name or was asked to. */
  lemma NamedChangesAreExact(states: seq<State>, steps: seq<Step>, at: nat, n: nat)
    requires Run(states, steps) && at < |states| && n < |states[at].sent|
    ensures var s := states[at];
      && n < |s.origin|
      && (s.sent[n].full <==> Overflows(s.accepted, s.home, s.origin[n]))
      && (!s.sent[n].full ==> Elements(s.sent[n].keys) == NamesIn(s.accepted, s.home, s.origin[n]) && 0 < |s.sent[n].keys| <= MAX_PENDING_KEYS)
  {
    var s := states[at];
    RunsAreConsistent(states, steps, at);
    assert SentAt(s, n);
    if !s.sent[n].full {
      DistinctSize(s.sent[n].keys);
      assert s.origin[n] in s.home;
      var i :| 0 <= i < |s.home| && s.home[i] == s.origin[n];
      EventCounts(s.accepted, s.home, i);
      assert s.accepted[i].name.value in Elements(s.sent[n].keys);
    }
  }

  // ---- the code ----

  class Feed {
    var pending: map<WatchKey, Pending>
    var closed: bool
    ghost var state: State
    ghost var delivered: seq<nat>  // which of the changes handed out have reached the reader, in order

    ghost predicate Valid()
      reads this
    {
      && state.pending == pending && state.closed == closed && Consistent(state)
      && (forall d :: 0 <= d < |delivered| ==> delivered[d] < |state.sent|)
      && (forall c, d :: 0 <= c < d < |delivered| ==> delivered[c] != delivered[d])
    }

    constructor ()
      ensures Valid() && state == INITIAL && delivered == []
    {
      pending, closed, state, delivered := map[], false, INITIAL, [];
    }

    method Accumulate(key: WatchKey, name: Option<string>)
      requires Valid()
      modifies this`pending, this`state
      ensures Valid() && state == Accepting(old(state), Event(key, name))
    {
      hide Homes, Peopled, Opens, Sends, Closes, Accepting;
      ghost var e := Event(key, name);
      OpenKeys(state);
      AcceptingKeeps(state, e);
      if closed {
        ClosedAccepts(state, e);
        return;
      }
      AcceptingPending(state, e);
      AcceptingSent(state, e);
      state := Accepting(state, e);
      var waiting := if key in pending then pending[key] else Pending({}, false);
      if name.None? {
        waiting := Pending({}, true);
      } else if !waiting.full {
        waiting := waiting.(keys := waiting.keys + {name.value});
        if |waiting.keys| > MAX_PENDING_KEYS {
          waiting := Pending({}, true);
        }
      }
      pending := pending[key := waiting];
    }

    /** The timer of a window fires. The reader is notified after the lock is released, by Notify. */
    method Flush(key: WatchKey) returns (change: Option<Change>)
      requires Valid()
      modifies this`pending, this`state
      ensures Valid()
      ensures change.Some? <==> key in old(pending)
      ensures change.None? ==> state == old(state)
      ensures change.Some? ==> exists names :: (Allowed(old(state), Fire(key, names)) && state == Flushing(old(state), key, names)
                && change.value == ChangeOf(old(pending)[key], key, names))
    {
      if key !in pending { return None; }
      var waiting := pending[key];
      pending := pending - {key};
      var keys: seq<string> := [];
      if !waiting.full {
        keys := List(waiting.keys);
      }
      FlushingKeeps(state, key, keys);
      assert Allowed(state, Fire(key, keys));
      assert OpenAt(state, key);
      state := Flushing(state, key, keys);
      return Some(Change(key, keys, waiting.full));
    }

    /** The reader receives a change a flush built, in whatever order the flushes get there. */
    ghost method Notify(n: nat)
      requires Valid() && n < |state.sent| && n !in delivered
      modifies this`delivered
      ensures Valid() && delivered == old(delivered) + [n]
    {
      delivered := delivered + [n];
    }

    method Close()
      requires Valid()
      modifies this`pending, this`closed, this`state
      ensures Valid() && closed && pending == map[] && state == Closing(old(state))
    {
      ClosingKeeps(state);
      state := Closing(state);
      if closed { return; }
      closed := true;
      pending := map[];
    }
  }

  lemma EventCounts(accepted: seq<Event>, home: seq<nat>, i: nat)
    requires i < |accepted| == |home|
    ensures accepted[i].name.Some? ==> accepted[i].name.value in NamesIn(accepted, home, home[i])
    ensures accepted[i].name.None? ==> Overflows(accepted, home, home[i])
  {
  }

  lemma {:induction false} DistinctSize(s: seq<string>)
    requires NoRepeats(s)
    ensures |Elements(s)| == |s|
  {
    if s != [] {
      DistinctSize(s[1..]);
      assert Elements(s) == {s[0]} + Elements(s[1..]);
      assert s[0] !in s[1..];
    }
  }

  /** Ranging over a set of names. */
  method List(names: set<string>) returns (s: seq<string>)
    ensures Elements(s) == names && NoRepeats(s)
  {
    s := [];
    var rest := names;
    while rest != {}
      invariant forall n :: n in names <==> n in s || n in rest
      invariant forall n :: n in s ==> n !in rest
      invariant NoRepeats(s)
      decreases rest
    {
      var n :| n in rest;
      s, rest := s + [n], rest - {n};
    }
  }

  /** One hub: its watches and its feed, closed together. */
  class Hub {
    const registry: Registry
    const feed: Feed

    ghost predicate Valid()
      reads this, registry, registry.created, feed
    {
      registry.Valid() && feed.Valid() && registry.closed == feed.closed
    }

    constructor ()
      ensures Valid() && fresh(registry) && fresh(feed) && !registry.closed
    {
      registry := new Registry();
      feed := new Feed();
    }

    /** Closing stops every watch and drops every pending window; closing again changes nothing. */
    method Close()
      requires Valid()
      modifies registry`watches, registry`closed, registry.created, feed
      ensures Valid() && registry.closed && registry.watches == map[] && feed.pending == map[]
      ensures forall w :: w in registry.created ==> w.stopped
    {
      registry.CloseWatches();
      feed.Close();
    }
  }
}
