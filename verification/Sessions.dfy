/** Cluster sessions as a concurrent protocol (internal/cluster/manager.go): every step is one critical
    section, or one thing a goroutine learns between two of them, and any number of goroutines run. */
module Sessions {
  import opened Order

  datatype Status = WaitingAccess | Connecting | Connected | Unauthorized | Unreachable | Failed

  datatype Failure =
    | NoFailure | AccessDown | NoRoute | Dns | TcpTimeout | Tls | BadCredentials | Forbidden
    | ApiUnavailable | Config | CredentialHelper

  function StateFor(f: Failure): Status {
    match f
    case NoFailure => Connected
    case AccessDown => WaitingAccess
    case BadCredentials => Unauthorized
    case Forbidden => Unauthorized
    case Config => Failed
    case CredentialHelper => Failed
    case _ => Unreachable
  }

  /** Only the absence of an error reads as connected, and no error reads as still connecting. */
  lemma FailuresAreNotConnected(f: Failure)
    ensures (StateFor(f) == Connected <==> f == NoFailure) && StateFor(f) != Connecting
  {
  }

  /** One cluster's live state. A session that only carries a state has no client, no hub and no epoch. The stored
      catalogue is known by the epoch it is stamped with and the client it was read with. */
  datatype Session = Session(state: Status, client: Option<nat>, hub: Option<nat>, epoch: Option<nat>,
                             snapshot: Option<nat>, readWith: Option<nat>, forwarded: bool)

  /** What the manager's lock protects, with the hubs that have not been closed. */
  datatype Book = Book(sessions: map<string, Session>, connecting: set<string>, readOnly: set<string>, open: set<nat>)

  const BLANK := Session(Failed, None, None, None, None, None, false)

  // ---- the critical sections ----

  function Entered(b: Book, c: string): Book {
    b.(connecting := b.connecting + {c})
  }

  function Left(b: Book, c: string): Book {
    b.(connecting := b.connecting - {c})
  }

  /** Writes a state, into a session made for it where the cluster has none. */
  function Transitioned(b: Book, c: string, state: Status): Book {
    b.(sessions := b.sessions[c := (if c in b.sessions then b.sessions[c] else BLANK).(state := state)])
  }

  function WithoutHub(open: set<nat>, s: Session): set<nat> {
    if s.hub.Some? then open - {s.hub.value} else open
  }

  function HubClosed(b: Book, c: string): set<nat> {
    if c in b.sessions then WithoutHub(b.open, b.sessions[c]) else b.open
  }

  /** A session goes, and its hub with it. */
  function Removed(b: Book, c: string): Book {
    b.(sessions := b.sessions - {c}, open := HubClosed(b, c))
  }

  function Disconnected(b: Book, c: string): Book {
    Removed(b, c).(readOnly := b.readOnly - {c})
  }

  function Installed(b: Book, c: string, client: nat, hub: nat, epoch: nat, forwarded: bool): Book {
    b.(sessions := b.sessions[c := Session(Connected, Some(client), Some(hub), Some(epoch), Some(epoch), Some(client), forwarded)],
       open := HubClosed(b, c))
  }

  function HeldHubs(sessions: map<string, Session>): set<nat> {
    set c | c in sessions && sessions[c].hub.Some? :: sessions[c].hub.value
  }

  function AllRemoved(b: Book): Book {
    Book(map[], b.connecting, {}, b.open - HeldHubs(b.sessions))
  }

  predicate IsConnected(b: Book, c: string) {
    c in b.sessions && b.sessions[c].state == Connected
  }

  predicate IsForwarded(b: Book, c: string) {
    IsConnected(b, c) && b.sessions[c].forwarded
  }

  /** A fresh reading of the catalogue, stamped with the epoch of the session it is stored in. */
  function Refreshed(b: Book, c: string, client: nat): Book {
    if c in b.sessions then
      b.(sessions := b.sessions[c := b.sessions[c].(snapshot := b.sessions[c].epoch, readWith := Some(client))])
    else b
  }

  function Toggled(b: Book, c: string, on: bool): Book {
    b.(readOnly := if on then b.readOnly + {c} else b.readOnly - {c})
  }

  // ---- the goroutines ----

  /** Where a goroutine stands between two critical sections. The first six are inside Connect. */
  datatype Task =
    | Guarded(cluster: string)
    | Trying(cluster: string)
    | Probing(cluster: string, client: nat)
    | Ready(cluster: string, client: nat, hub: nat, epoch: nat, forwarded: bool)
    | Failing(cluster: string, failure: Failure)
    | Leaving(cluster: string)
    | Marking(cluster: string, state: Status)
    | Checking(cluster: string)
    | Refreshing(cluster: string, client: nat)

  predicate InConnect(t: Task) {
    t.Guarded? || Underway(t) || t.Leaving?
  }

  /** The attempt has been announced and has not come to its end. */
  predicate Underway(t: Task) {
    t.Trying? || t.Probing? || t.Ready? || t.Failing?
  }

  /** The book, the goroutines, the hubs ever installed, and a number nothing has used yet. */
  datatype World = World(book: Book, tasks: map<nat, Task>, installed: set<nat>, next: nat)

  const INITIAL := World(Book(map[], {}, {}, {}), map[], {}, 0)

  datatype Step =
    | Begin(cluster: string)
    | Announce(id: nat)
    | GiveUp(id: nat, failure: Failure)
    | Build(id: nat)
    | Reject(id: nat, failure: Failure)
    | Accept(id: nat, forwarded: bool)
    | Install(id: nat)
    | Mark(id: nat)
    | Leave(id: nat)
    | Disconnect(cluster: string)
    | CloseAll
    | LoseAccess(cluster: string)
    | LoseCredentials(cluster: string)
    | Resume(cluster: string)
    | Answered(id: nat)
    | Unanswered(id: nat, failure: Failure)
    | Refresh(cluster: string)
    | StoreRefresh(id: nat)
    | SetReadOnly(cluster: string, on: bool)

  function Spawn(w: World, b: Book, t: Task): World {
    w.(book := b, tasks := w.tasks[w.next := t], next := w.next + 1)
  }

  function Move(w: World, id: nat, b: Book, t: Task): World {
    w.(book := b, tasks := w.tasks[id := t])
  }

  function End(w: World, id: nat, b: Book): World {
    w.(book := b, tasks := w.tasks - {id})
  }

  /** A step of a goroutine; a step it is not ready for changes nothing. */
  function TaskStep(w: World, s: Step, id: nat, t: Task): World {
    match (s, t)
    case (Announce(_), Guarded(c)) => Move(w, id, Transitioned(w.book, c, Connecting), Trying(c))
    case (GiveUp(_, f), Trying(c)) => if f == NoFailure then w else Move(w, id, w.book, Failing(c, f))
    case (Build(_), Trying(c)) => Move(w, id, w.book, Probing(c, w.next)).(next := w.next + 1)
    case (Reject(_, f), Probing(c, _)) => if f == NoFailure then w else Move(w, id, w.book, Failing(c, f))
    case (Accept(_, forwarded), Probing(c, client)) =>
      Move(w, id, w.book.(open := w.book.open + {w.next}), Ready(c, client, w.next, w.next + 1, forwarded)).(next := w.next + 2)
    case (Install(_), Ready(c, client, hub, epoch, forwarded)) =>
      Move(w, id, Installed(w.book, c, client, hub, epoch, forwarded), Leaving(c)).(installed := w.installed + {hub})
    case (Mark(_), Failing(c, f)) => Move(w, id, Transitioned(w.book, c, StateFor(f)), Leaving(c))
    case (Mark(_), Marking(c, state)) => End(w, id, Transitioned(w.book, c, state))
    case (Leave(_), Leaving(c)) => End(w, id, Left(w.book, c))
    case (Answered(_), Checking(_)) => End(w, id, w.book)
    case (Unanswered(_, f), Checking(c)) =>
      if f == NoFailure then w
      else if !IsConnected(w.book, c) then End(w, id, w.book)
      else Move(w, id, Removed(w.book, c), Marking(c, StateFor(f)))
    case (StoreRefresh(_), Refreshing(c, client)) => End(w, id, Refreshed(w.book, c, client))
    case _ => w
  }

  function CallStep(w: World, s: Step): World {
    match s
    case Begin(c) => if c in w.book.connecting then w else Spawn(w, Entered(w.book, c), Guarded(c))
    case Disconnect(c) => w.(book := Disconnected(w.book, c))
    case CloseAll => w.(book := AllRemoved(w.book))
    case LoseAccess(c) => if IsForwarded(w.book, c) then Spawn(w, Removed(w.book, c), Marking(c, WaitingAccess)) else w
    case LoseCredentials(c) => if IsConnected(w.book, c) then Spawn(w, Removed(w.book, c), Marking(c, Unauthorized)) else w
    case Resume(c) => if IsConnected(w.book, c) && w.book.sessions[c].client.Some? then Spawn(w, w.book, Checking(c)) else w
    case Refresh(c) =>
      if IsConnected(w.book, c) && w.book.sessions[c].client.Some? then Spawn(w, w.book, Refreshing(c, w.book.sessions[c].client.value)) else w
    case SetReadOnly(c, on) => w.(book := Toggled(w.book, c, on))
    case _ => w
  }

  predicate OfTask(s: Step) {
    s.Announce? || s.GiveUp? || s.Build? || s.Reject? || s.Accept? || s.Install? || s.Mark? || s.Leave? || s.Answered? ||
    s.Unanswered? || s.StoreRefresh?
  }

  function Next(w: World, s: Step): World {
    if OfTask(s) then (if s.id in w.tasks then TaskStep(w, s, s.id, w.tasks[s.id]) else w) else CallStep(w, s)
  }

  function Run(w: World, steps: seq<Step>): World
    decreases |steps|
  {
    if steps == [] then w else Run(Next(w, steps[0]), steps[1..])
  }

  // ---- what the world says, as total readings of it ----

  /** The cluster whose guard a goroutine holds. */
  function Claim(w: World, id: nat): Option<string> {
    if id in w.tasks && InConnect(w.tasks[id]) then Some(w.tasks[id].cluster) else None
  }

  function ReadyHub(w: World, id: nat): Option<nat> {
    if id in w.tasks && w.tasks[id].Ready? then Some(w.tasks[id].hub) else None
  }

  function ReadyEpoch(w: World, id: nat): Option<nat> {
    if id in w.tasks && w.tasks[id].Ready? then Some(w.tasks[id].epoch) else None
  }

  function HubOf(w: World, c: string): Option<nat> {
    if c in w.book.sessions then w.book.sessions[c].hub else None
  }

  function EpochOf(w: World, c: string): Option<nat> {
    if c in w.book.sessions then w.book.sessions[c].epoch else None
  }

  predicate Attempts(w: World, id: nat, c: string) {
    id in w.tasks && Underway(w.tasks[id]) && w.tasks[id].cluster == c
  }

  // ---- what every step keeps ----

  ghost predicate Claimed(w: World, c: string) {
    exists id: nat :: Claim(w, id) == Some(c)
  }

  /** A cluster is marked connecting exactly while one Connect is past the guard. */
  ghost predicate GuardHolds(w: World) {
    && (forall c :: c in w.book.connecting <==> Claimed(w, c))
    && (forall i: nat, j: nat :: Claim(w, i).Some? && Claim(w, i) == Claim(w, j) ==> i == j)
  }

  ghost predicate Held(w: World, h: nat) {
    exists c :: HubOf(w, c) == Some(h)
  }

  ghost predicate InFlight(w: World, h: nat) {
    exists id: nat :: ReadyHub(w, id) == Some(h)
  }

  /** A hub is open exactly while a session holds it or a Connect is about to install it; no two share one. */
  ghost predicate HubsHold(w: World) {
    && (forall h :: h in w.book.open <==> Held(w, h) || InFlight(w, h))
    && (forall h :: Held(w, h) ==> h in w.installed)
    && (forall h :: InFlight(w, h) ==> h !in w.installed)
    && (forall c, d :: HubOf(w, c).Some? && HubOf(w, c) == HubOf(w, d) ==> c == d)
    && (forall i: nat, j: nat :: ReadyHub(w, i).Some? && ReadyHub(w, i) == ReadyHub(w, j) ==> i == j)
  }

  /** A session has all of a client, a hub and an epoch, or none; its snapshot carries its own epoch. */
  predicate Whole(s: Session) {
    && (s.client.Some? <==> s.hub.Some?) && (s.epoch.Some? <==> s.hub.Some?)
    && s.snapshot == s.epoch
    && (s.state == Connected ==> s.hub.Some?)
  }

  ghost predicate SessionsWhole(w: World) {
    forall c :: c in w.book.sessions ==> Whole(w.book.sessions[c])
  }

  ghost predicate Attempted(w: World, c: string) {
    exists id: nat :: Attempts(w, id, c)
  }

  predicate EndsWell(t: Task) {
    (t.Failing? ==> t.failure != NoFailure) && (t.Marking? ==> t.state != Connecting && t.state != Connected)
  }

  /** A session says it is connecting only while an announced attempt is on its way. */
  ghost predicate SpinnersEnd(w: World) {
    && (forall c :: c in w.book.sessions && w.book.sessions[c].state == Connecting ==> Attempted(w, c))
    && (forall id :: id in w.tasks ==> EndsWell(w.tasks[id]))
  }

  ghost predicate EpochsDiffer(w: World) {
    && (forall c, d :: EpochOf(w, c).Some? && EpochOf(w, c) == EpochOf(w, d) ==> c == d)
    && (forall c, i: nat :: EpochOf(w, c).Some? ==> EpochOf(w, c) != ReadyEpoch(w, i))
    && (forall i: nat, j: nat :: ReadyEpoch(w, i).Some? && ReadyEpoch(w, i) == ReadyEpoch(w, j) ==> i == j)
  }

  ghost predicate NumbersFresh(w: World) {
    && (forall id :: id in w.tasks ==> id < w.next)
    && (forall id: nat :: ReadyEpoch(w, id).Some? ==> ReadyEpoch(w, id).value < w.next)
    && (forall c :: EpochOf(w, c).Some? ==> EpochOf(w, c).value < w.next)
    && (forall h :: h in w.book.open || h in w.installed ==> h < w.next)
  }

  ghost predicate Sound(w: World) {
    NumbersFresh(w) && GuardHolds(w) && HubsHold(w) && SessionsWhole(w) && SpinnersEnd(w) && EpochsDiffer(w)
  }

  /** Only the check of Connect takes a guard, and only its deferred end gives one back. */
  lemma ClaimAfter(w: World, s: Step, id: nat)
    requires NumbersFresh(w)
    ensures
      var v := Next(w, s);
      if s.Begin? && s.cluster !in w.book.connecting && id == w.next then
        Claim(v, id) == Some(s.cluster)
      else if s.Leave? && s.id == id && id in w.tasks && w.tasks[id].Leaving? then
        Claim(v, id) == None && Claim(w, id) == Some(w.tasks[id].cluster)
      else
        Claim(v, id) == Claim(w, id)
  {
  }

  lemma ConnectingAfter(w: World, s: Step)
    ensures Next(w, s).book.connecting ==
      if s.Begin? then w.book.connecting + {s.cluster}
      else if s.Leave? && s.id in w.tasks && w.tasks[s.id].Leaving? then w.book.connecting - {w.tasks[s.id].cluster}
      else w.book.connecting
  {
  }

  lemma GuardTaken(w: World, v: World, id: nat, c: string)
    requires GuardHolds(w) && c !in w.book.connecting && v.book.connecting == w.book.connecting + {c}
    requires Claim(w, id) == None && Claim(v, id) == Some(c) && forall i: nat :: i != id ==> Claim(v, i) == Claim(w, i)
    ensures GuardHolds(v)
  {
    hide Claim;
    forall d ensures d in v.book.connecting <==> Claimed(v, d) {
      assert d in w.book.connecting <==> Claimed(w, d);
      if Claimed(w, d) {
        var i: nat :| Claim(w, i) == Some(d);
        assert Claim(v, i) == Some(d);
      }
      assert d == c ==> Claim(v, id) == Some(d);
    }
    forall i: nat | i != id ensures Claim(v, i) != Some(c) { assert Claim(w, i) == Some(c) ==> Claimed(w, c); }
  }

  lemma GuardGiven(w: World, v: World, id: nat, c: string)
    requires GuardHolds(w) && v.book.connecting == w.book.connecting - {c}
    requires Claim(w, id) == Some(c) && Claim(v, id) == None && forall i: nat :: i != id ==> Claim(v, i) == Claim(w, i)
    ensures GuardHolds(v)
  {
    hide Claim;
    forall d ensures d in v.book.connecting <==> Claimed(v, d) {
      assert d in w.book.connecting <==> Claimed(w, d);
      if Claimed(w, d) {
        var i: nat :| Claim(w, i) == Some(d);
        assert d != c ==> Claim(v, i) == Some(d);
      }
    }
  }

  lemma GuardStays(w: World, v: World)
    requires GuardHolds(w) && v.book.connecting == w.book.connecting && forall i: nat :: Claim(v, i) == Claim(w, i)
    ensures GuardHolds(v)
  {
    hide Claim;
    forall d ensures d in v.book.connecting <==> Claimed(v, d) {
      assert d in w.book.connecting <==> Claimed(w, d);
      if Claimed(w, d) {
        var i: nat :| Claim(w, i) == Some(d);
        assert Claim(v, i) == Some(d);
      }
    }
  }

  lemma GuardKept(w: World, s: Step)
    requires NumbersFresh(w) && GuardHolds(w)
    ensures GuardHolds(Next(w, s))
  {
    var v := Next(w, s);
    hide Next, GuardHolds;
    ConnectingAfter(w, s);
    forall id: nat { ClaimAfter(w, s, id); }
    if s.Begin? && s.cluster !in w.book.connecting {
      GuardTaken(w, v, w.next, s.cluster);
    } else if s.Leave? && s.id in w.tasks && w.tasks[s.id].Leaving? {
      GuardGiven(w, v, s.id, w.tasks[s.id].cluster);
    } else {
      GuardStays(w, v);
    }
  }

  // ---- hubs and epochs ----

  /** What a step does to the hubs: makes one, moves one into a session, takes one or all out, or nothing. */
  datatype Effect = Nothing | Made(id: nat) | Placed(id: nat, c: string) | Gone(c: string) | AllGone

  function EffectOf(w: World, s: Step): Effect {
    match s
    case Accept(id, _) => if id in w.tasks && w.tasks[id].Probing? then Made(id) else Nothing
    case Install(id) => if id in w.tasks && w.tasks[id].Ready? then Placed(id, w.tasks[id].cluster) else Nothing
    case Disconnect(c) => Gone(c)
    case LoseAccess(c) => if IsForwarded(w.book, c) then Gone(c) else Nothing
    case LoseCredentials(c) => if IsConnected(w.book, c) then Gone(c) else Nothing
    case Unanswered(id, f) =>
      if id in w.tasks && w.tasks[id].Checking? && f != NoFailure && IsConnected(w.book, w.tasks[id].cluster) then
        Gone(w.tasks[id].cluster)
      else Nothing
    case CloseAll => AllGone
    case _ => Nothing
  }

  ghost predicate HubsMove(w: World, v: World, e: Effect) {
    match e
    case Nothing => v.book.open == w.book.open && v.installed == w.installed
    case Made(id) => v.book.open == w.book.open + {w.next} && v.installed == w.installed
    case Placed(id, c) =>
      && ReadyHub(w, id).Some? && v.installed == w.installed + {ReadyHub(w, id).value}
      && v.book.open == (if HubOf(w, c).Some? then w.book.open - {HubOf(w, c).value} else w.book.open)
    case Gone(c) =>
      v.installed == w.installed && v.book.open == (if HubOf(w, c).Some? then w.book.open - {HubOf(w, c).value} else w.book.open)
    case AllGone => v.installed == w.installed && v.book.open == w.book.open - HeldHubs(w.book.sessions)
  }

  lemma HubsAfter(w: World, s: Step)
    ensures HubsMove(w, Next(w, s), EffectOf(w, s))
  {
  }

  function ReadyHubAfter(w: World, e: Effect, id: nat): Option<nat> {
    if e.Made? && id == e.id then Some(w.next) else if e.Placed? && id == e.id then None else ReadyHub(w, id)
  }

  function HubOfAfter(w: World, e: Effect, c: string): Option<nat> {
    if e.Placed? && c == e.c then ReadyHub(w, e.id) else if (e.Gone? && c == e.c) || e.AllGone? then None else HubOf(w, c)
  }

  function ReadyEpochAfter(w: World, e: Effect, id: nat): Option<nat> {
    if e.Made? && id == e.id then Some(w.next + 1) else if e.Placed? && id == e.id then None else ReadyEpoch(w, id)
  }

  function EpochOfAfter(w: World, e: Effect, c: string): Option<nat> {
    if e.Placed? && c == e.c then ReadyEpoch(w, e.id) else if (e.Gone? && c == e.c) || e.AllGone? then None else EpochOf(w, c)
  }

  lemma ReadyAfter(w: World, s: Step, id: nat)
    requires NumbersFresh(w)
    ensures ReadyHub(Next(w, s), id) == ReadyHubAfter(w, EffectOf(w, s), id)
    ensures ReadyEpoch(Next(w, s), id) == ReadyEpochAfter(w, EffectOf(w, s), id)
  {
  }

  lemma SessionAfter(w: World, s: Step, c: string)
    ensures HubOf(Next(w, s), c) == HubOfAfter(w, EffectOf(w, s), c)
    ensures EpochOf(Next(w, s), c) == EpochOfAfter(w, EffectOf(w, s), c)
  {
  }

  ghost predicate HubsRead(w: World, v: World, e: Effect) {
    && HubsMove(w, v, e)
    && (forall id: nat :: ReadyHub(v, id) == ReadyHubAfter(w, e, id))
    && (forall c :: HubOf(v, c) == HubOfAfter(w, e, c))
  }

  lemma HubsStayDistinct(w: World, v: World, e: Effect)
    requires HubsHold(w) && NumbersFresh(w) && HubsRead(w, v, e)
    ensures forall c, d :: HubOf(v, c).Some? && HubOf(v, c) == HubOf(v, d) ==> c == d
    ensures forall i: nat, j: nat :: ReadyHub(v, i).Some? && ReadyHub(v, i) == ReadyHub(v, j) ==> i == j
  {
    hide ReadyHub, HubOf;
    if e.Placed? {
      var h := ReadyHub(w, e.id).value;
      assert InFlight(w, h);
      forall c ensures HubOf(w, c) != Some(h) { assert HubOf(w, c) == Some(h) ==> Held(w, h); }
    } else if e.Made? {
      forall i: nat ensures ReadyHub(w, i) != Some(w.next) { assert ReadyHub(w, i) == Some(w.next) ==> InFlight(w, w.next); }
    }
  }

  lemma HeldAfter(w: World, v: World, e: Effect, h: nat)
    requires HubsHold(w) && NumbersFresh(w) && HubsRead(w, v, e)
    ensures Held(v, h) <==>
      (e.Placed? && ReadyHub(w, e.id) == Some(h)) ||
      (Held(w, h) && !e.AllGone? && !((e.Gone? || e.Placed?) && HubOf(w, e.c) == Some(h)))
  {
    hide ReadyHub, HubOf;
    if Held(v, h) {
      var c :| HubOf(v, c) == Some(h);
      assert HubOf(v, c) == HubOfAfter(w, e, c);
      if e.Placed? && ReadyHub(w, e.id) == Some(h) { assert InFlight(w, h); }
    }
    if Held(w, h) {
      var c :| HubOf(w, c) == Some(h);
      assert HubOf(v, c) == HubOfAfter(w, e, c);
    }
    if e.Placed? && ReadyHub(w, e.id) == Some(h) { assert HubOf(v, e.c) == Some(h); }
  }

  lemma InFlightAfter(w: World, v: World, e: Effect, h: nat)
    requires HubsHold(w) && NumbersFresh(w) && HubsRead(w, v, e)
    requires e.Made? ==> ReadyHub(w, e.id) == None
    ensures InFlight(v, h) <==>
      (e.Made? && h == w.next) || (InFlight(w, h) && !(e.Placed? && ReadyHub(w, e.id) == Some(h)))
  {
    hide ReadyHub, HubOf;
    if InFlight(v, h) {
      var i: nat :| ReadyHub(v, i) == Some(h);
      assert ReadyHub(v, i) == ReadyHubAfter(w, e, i);
    }
    if InFlight(w, h) {
      var i: nat :| ReadyHub(w, i) == Some(h);
      assert ReadyHub(v, i) == ReadyHubAfter(w, e, i);
    }
    if e.Made? { assert ReadyHub(v, e.id) == Some(w.next); }
  }

  lemma HeldHubsAre(w: World, h: nat)
    ensures h in HeldHubs(w.book.sessions) <==> Held(w, h)
  {
    if h in HeldHubs(w.book.sessions) {
      var c :| c in w.book.sessions && w.book.sessions[c].hub == Some(h);
      assert HubOf(w, c) == Some(h);
    }
  }

  lemma HubsStay(w: World, v: World, e: Effect)
    requires HubsHold(w) && NumbersFresh(w) && HubsRead(w, v, e)
    requires e.Made? ==> ReadyHub(w, e.id) == None
    ensures HubsHold(v)
  {
    HubsStayDistinct(w, v, e);
    forall h: nat
      ensures h in v.book.open <==> Held(v, h) || InFlight(v, h)
      ensures Held(v, h) ==> h in v.installed
      ensures InFlight(v, h) ==> h !in v.installed
    {
      HubStays(w, v, e, h);
    }
  }

  lemma HubStays(w: World, v: World, e: Effect, h: nat)
    requires HubsHold(w) && NumbersFresh(w) && HubsRead(w, v, e)
    requires e.Made? ==> ReadyHub(w, e.id) == None
    ensures h in v.book.open <==> Held(v, h) || InFlight(v, h)
    ensures Held(v, h) ==> h in v.installed
    ensures InFlight(v, h) ==> h !in v.installed
  {
    HeldAfter(w, v, e, h);
    InFlightAfter(w, v, e, h);
    HeldHubsAre(w, h);
    hide ReadyHub, HubOf, HeldHubs;
    if (e.Gone? || e.Placed?) && HubOf(w, e.c) == Some(h) { assert Held(w, h); }
    if e.Placed? && ReadyHub(w, e.id) == Some(h) { assert InFlight(w, h); }
    hide Held, InFlight;
  }

  lemma CounterAfter(w: World, s: Step)
    ensures
      var v := Next(w, s);
      && w.next <= v.next && (EffectOf(w, s).Made? ==> w.next + 2 <= v.next)
      && forall id :: id in v.tasks ==> id in w.tasks || id == w.next < v.next
  {
  }

  lemma PlacedWasOpen(w: World, e: Effect)
    requires HubsHold(w) && e.Placed? && ReadyHub(w, e.id).Some?
    ensures ReadyHub(w, e.id).value in w.book.open
  {
    assert InFlight(w, ReadyHub(w, e.id).value);
  }

  lemma NumbersKept(w: World, s: Step)
    requires NumbersFresh(w) && HubsHold(w)
    ensures NumbersFresh(Next(w, s))
  {
    var e := EffectOf(w, s);
    HubsAfter(w, s);
    CounterAfter(w, s);
    if e.Placed? { PlacedWasOpen(w, e); }
    hide Next, EffectOf, ReadyHub, ReadyEpoch, EpochOf, HubOf, HubsHold, HeldHubs;
    forall id: nat { ReadyAfter(w, s, id); }
    forall c { SessionAfter(w, s, c); }
  }

  lemma HubsKept(w: World, s: Step)
    requires NumbersFresh(w) && HubsHold(w)
    ensures HubsHold(Next(w, s))
  {
    HubsAfter(w, s);
    assert EffectOf(w, s).Made? ==> ReadyHub(w, EffectOf(w, s).id) == None;
    hide Next, EffectOf, HubsHold, HubsMove, ReadyHubAfter, HubOfAfter, ReadyHub, HubOf, NumbersFresh;
    forall id: nat { ReadyAfter(w, s, id); }
    forall c { SessionAfter(w, s, c); }
    HubsStay(w, Next(w, s), EffectOf(w, s));
  }

  lemma EpochsKept(w: World, s: Step)
    requires NumbersFresh(w) && EpochsDiffer(w)
    ensures EpochsDiffer(Next(w, s))
  {
    var e := EffectOf(w, s);
    assert e.Made? ==> ReadyEpoch(w, e.id) == None;
    hide Next, EffectOf, ReadyEpoch, EpochOf;
    forall id: nat { ReadyAfter(w, s, id); }
    forall c { SessionAfter(w, s, c); }
  }

  // ---- sessions ----

  lemma WholeKept(w: World, s: Step)
    requires SessionsWhole(w) && SpinnersEnd(w)
    ensures SessionsWhole(Next(w, s))
  {
    var v := Next(w, s);
    if OfTask(s) && s.id in w.tasks {
      var t := w.tasks[s.id];
      assert EndsWell(t);
    }
  }

  function StateOf(w: World, c: string): Option<Status> {
    if c in w.book.sessions then Some(w.book.sessions[c].state) else None
  }

  /** A session starts to say it is connecting only when its attempt is announced. */
  lemma SpinnerFrom(w: World, s: Step, c: string)
    requires SpinnersEnd(w) && StateOf(Next(w, s), c) == Some(Connecting)
    ensures (s.Announce? && Attempts(Next(w, s), s.id, c)) || StateOf(w, c) == Some(Connecting)
  {
    if OfTask(s) && s.id in w.tasks { assert EndsWell(w.tasks[s.id]); }
  }

  /** An attempt stops being on its way only by writing how it ended. */
  lemma AttemptAfter(w: World, s: Step, id: nat, c: string)
    requires NumbersFresh(w) && SpinnersEnd(w) && Attempts(w, id, c)
    ensures Attempts(Next(w, s), id, c) || StateOf(Next(w, s), c) != Some(Connecting)
  {
    assert EndsWell(w.tasks[id]);
  }

  lemma EndsWellKept(w: World, s: Step, id: nat)
    requires SpinnersEnd(w) && id in Next(w, s).tasks
    ensures EndsWell(Next(w, s).tasks[id])
  {
    if id in w.tasks { assert EndsWell(w.tasks[id]); }
  }

  lemma SpinnersKept(w: World, s: Step)
    requires NumbersFresh(w) && SpinnersEnd(w)
    ensures SpinnersEnd(Next(w, s))
  {
    var v := Next(w, s);
    hide Next, Attempts, EndsWell, NumbersFresh;
    forall c | c in v.book.sessions && v.book.sessions[c].state == Connecting ensures Attempted(v, c) {
      SpinnerFrom(w, s, c);
      if !(s.Announce? && Attempts(v, s.id, c)) {
        var id: nat :| Attempts(w, id, c);
        AttemptAfter(w, s, id, c);
      }
    }
    forall id | id in v.tasks ensures EndsWell(v.tasks[id]) { EndsWellKept(w, s, id); }
  }

  lemma StepKeeps(w: World, s: Step)
    requires Sound(w)
    ensures Sound(Next(w, s))
  {
    hide Next, NumbersFresh, GuardHolds, HubsHold, SessionsWhole, SpinnersEnd, EpochsDiffer;
    NumbersKept(w, s);
    GuardKept(w, s);
    HubsKept(w, s);
    WholeKept(w, s);
    SpinnersKept(w, s);
    EpochsKept(w, s);
  }

  // ---- whole runs ----

  lemma {:induction false} RunsAreSound(w: World, steps: seq<Step>)
    requires Sound(w)
    ensures Sound(Run(w, steps))
    decreases |steps|
  {
    if steps != [] {
      StepKeeps(w, steps[0]);
      RunsAreSound(Next(w, steps[0]), steps[1..]);
    }
  }

  lemma InitiallySound()
    ensures Sound(INITIAL)
  {
    forall h: nat ensures !Held(INITIAL, h) && !InFlight(INITIAL, h) {
    }
  }

  ghost predicate HeldOnce(w: World, h: nat) {
    exists c :: HubOf(w, c) == Some(h) && forall d :: HubOf(w, d) == Some(h) ==> d == c
  }

  /** After any interleaving of any goroutines, an installed hub is open exactly when exactly one session holds
      it, and a session that is connected has a client, an open hub and a snapshot of its own epoch. */
  lemma InstalledHubs(steps: seq<Step>, h: nat)
    ensures var w := Run(INITIAL, steps); h in w.installed ==> (h in w.book.open <==> HeldOnce(w, h))
  {
    InitiallySound();
    RunsAreSound(INITIAL, steps);
    var w := Run(INITIAL, steps);
    hide Run, InFlight;
    if h in w.installed && h in w.book.open {
      assert Held(w, h);
      var c :| HubOf(w, c) == Some(h);
      assert HubOf(w, c) == Some(h) && forall d :: HubOf(w, d) == Some(h) ==> d == c;
    }
  }

  lemma ConnectedSessions(steps: seq<Step>, c: string)
    requires var w := Run(INITIAL, steps); c in w.book.sessions && w.book.sessions[c].state == Connected
    ensures
      var w := Run(INITIAL, steps);
      var s := w.book.sessions[c];
      && s.client.Some? && s.hub.Some? && s.hub.value in w.book.open
      && s.epoch.Some? && s.snapshot == s.epoch && forall d :: d != c ==> EpochOf(w, d) != s.epoch
  {
    InitiallySound();
    RunsAreSound(INITIAL, steps);
    var w := Run(INITIAL, steps);
    assert HubOf(w, c) == w.book.sessions[c].hub && EpochOf(w, c) == w.book.sessions[c].epoch;
    assert Held(w, w.book.sessions[c].hub.value);
  }

  /** A catalogue snapshot handed out carries the epoch of the session it comes from, in every state. */
  lemma SnapshotsAreTheirOwn(steps: seq<Step>, c: string)
    requires c in Run(INITIAL, steps).book.sessions
    ensures var s := Run(INITIAL, steps).book.sessions[c]; s.snapshot == s.epoch
  {
    InitiallySound();
    RunsAreSound(INITIAL, steps);
  }

  /** No two goroutines are past Connect's guard for one cluster. */
  lemma OneConnectEach(steps: seq<Step>, i: nat, j: nat)
    requires
      var w := Run(INITIAL, steps);
      i in w.tasks && j in w.tasks && InConnect(w.tasks[i]) && InConnect(w.tasks[j]) && w.tasks[i].cluster == w.tasks[j].cluster
    ensures i == j
  {
    InitiallySound();
    RunsAreSound(INITIAL, steps);
    var w := Run(INITIAL, steps);
    assert Claim(w, i) == Claim(w, j);
  }

  /** When every goroutine has ended, nothing is left connecting and no hub is open that a session does not hold. */
  lemma AtRest(steps: seq<Step>)
    requires Run(INITIAL, steps).tasks == map[]
    ensures
      var w := Run(INITIAL, steps);
      && w.book.connecting == {}
      && w.book.open == HeldHubs(w.book.sessions)
      && forall c :: c in w.book.sessions ==> w.book.sessions[c].state != Connecting
  {
    InitiallySound();
    RunsAreSound(INITIAL, steps);
    var w := Run(INITIAL, steps);
    hide Run;
    forall c ensures c !in w.book.connecting && !Attempted(w, c) {
    }
    forall h: nat ensures h in w.book.open <==> h in HeldHubs(w.book.sessions) {
      HeldHubsAre(w, h);
      assert !InFlight(w, h);
    }
  }

  /** A hub once closed is never open again, and what is installed stays on record. */
  lemma {:induction false} ClosedForGood(w: World, steps: seq<Step>, h: nat)
    requires Sound(w) && h < w.next && h !in w.book.open
    ensures h !in Run(w, steps).book.open
    decreases |steps|
  {
    if steps != [] {
      StepKeeps(w, steps[0]);
      HubsAfter(w, steps[0]);
      assert w.next <= Next(w, steps[0]).next;
      ClosedForGood(Next(w, steps[0]), steps[1..], h);
    }
  }

  /** The cluster a step is about. */
  function About(w: World, s: Step): Option<string> {
    match s
    case CloseAll => None
    case Begin(c) => Some(c)
    case Disconnect(c) => Some(c)
    case LoseAccess(c) => Some(c)
    case LoseCredentials(c) => Some(c)
    case Resume(c) => Some(c)
    case Refresh(c) => Some(c)
    case SetReadOnly(c, _) => Some(c)
    case _ => if s.id in w.tasks then Some(w.tasks[s.id].cluster) else None
  }

  ghost predicate SameFor(b: Book, a: Book, c: string) {
    && (c in a.sessions <==> c in b.sessions)
    && (c in b.sessions ==> a.sessions[c] == b.sessions[c])
    && (c in a.connecting <==> c in b.connecting)
    && (c in a.readOnly <==> c in b.readOnly)
  }

  lemma OtherSession(w: World, s: Step, c: string)
    requires !s.CloseAll? && About(w, s) != Some(c)
    ensures SameFor(w.book, Next(w, s).book, c)
  {
  }

  /** A step about one cluster leaves every other cluster's session, hub and guard alone. */
  lemma {:induction false} OthersUntouched(w: World, s: Step, c: string)
    requires Sound(w) && !s.CloseAll? && About(w, s) != Some(c)
    ensures SameFor(w.book, Next(w, s).book, c)
    ensures HubOf(w, c).Some? ==> HubOf(w, c).value in Next(w, s).book.open
  {
    var v := Next(w, s);
    hide Next, About, NumbersFresh, GuardHolds, SessionsWhole, SpinnersEnd, EpochsDiffer;
    OtherSession(w, s, c);
    if HubOf(w, c).Some? {
      StepKeeps(w, s);
      assert HubOf(v, c) == HubOf(w, c);
      assert Held(v, HubOf(v, c).value);
    }
  }

  /** Every way out of a session closes its hub: after the critical section the cluster has no session and the
      hub it had is not open. */
  lemma EveryExitCloses(w: World, s: Step, c: string)
    requires Sound(w) && HubOf(w, c).Some?
    requires
      || s == Disconnect(c)
      || s == CloseAll
      || (s == LoseCredentials(c) && IsConnected(w.book, c))
      || (s == LoseAccess(c) && IsForwarded(w.book, c))
      || (s.Unanswered? && s.failure != NoFailure && IsConnected(w.book, c) && s.id in w.tasks && w.tasks[s.id] == Checking(c))
    ensures c !in Next(w, s).book.sessions && HubOf(w, c).value !in Next(w, s).book.open
  {
    HeldHubsAre(w, HubOf(w, c).value);
    assert Held(w, HubOf(w, c).value);
  }

  // ---- one Connect from start to end ----

  lemma RunSplit(w: World, s: Step, rest: seq<Step>)
    ensures Run(w, [s] + rest) == Run(Next(w, s), rest)
  {
    assert ([s] + rest)[1..] == rest;
  }

  lemma RunSix(w: World, a: Step, b: Step, c: Step, d: Step, e: Step, f: Step)
    ensures Run(w, [a, b, c, d, e, f]) == Next(Next(Next(Next(Next(Next(w, a), b), c), d), e), f)
  {
    hide Next;
    RunSplit(w, a, [b, c, d, e, f]);
    RunSplit(Next(w, a), b, [c, d, e, f]);
    RunSplit(Next(Next(w, a), b), c, [d, e, f]);
    RunSplit(Next(Next(Next(w, a), b), c), d, [e, f]);
    RunSplit(Next(Next(Next(Next(w, a), b), c), d), e, [f]);
    RunSplit(Next(Next(Next(Next(Next(w, a), b), c), d), e), f, []);
    assert [a] + [b, c, d, e, f] == [a, b, c, d, e, f] && [b] + [c, d, e, f] == [b, c, d, e, f];
    assert [c] + [d, e, f] == [c, d, e, f] && [d] + [e, f] == [d, e, f] && [e] + [f] == [e, f] && [f] + [] == [f];
  }

  lemma UpToTrying(w: World, c: string)
    requires w.next !in w.tasks && c !in w.book.connecting
    ensures Next(Next(w, Begin(c)), Announce(w.next)) ==
      World(Transitioned(Entered(w.book, c), c, Connecting), w.tasks[w.next := Trying(c)], w.installed, w.next + 1)
  {
    var w1 := Next(w, Begin(c));
    assert w1 == World(Entered(w.book, c), w.tasks[w.next := Guarded(c)], w.installed, w.next + 1);
  }

  /** What an undisturbed Connect goes through before its outcome. */
  lemma UpToProbing(w: World, c: string)
    requires w.next !in w.tasks && c !in w.book.connecting
    ensures Next(Next(Next(w, Begin(c)), Announce(w.next)), Build(w.next)) ==
      World(Transitioned(Entered(w.book, c), c, Connecting), w.tasks[w.next := Probing(c, w.next + 1)], w.installed, w.next + 2)
  {
    UpToTrying(w, c);
  }

  lemma FromProbing(w: World, id: nat, c: string, client: nat, forwarded: bool)
    requires id in w.tasks && w.tasks[id] == Probing(c, client)
    ensures
      var n := w.next;
      Next(Next(Next(w, Accept(id, forwarded)), Install(id)), Leave(id)) ==
      World(Left(Installed(w.book.(open := w.book.open + {n}), c, client, n, n + 1, forwarded), c), w.tasks - {id},
            w.installed + {n}, n + 2)
  {
    var n := w.next;
    var v := Next(w, Accept(id, forwarded));
    assert v == World(w.book.(open := w.book.open + {n}), w.tasks[id := Ready(c, client, n, n + 1, forwarded)], w.installed, n + 2);
    var u := Next(v, Install(id));
    assert u == World(Installed(v.book, c, client, n, n + 1, forwarded), w.tasks[id := Leaving(c)], w.installed + {n}, n + 2);
    hide Installed;
    assert w.tasks[id := Leaving(c)] - {id} == w.tasks - {id};
  }

  lemma FromRefusal(w: World, id: nat, c: string, client: nat, f: Failure)
    requires id in w.tasks && w.tasks[id] == Probing(c, client) && f != NoFailure
    ensures Next(Next(Next(w, Reject(id, f)), Mark(id)), Leave(id)) ==
      w.(book := Left(Transitioned(w.book, c, StateFor(f)), c), tasks := w.tasks - {id})
  {
    var v := Next(w, Reject(id, f));
    assert v == w.(tasks := w.tasks[id := Failing(c, f)]);
    var u := Next(v, Mark(id));
    assert u == w.(book := Transitioned(w.book, c, StateFor(f)), tasks := w.tasks[id := Leaving(c)]);
    hide Transitioned;
    assert w.tasks[id := Leaving(c)] - {id} == w.tasks - {id};
  }

  lemma NumbersAhead(w: World, c: string)
    requires Sound(w)
    ensures w.next !in w.tasks && w.next + 2 !in w.book.open && (c in w.book.sessions ==> w.book.sessions[c].hub != Some(w.next + 2))
  {
    assert HubOf(w, c).Some? ==> Held(w, HubOf(w, c).value);
  }

  lemma BookOfSuccess(b: Book, c: string, client: nat, hub: nat, epoch: nat, forwarded: bool)
    requires c !in b.connecting && (c in b.sessions ==> b.sessions[c].hub != Some(hub))
    ensures
      var tried := Transitioned(Entered(b, c), c, Connecting);
      Left(Installed(tried.(open := tried.open + {hub}), c, client, hub, epoch, forwarded), c) ==
      Book(b.sessions[c := Session(Connected, Some(client), Some(hub), Some(epoch), Some(epoch), Some(client), forwarded)],
           b.connecting, b.readOnly, HubClosed(b, c) + {hub})
  {
    assert b.connecting + {c} - {c} == b.connecting;
    var s := if c in b.sessions then b.sessions[c] else BLANK;
    assert WithoutHub(b.open + {hub}, s) == WithoutHub(b.open, s) + {hub};
  }

  lemma BookOfFailure(b: Book, c: string, state: Status)
    requires c !in b.connecting
    ensures Left(Transitioned(Transitioned(Entered(b, c), c, Connecting), c, state), c) == Transitioned(b, c, state)
    ensures IsConnected(Transitioned(b, c, state), c) <==> state == Connected
  {
    assert b.connecting + {c} - {c} == b.connecting;
  }

  /** An undisturbed Connect that succeeds: the cluster is connected over a new hub, the hub it had is closed,
      the guard is given back, and nothing else changes. */
  lemma ConnectSucceeds(w: World, c: string, forwarded: bool)
    requires Sound(w) && c !in w.book.connecting
    ensures
      var id := w.next;
      var v := Run(w, [Begin(c), Announce(id), Build(id), Accept(id, forwarded), Install(id), Leave(id)]);
      && v.tasks == w.tasks && v.book.connecting == w.book.connecting && v.book.readOnly == w.book.readOnly
      && v.book.sessions == w.book.sessions[c := Session(Connected, Some(id + 1), Some(id + 2), Some(id + 3), Some(id + 3), Some(id + 1), forwarded)]
      && id + 2 !in w.book.open && v.book.open == HubClosed(w.book, c) + {id + 2}
  {
    var id := w.next;
    hide *;
    NumbersAhead(w, c);
    RunSix(w, Begin(c), Announce(id), Build(id), Accept(id, forwarded), Install(id), Leave(id));
    UpToProbing(w, c);
    var w3 := Next(Next(Next(w, Begin(c)), Announce(id)), Build(id));
    FromProbing(w3, id, c, id + 1, forwarded);
    BookOfSuccess(w.book, c, id + 1, id + 2, id + 3, forwarded);
    assert w.tasks[id := Probing(c, id + 1)] - {id} == w.tasks;
  }

  /** An undisturbed Connect that fails its version check: the cluster is in the failure's state, never
      connected, keeps whatever hub it had, and nothing else changes. */
  lemma ConnectFails(w: World, c: string, f: Failure)
    requires Sound(w) && c !in w.book.connecting && f != NoFailure
    ensures
      var id := w.next;
      var v := Run(w, [Begin(c), Announce(id), Build(id), Reject(id, f), Mark(id), Leave(id)]);
      v.tasks == w.tasks && v.book == Transitioned(w.book, c, StateFor(f)) && !IsConnected(v.book, c)
  {
    var id := w.next;
    hide *;
    NumbersAhead(w, c);
    RunSix(w, Begin(c), Announce(id), Build(id), Reject(id, f), Mark(id), Leave(id));
    UpToProbing(w, c);
    var w3 := Next(Next(Next(w, Begin(c)), Announce(id)), Build(id));
    FromRefusal(w3, id, c, id + 1, f);
    BookOfFailure(w.book, c, StateFor(f));
    FailuresAreNotConnected(f);
    assert w.tasks[id := Probing(c, id + 1)] - {id} == w.tasks;
  }

  /** An undisturbed Connect that gives up before it has a client (configuration, access, network): the same, and no
      client was built. */
  lemma ConnectGivesUp(w: World, c: string, f: Failure)
    requires Sound(w) && c !in w.book.connecting && f != NoFailure
    ensures
      var id := w.next;
      var v := Run(w, [Begin(c), Announce(id), GiveUp(id, f), Mark(id), Leave(id)]);
      v == w.(book := Transitioned(w.book, c, StateFor(f)), next := id + 1) && !IsConnected(v.book, c)
  {
    var id := w.next;
    hide *;
    NumbersAhead(w, c);
    RunFive(w, Begin(c), Announce(id), GiveUp(id, f), Mark(id), Leave(id));
    UpToTrying(w, c);
    FromGivingUp(Next(Next(w, Begin(c)), Announce(id)), id, c, f);
    BookOfFailure(w.book, c, StateFor(f));
    FailuresAreNotConnected(f);
    assert w.tasks[id := Trying(c)] - {id} == w.tasks;
  }

  lemma FromGivingUp(w: World, id: nat, c: string, f: Failure)
    requires id in w.tasks && w.tasks[id] == Trying(c) && f != NoFailure
    ensures Next(Next(Next(w, GiveUp(id, f)), Mark(id)), Leave(id)) ==
      w.(book := Left(Transitioned(w.book, c, StateFor(f)), c), tasks := w.tasks - {id})
  {
    var v := Next(w, GiveUp(id, f));
    assert v == w.(tasks := w.tasks[id := Failing(c, f)]);
    var u := Next(v, Mark(id));
    assert u == w.(book := Transitioned(w.book, c, StateFor(f)), tasks := w.tasks[id := Leaving(c)]);
    hide Transitioned;
    assert w.tasks[id := Leaving(c)] - {id} == w.tasks - {id};
  }

  lemma RunFive(w: World, a: Step, b: Step, c: Step, d: Step, e: Step)
    ensures Run(w, [a, b, c, d, e]) == Next(Next(Next(Next(Next(w, a), b), c), d), e)
  {
    hide Next;
    RunSplit(w, a, [b, c, d, e]);
    RunSplit(Next(w, a), b, [c, d, e]);
    RunSplit(Next(Next(w, a), b), c, [d, e]);
    RunSplit(Next(Next(Next(w, a), b), c), d, [e]);
    RunSplit(Next(Next(Next(Next(w, a), b), c), d), e, []);
    assert [a] + [b, c, d, e] == [a, b, c, d, e] && [b] + [c, d, e] == [b, c, d, e];
    assert [c] + [d, e] == [c, d, e] && [d] + [e] == [d, e] && [e] + [] == [e];
  }

  lemma RemovedOnTheWay(b: Book, c: string)
    requires c in b.sessions
    ensures AllRemoved(Removed(b, c)) == AllRemoved(b) && |Removed(b, c).sessions| < |b.sessions|
  {
    var s := b.sessions[c];
    var rest := b.sessions - {c};
    forall h ensures h in HeldHubs(b.sessions) <==> h in HeldHubs(rest) || s.hub == Some(h) {
      if h in HeldHubs(b.sessions) {
        var d :| d in b.sessions && b.sessions[d].hub == Some(h);
        assert d != c ==> d in rest && rest[d].hub == Some(h);
      }
    }
    assert b.sessions.Keys == (b.sessions - {c}).Keys + {c};
    assert |b.sessions| == |b.sessions.Keys| && |b.sessions - {c}| == |(b.sessions - {c}).Keys|;
  }

  // ---- the manager ----

  /** The manager, its methods being the critical sections and what goroutines do between them. Clients, hubs and
      epochs are named by number. Whichever goroutine calls whichever method in whatever order, the world stays sound,
      and each call is a step of the protocol. */
  class Manager {
    var sessions: map<string, Session>
    var connecting: set<string>
    var readOnly: set<string>
    var open: set<nat>
    var next: nat
    ghost var world: World

    ghost function Contents(): Book
      reads this
    {
      Book(sessions, connecting, readOnly, open)
    }

    ghost predicate Valid()
      reads this
    {
      world.book == Contents() && world.next == next && Sound(world)
    }

    constructor ()
      ensures Valid() && world == INITIAL
    {
      sessions, connecting, readOnly, open, next := map[], {}, {}, {}, 0;
      world := INITIAL;
      InitiallySound();
    }

    /** Takes a step of the protocol, once the fields have been brought to where it leads. */
    ghost method Take(step: Step)
      requires Sound(world) && Next(world, step).book == Contents() && Next(world, step).next == next
      modifies this`world
      ensures Valid() && world == Next(old(world), step)
    {
      StepKeeps(world, step);
      world := Next(world, step);
    }

    method CloseHub(hub: Option<nat>)
      modifies this`open
      ensures open == if hub.Some? then old(open) - {hub.value} else old(open)
    {
      if hub.Some? { open := open - {hub.value}; }
    }

    /** Connect's guard: refused exactly while another Connect of the cluster is past it. */
    method Enter(c: string) returns (busy: bool)
      requires Valid()
      modifies this
      ensures Valid() && world == Next(old(world), Begin(c))
      ensures busy <==> Claimed(old(world), c)
      ensures !busy ==> old(next) in world.tasks && world.tasks[old(next)] == Guarded(c)
    {
      busy := c in connecting;
      assert busy <==> Claimed(world, c);
      hide Sound, Claimed;
      if !busy {
        connecting := connecting + {c};
        next := next + 1;
      }
      Take(Begin(c));
    }

    /** The deferred end of Connect: afterwards no Connect of the cluster is past the guard. */
    method Exit(ghost id: nat, c: string)
      requires Valid() && id in world.tasks && world.tasks[id] == Leaving(c)
      modifies this
      ensures Valid() && world == Next(old(world), Leave(id)) && !Claimed(world, c)
    {
      GuardLeft(world, id, c);
      hide Sound, Claimed;
      connecting := connecting - {c};
      Take(Leave(id));
    }

    /** Writes a state: the announcement of a Connect, or how an attempt or a teardown ended. */
    method Transition(c: string, state: Status, ghost id: nat, ghost step: Step)
      requires Valid() && id in world.tasks && Writes(world.tasks[id], step, id, c, state)
      modifies this
      ensures Valid() && world == Next(old(world), step)
    {
      hide Sound;
      if c !in sessions { sessions := sessions[c := BLANK]; }
      sessions := sessions[c := sessions[c].(state := state)];
      assert Contents() == Transitioned(old(Contents()), c, state);
      hide Transitioned;
      Take(step);
    }

    /** A client is built from the kubeconfig. */
    method Build(ghost id: nat, c: string) returns (client: nat)
      requires Valid() && id in world.tasks && world.tasks[id] == Trying(c)
      modifies this
      ensures Valid() && world == Next(old(world), Step.Build(id)) && world.tasks[id] == Probing(c, client)
    {
      hide Sound;
      client := next;
      next := next + 1;
      Take(Step.Build(id));
    }

    /** The server answered: a hub is opened and an epoch drawn. */
    method Accept(ghost id: nat, c: string, client: nat, forwarded: bool) returns (hub: nat, epoch: nat)
      requires Valid() && id in world.tasks && world.tasks[id] == Probing(c, client)
      modifies this
      ensures Valid() && world == Next(old(world), Step.Accept(id, forwarded))
      ensures world.tasks[id] == Ready(c, client, hub, epoch, forwarded) && hub !in old(open) && hub in open
    {
      NumbersAhead(world, c);
      hide Sound;
      hub, epoch := next, next + 1;
      open := open + {hub};
      next := next + 2;
      Take(Step.Accept(id, forwarded));
    }

    /** A goroutine learns how its probe or its attempt went; the book does not change. */
    ghost method Learn(step: Step)
      requires Valid() && (step.GiveUp? || step.Reject? || step.Answered?)
      modifies this`world
      ensures Valid() && world == Next(old(world), step)
    {
      LearningKeepsBook(world, step);
      hide Sound, Next;
      Take(step);
    }

    method Install(ghost id: nat, c: string, client: nat, hub: nat, epoch: nat, forwarded: bool)
      requires Valid() && id in world.tasks && world.tasks[id] == Ready(c, client, hub, epoch, forwarded)
      modifies this
      ensures Valid() && world == Next(old(world), Step.Install(id))
      ensures IsConnected(world.book, c) && HubOf(world, c) == Some(hub) && hub in open
      ensures HubOf(old(world), c).Some? ==> HubOf(old(world), c).value !in open
    {
      NotYetInstalled(world, id, c, hub);
      hide Sound;
      if c in sessions { CloseHub(sessions[c].hub); }
      sessions := sessions[c := Session(Connected, Some(client), Some(hub), Some(epoch), Some(epoch), Some(client), forwarded)];
      assert Contents() == Installed(old(Contents()), c, client, hub, epoch, forwarded);
      Take(Step.Install(id));
    }

    method Disconnect(c: string)
      requires Valid()
      modifies this
      ensures Valid() && world == Next(old(world), Step.Disconnect(c))
      ensures c !in sessions && (HubOf(old(world), c).Some? ==> HubOf(old(world), c).value !in open)
    {
      if HubOf(world, c).Some? { EveryExitCloses(world, Step.Disconnect(c), c); }
      hide Sound;
      if c in sessions {
        CloseHub(sessions[c].hub);
        sessions := sessions - {c};
      }
      readOnly := readOnly - {c};
      Take(Step.Disconnect(c));
    }

    method CloseAll()
      requires Valid()
      modifies this
      ensures Valid() && world == Next(old(world), Step.CloseAll)
      ensures sessions == map[] && forall c :: HubOf(old(world), c).Some? ==> HubOf(old(world), c).value !in open
    {
      forall c | HubOf(world, c).Some? ensures HubOf(world, c).value !in AllRemoved(world.book).open {
        EveryExitCloses(world, Step.CloseAll, c);
      }
      hide Sound;
      ghost var before := old(Contents());
      while sessions != map[]
        invariant connecting == old(connecting) && readOnly == old(readOnly) && world == old(world) && next == old(next)
        invariant AllRemoved(Contents()) == AllRemoved(before)
        decreases |sessions|
      {
        hide AllRemoved;
        var c :| c in sessions.Keys;
        RemovedOnTheWay(Contents(), c);
        CloseHub(sessions[c].hub);
        sessions := sessions - {c};
      }
      readOnly := {};
      Take(Step.CloseAll);
    }

    /** Tears a connected session down, the section the three teardowns share. */
    method TearDown(c: string)
      requires c in sessions
      modifies this`sessions, this`open
      ensures Contents() == Removed(old(Contents()), c)
    {
      CloseHub(sessions[c].hub);
      sessions := sessions - {c};
    }

    method SuspendForAccessDown(c: string) returns (suspended: bool)
      requires Valid()
      modifies this
      ensures Valid() && world == Next(old(world), LoseAccess(c))
      ensures suspended <==> IsForwarded(old(world).book, c)
      ensures suspended ==> old(next) in world.tasks && world.tasks[old(next)] == Marking(c, WaitingAccess)
      ensures suspended ==> c !in sessions && (HubOf(old(world), c).Some? ==> HubOf(old(world), c).value !in open)
    {
      if HubOf(world, c).Some? && IsForwarded(world.book, c) { EveryExitCloses(world, LoseAccess(c), c); }
      hide Sound;
      suspended := c in sessions && sessions[c].state == Connected && sessions[c].forwarded;
      if suspended {
        TearDown(c);
        next := next + 1;
      }
      Take(LoseAccess(c));
    }

    method SuspendForAuthFailure(c: string) returns (suspended: bool)
      requires Valid()
      modifies this
      ensures Valid() && world == Next(old(world), LoseCredentials(c))
      ensures suspended <==> IsConnected(old(world).book, c)
      ensures suspended ==> old(next) in world.tasks && world.tasks[old(next)] == Marking(c, Unauthorized)
      ensures suspended ==> c !in sessions && (HubOf(old(world), c).Some? ==> HubOf(old(world), c).value !in open)
    {
      if HubOf(world, c).Some? && IsConnected(world.book, c) { EveryExitCloses(world, LoseCredentials(c), c); }
      hide Sound;
      suspended := c in sessions && sessions[c].state == Connected;
      if suspended {
        TearDown(c);
        next := next + 1;
      }
      Take(LoseCredentials(c));
    }

    /** The start of a resume: the client to probe with, of a connected session. */
    method StartResume(c: string) returns (client: Option<nat>)
      requires Valid()
      modifies this
      ensures Valid() && world == Next(old(world), Resume(c))
      ensures client.Some? <==> IsConnected(world.book, c)
      ensures client.Some? ==> old(next) in world.tasks && world.tasks[old(next)] == Checking(c)
    {
      if IsConnected(world.book, c) { ConnectedHasClient(world, c); }
      hide Sound;
      client := None;
      if c in sessions && sessions[c].state == Connected && sessions[c].client.Some? {
        client := sessions[c].client;
        next := next + 1;
      }
      Take(Resume(c));
    }

    /** The probe failed: a session still connected is torn down. */
    method TearDownAfterProbe(ghost id: nat, c: string, failure: Failure) returns (suspended: bool)
      requires Valid() && id in world.tasks && world.tasks[id] == Checking(c) && failure != NoFailure
      modifies this
      ensures Valid() && world == Next(old(world), Unanswered(id, failure))
      ensures suspended <==> IsConnected(old(world).book, c)
      ensures suspended ==> world.tasks[id] == Marking(c, StateFor(failure))
      ensures suspended ==> c !in sessions && (HubOf(old(world), c).Some? ==> HubOf(old(world), c).value !in open)
    {
      if HubOf(world, c).Some? && IsConnected(world.book, c) { EveryExitCloses(world, Unanswered(id, failure), c); }
      hide Sound;
      suspended := c in sessions && sessions[c].state == Connected;
      if suspended { TearDown(c); }
      Take(Unanswered(id, failure));
    }

    /** The start of a refresh: the client to read with, of a connected session. */
    method StartRefresh(c: string) returns (client: Option<nat>)
      requires Valid()
      modifies this
      ensures Valid() && world == Next(old(world), Refresh(c))
      ensures client.Some? <==> IsConnected(world.book, c)
      ensures client.Some? ==> old(next) in world.tasks && world.tasks[old(next)] == Refreshing(c, client.value)
    {
      if IsConnected(world.book, c) { ConnectedHasClient(world, c); }
      hide Sound;
      client := None;
      if c in sessions && sessions[c].state == Connected && sessions[c].client.Some? {
        client := sessions[c].client;
        next := next + 1;
      }
      Take(Refresh(c));
    }

    /** Stores a fresh catalogue, if there still is a session, under that session's epoch. */
    method StoreCatalogue(ghost id: nat, c: string, client: nat) returns (stored: bool)
      requires Valid() && id in world.tasks && world.tasks[id] == Refreshing(c, client)
      modifies this
      ensures Valid() && world == Next(old(world), StoreRefresh(id))
      ensures stored <==> c in world.book.sessions
    {
      hide Sound;
      stored := c in sessions;
      if stored {
        var s := sessions[c];
        sessions := sessions[c := s.(snapshot := s.epoch, readWith := Some(client))];
      }
      Take(StoreRefresh(id));
    }

    method SetSessionReadOnly(c: string, on: bool)
      requires Valid()
      modifies this
      ensures Valid() && world == Next(old(world), SetReadOnly(c, on))
    {
      hide Sound;
      if on { readOnly := readOnly + {c}; } else { readOnly := readOnly - {c}; }
      Take(SetReadOnly(c, on));
    }

    /** The snapshot handed out: there is one exactly for a cluster whose session holds a hub, and it carries that
        session's epoch, which is no other session's. */
    method DiscoverySnapshot(c: string) returns (snapshot: Option<nat>)
      requires Valid()
      ensures snapshot == EpochOf(world, c)
      ensures snapshot.Some? <==> HubOf(world, c).Some?
      ensures snapshot.Some? ==> forall d :: d != c ==> EpochOf(world, d) != snapshot
    {
      SnapshotFacts(world, c);
      hide Sound;
      if c !in sessions || sessions[c].epoch.None? { return None; }
      snapshot := sessions[c].snapshot;
    }
  }

  // ---- what the methods use ----

  lemma GuardLeft(w: World, id: nat, c: string)
    requires Sound(w) && id in w.tasks && w.tasks[id] == Leaving(c)
    ensures !Claimed(Next(w, Leave(id)), c)
  {
    var v := Next(w, Leave(id));
    StepKeeps(w, Leave(id));
    assert c !in v.book.connecting;
    hide Next;
  }

  /** The state a step writes for a goroutine that is ready to. */
  predicate Writes(t: Task, step: Step, id: nat, c: string, state: Status) {
    || (step == Announce(id) && t == Guarded(c) && state == Connecting)
    || (step == Mark(id) && t.Failing? && t.cluster == c && state == StateFor(t.failure))
    || (step == Mark(id) && t == Marking(c, state))
  }

  lemma LearningKeepsBook(w: World, step: Step)
    requires step.GiveUp? || step.Reject? || step.Answered?
    ensures Next(w, step).book == w.book && Next(w, step).next == w.next
  {
  }

  lemma NotYetInstalled(w: World, id: nat, c: string, hub: nat)
    requires Sound(w) && id in w.tasks && w.tasks[id].Ready? && w.tasks[id].hub == hub
    ensures hub in w.book.open && HubOf(w, c) != Some(hub)
  {
    assert ReadyHub(w, id) == Some(hub);
    assert InFlight(w, hub);
    assert HubOf(w, c) == Some(hub) ==> Held(w, hub);
  }

  lemma ConnectedHasClient(w: World, c: string)
    requires Sound(w) && IsConnected(w.book, c)
    ensures w.book.sessions[c].client.Some?
  {
  }

  lemma SnapshotFacts(w: World, c: string)
    requires Sound(w)
    ensures c in w.book.sessions ==> Whole(w.book.sessions[c])
    ensures EpochOf(w, c).Some? ==> forall d :: d != c ==> EpochOf(w, d) != EpochOf(w, c)
  {
  }
}
