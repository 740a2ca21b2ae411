/** Whose catalogue a session shows (internal/cluster/manager.go:319-351). A refresh takes the client before it reads
    and stores into whatever session there is afterwards. */
module Catalogues {
  import opened Order
  import opened Sessions

  function ClientOf(w: World, c: string): Option<nat> {
    if c in w.book.sessions then w.book.sessions[c].client else None
  }

  /** The stored catalogue was read with the client the session has. */
  predicate OwnReading(w: World, c: string) {
    c in w.book.sessions && w.book.sessions[c].readWith == w.book.sessions[c].client
  }

  /** What a refresh stores was read with the session's own client if and only if the session still has the client
      the refresh began with; the epoch it is stamped with is the session's either way. */
  lemma StoredIsOwnExactly(w: World, id: nat, c: string, client: nat)
    requires id in w.tasks && w.tasks[id] == Refreshing(c, client) && c in w.book.sessions
    ensures
      var v := Next(w, StoreRefresh(id));
      && c in v.book.sessions && v.book.sessions[c].snapshot == v.book.sessions[c].epoch == w.book.sessions[c].epoch
      && (OwnReading(v, c) <==> ClientOf(w, c) == Some(client))
  {
  }

  ghost predicate OwnReadings(w: World) {
    forall c :: ClientOf(w, c).Some? ==> OwnReading(w, c)
  }

  /** A refresh is about to be stored in a session with another client than it was read with. */
  predicate StoresAnotherIn(w: World, s: Step, c: string) {
    && s.StoreRefresh? && s.id in w.tasks && w.tasks[s.id].Refreshing? && w.tasks[s.id].cluster == c
    && ClientOf(w, c).Some? && ClientOf(w, c) != Some(w.tasks[s.id].client)
  }

  ghost predicate StoresAnother(w: World, s: Step) {
    exists c :: StoresAnotherIn(w, s, c)
  }

  lemma ReadingAfter(w: World, s: Step, c: string)
    requires ClientOf(w, c).Some? ==> OwnReading(w, c)
    ensures ClientOf(Next(w, s), c).Some? ==> (OwnReading(Next(w, s), c) <==> !StoresAnotherIn(w, s, c))
    ensures StoresAnotherIn(w, s, c) ==> ClientOf(Next(w, s), c).Some?
  {
  }

  /** Of all steps of all goroutines, only such a store puts another client's catalogue in a session, and it always
      does. */
  lemma AnotherComesFrom(w: World, s: Step)
    requires OwnReadings(w)
    ensures OwnReadings(Next(w, s)) <==> !StoresAnother(w, s)
  {
    hide Next, StoresAnotherIn, OwnReading, ClientOf;
    forall c
      ensures ClientOf(Next(w, s), c).Some? ==> (OwnReading(Next(w, s), c) <==> !StoresAnotherIn(w, s, c))
      ensures StoresAnotherIn(w, s, c) ==> ClientOf(Next(w, s), c).Some?
    {
      ReadingAfter(w, s, c);
    }
  }

  ghost predicate NeverStoresAnother(w: World, steps: seq<Step>)
    decreases |steps|
  {
    steps != [] ==> !StoresAnother(w, steps[0]) && NeverStoresAnother(Next(w, steps[0]), steps[1..])
  }

  /** Over every run in which each refresh is stored under the client it was read with, every session shows what its
      own client read. */
  lemma {:induction false} ReadingsStayOwn(w: World, steps: seq<Step>)
    requires OwnReadings(w) && NeverStoresAnother(w, steps)
    ensures OwnReadings(Run(w, steps))
    decreases |steps|
  {
    if steps != [] {
      AnotherComesFrom(w, steps[0]);
      hide Next, OwnReadings, StoresAnother;
      ReadingsStayOwn(Next(w, steps[0]), steps[1..]);
    }
  }

  // ---- clients are fresh ----

  predicate ClientBelow(t: Task, n: nat) {
    ((t.Probing? || t.Ready?) ==> t.client < n)
  }

  ghost predicate ClientsFresh(w: World) {
    && (forall c :: ClientOf(w, c).Some? ==> ClientOf(w, c).value < w.next)
    && (forall id :: id in w.tasks ==> ClientBelow(w.tasks[id], w.next))
  }

  lemma StepKeepsClients(w: World, s: Step)
    requires ClientsFresh(w)
    ensures ClientsFresh(Next(w, s))
  {
    var v := Next(w, s);
    forall c | ClientOf(v, c).Some? ensures ClientOf(v, c).value < v.next { ClientAfter(w, s, c); }
    forall id | id in v.tasks ensures ClientBelow(v.tasks[id], v.next) {
      if id in w.tasks { assert ClientBelow(w.tasks[id], w.next); }
    }
  }

  lemma ClientAfter(w: World, s: Step, c: string)
    requires ClientsFresh(w) && ClientOf(Next(w, s), c).Some?
    ensures ClientOf(Next(w, s), c).value < Next(w, s).next
  {
    assert ClientOf(w, c).Some? ==> ClientOf(w, c).value < w.next;
    if OfTask(s) && s.id in w.tasks {
      assert ClientBelow(w.tasks[s.id], w.next);
      var t := w.tasks[s.id];
      if s.Install? && t.Ready? { assert t.client < w.next; }
    }
  }

  lemma {:induction false} RunsKeepClients(w: World, steps: seq<Step>)
    requires ClientsFresh(w)
    ensures ClientsFresh(Run(w, steps))
    decreases |steps|
  {
    if steps != [] {
      StepKeepsClients(w, steps[0]);
      hide Next, ClientsFresh;
      RunsKeepClients(Next(w, steps[0]), steps[1..]);
    }
  }

  lemma RefreshBegins(w: World, c: string)
    requires Sound(w) && ClientsFresh(w) && IsConnected(w.book, c)
    ensures
      ClientOf(w, c).Some? && ClientOf(w, c).value < w.next
      && Next(w, Refresh(c)) == w.(tasks := w.tasks[w.next := Refreshing(c, ClientOf(w, c).value)], next := w.next + 1)
  {
    ConnectedHasClient(w, c);
  }

  /** A cluster that is connected anew while its catalogue is being read ends with the old client's catalogue under the
      new session's epoch. */
  lemma ReconnectShowsAnother(w: World, c: string, forwarded: bool)
    requires Sound(w) && ClientsFresh(w) && IsConnected(w.book, c) && c !in w.book.connecting
    ensures
      var id := w.next;
      var u := Run(Next(w, Refresh(c)),
                   [Begin(c), Announce(id + 1), Build(id + 1), Accept(id + 1, forwarded), Install(id + 1), Leave(id + 1)]);
      var v := Next(u, StoreRefresh(id));
      && IsConnected(v.book, c) && v.book.sessions[c].snapshot == v.book.sessions[c].epoch == Some(id + 4)
      && v.book.sessions[c].readWith == ClientOf(w, c) && !OwnReading(v, c)
  {
    var id := w.next;
    RefreshBegins(w, c);
    StepKeeps(w, Refresh(c));
    var began, client := Next(w, Refresh(c)), ClientOf(w, c).value;
    hide *;
    ConnectSucceeds(began, c, forwarded);
    var u := Run(began, [Begin(c), Announce(id + 1), Build(id + 1), Accept(id + 1, forwarded), Install(id + 1), Leave(id + 1)]);
    StoredInReconnected(u, id, c, client);
  }

  lemma StoredInReconnected(u: World, id: nat, c: string, client: nat)
    requires id in u.tasks && u.tasks[id] == Refreshing(c, client) && IsConnected(u.book, c)
    requires u.book.sessions[c].client.Some? && u.book.sessions[c].client != Some(client)
    ensures
      var v := Next(u, StoreRefresh(id));
      && IsConnected(v.book, c) && v.book.sessions[c].snapshot == v.book.sessions[c].epoch == u.book.sessions[c].epoch
      && v.book.sessions[c].readWith == Some(client) && !OwnReading(v, c)
  {
  }

  /** Every run leads to states the lemmas above speak of. */
  lemma RunsAreFresh(steps: seq<Step>)
    ensures Sound(Run(INITIAL, steps)) && ClientsFresh(Run(INITIAL, steps))
  {
    InitiallySound();
    RunsAreSound(INITIAL, steps);
    RunsKeepClients(INITIAL, steps);
  }
}
