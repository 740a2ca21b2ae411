/** Which clusters a returning customer network is tried for again (RetryWaiting in internal/cluster/manager.go, stateFor
    in diagnosis.go). */
module Retries {
  import opened Order
  import opened Sessions

  /** RetryWaiting connects the waiting clusters whose access profile came up. */
  predicate IsRetried(b: Book, c: string, profileOf: string -> string, profile: string) {
    c in b.sessions && b.sessions[c].state == WaitingAccess && profileOf(c) == profile
  }

  /** Of the failures, only a customer network that is down leaves a cluster waiting; rejected or insufficient credentials
      leave it unauthorised; a fault of the configuration or of the helper leaves it failed; every other is unreachable. */
  lemma StateForMeans(f: Failure)
    ensures StateFor(f) == WaitingAccess <==> f == AccessDown
    ensures StateFor(f) == Unauthorized <==> f in {BadCredentials, Failure.Forbidden}
    ensures StateFor(f) == Failed <==> f in {Config, CredentialHelper}
    ensures StateFor(f) == Unreachable <==> f in {NoRoute, Dns, TcpTimeout, Tls, ApiUnavailable}
    ensures StateFor(f) == Connected <==> f == NoFailure
  {
  }

  /** Writing a state touches nothing else a session holds, and no other session; a cluster without one gets one that
      holds nothing. */
  lemma TransitionKeeps(b: Book, c: string, state: Status)
    ensures
      var after := Transitioned(b, c, state);
      && c in after.sessions && after.sessions[c].state == state && after == b.(sessions := after.sessions)
      && after.sessions - {c} == b.sessions - {c}
      && (c in b.sessions ==> after.sessions[c].(state := b.sessions[c].state) == b.sessions[c])
      && (c !in b.sessions ==> after.sessions[c] == Session(state, None, None, None, None, None, false))
  {
  }

  lemma WaitsExactly(b: Book, c: string, f: Failure, profileOf: string -> string)
    ensures IsRetried(Transitioned(b, c, StateFor(f)), c, profileOf, profileOf(c)) <==> f == AccessDown
  {
    StateForMeans(f);
    hide StateFor;
  }

  /** After an undisturbed Connect that fails, in whichever of the two ways, the cluster is tried again when its network
      comes up if and only if the network was what failed. */
  lemma FailedConnectIsRetriedExactly(w: World, c: string, f: Failure, profileOf: string -> string)
    requires Sound(w) && c !in w.book.connecting && f != NoFailure
    ensures
      var id := w.next;
      var v := Run(w, [Begin(c), Announce(id), GiveUp(id, f), Mark(id), Leave(id)]);
      var u := Run(w, [Begin(c), Announce(id), Build(id), Reject(id, f), Mark(id), Leave(id)]);
      && (IsRetried(v.book, c, profileOf, profileOf(c)) <==> f == AccessDown)
      && (IsRetried(u.book, c, profileOf, profileOf(c)) <==> f == AccessDown)
  {
    ConnectGivesUp(w, c, f);
    ConnectFails(w, c, f);
    WaitsExactly(w.book, c, f, profileOf);
    hide *;
  }

  /** So is a session over a forward that was lost, once its teardown has written its state; a session that was torn down
      for its credentials is not. */
  lemma LostAccessIsRetried(w: World, c: string, profileOf: string -> string)
    requires Sound(w) && IsForwarded(w.book, c)
    ensures
      var v := Next(Next(w, LoseAccess(c)), Mark(w.next));
      var u := Next(Next(w, LoseCredentials(c)), Mark(w.next));
      && IsRetried(v.book, c, profileOf, profileOf(c)) && !IsRetried(u.book, c, profileOf, profileOf(c))
      && v.tasks == w.tasks && u.tasks == w.tasks
  {
    TornDown(w, c, LoseAccess(c), WaitingAccess);
    TornDown(w, c, LoseCredentials(c), Unauthorized);
  }

  lemma TornDown(w: World, c: string, s: Step, state: Status)
    requires Sound(w) && IsForwarded(w.book, c)
    requires (s == LoseAccess(c) && state == WaitingAccess) || (s == LoseCredentials(c) && state == Unauthorized)
    ensures
      var v := Next(Next(w, s), Mark(w.next));
      v.tasks == w.tasks && v.book == Transitioned(Removed(w.book, c), c, state)
  {
    NumbersAhead(w, c);
    var torn := Next(w, s);
    assert torn == w.(book := Removed(w.book, c), tasks := w.tasks[w.next := Marking(c, state)], next := w.next + 1);
    hide Sound, Removed, Transitioned;
    assert w.tasks[w.next := Marking(c, state)] - {w.next} == w.tasks;
  }

  /** Losing the network tears down no session that needs no forward, and neither loss one that is not connected; nor does
      a probe that fails then. */
  lemma NothingToTearDown(w: World, c: string)
    requires c !in w.book.sessions || w.book.sessions[c].state != Connected || !w.book.sessions[c].forwarded
    ensures Next(w, LoseAccess(c)) == w
    ensures c !in w.book.sessions || w.book.sessions[c].state != Connected ==>
      Next(w, LoseCredentials(c)) == w && Next(w, Resume(c)) == w && Next(w, Refresh(c)) == w
  {
  }

  // ---- the read-only toggle ----

  /** The toggle reads back, and no other cluster's, session, hub or guard changes. */
  lemma ToggleReadsBack(w: World, c: string, on: bool, other: string)
    ensures
      var v := Next(w, SetReadOnly(c, on));
      && (c in v.book.readOnly <==> on) && (other != c ==> (other in v.book.readOnly <==> other in w.book.readOnly))
      && v == w.(book := w.book.(readOnly := v.book.readOnly))
  {
  }

  /** It outlives losing the network or the credentials and connecting again, but not disconnecting. */
  lemma ToggleOutlives(w: World, s: Step, c: string)
    requires !s.SetReadOnly?
    ensures c in Next(w, s).book.readOnly <==> c in w.book.readOnly && s != Disconnect(c) && !s.CloseAll?
  {
  }
}
