/** Ownership questions asked at the same time (cached in internal/argocd/discovery.go): the cache's lock is let go
    between looking and storing, so the reads and writes of any number of questions fall between one another. */
module SharedCache {
  import opened Order
  import opened Claims
  import opened Discovery
  import opened Gate

  /** One critical section that changes the cache. */
  datatype Write =
    | WholeWrite(cluster: string, answers: Answers, at: int)
    | NamespaceWrite(cluster: string, namespace: string, answers: Answers, wide: Search, at: int)

  function Written(m: Memory, w: Write): Memory {
    match w
    case WholeWrite(c, answers, at) =>
      Store(m, WholeCluster(c), SearchCluster(answers), at).(log := m.log + [Evidence(c, answers, at)])
    case NamespaceWrite(c, namespace, answers, wide, at) =>
      Store(m, OneNamespace(c, namespace), SearchNamespace(answers, wide), at)
  }

  /** A namespace is searched only after the cluster-wide search fell short. */
  predicate FallsBack(w: Write) {
    w.NamespaceWrite? ==> !w.wide.complete && w.wide.installed != InstallNo
  }

  ghost predicate History(memories: seq<Memory>, writes: seq<Write>) {
    && |memories| == |writes| + 1 && memories[0] == Memory(map[], [])
    && forall i :: 0 <= i < |writes| ==> FallsBack(writes[i]) && memories[i + 1] == Written(memories[i], writes[i])
  }

  lemma WrittenIsHonest(m: Memory, w: Write)
    requires Honest(m) && FallsBack(w)
    ensures Honest(Written(m, w)) && m.log <= Written(m, w).log
  {
    var after := Written(m, w);
    if w.WholeWrite? {
      assert after.log[|m.log|] == Evidence(w.cluster, w.answers, w.at);
      assert Logged(after, w.cluster, SearchCluster(w.answers), w.at);
    }
    hide SearchCluster, SearchNamespace, TtlFor;
    forall key | key in m.entries && key.WholeCluster?
      ensures Logged(after, key.cluster, m.entries[key].result, m.entries[key].expires - TtlFor(m.entries[key].result))
    {
      LogGrows(m, after, key.cluster, m.entries[key].result, m.entries[key].expires - TtlFor(m.entries[key].result));
    }
    if w.NamespaceWrite? { NamespaceFallsShort(w); }
  }

  lemma NamespaceFallsShort(w: Write)
    requires FallsBack(w) && w.NamespaceWrite?
    ensures !SearchNamespace(w.answers, w.wide).complete && SearchNamespace(w.answers, w.wide).installed != InstallNo
  {
  }

  lemma {:induction false} HistoryIsHonest(memories: seq<Memory>, writes: seq<Write>, i: nat, j: nat)
    requires History(memories, writes) && i <= j < |memories|
    ensures Honest(memories[j]) && memories[i].log <= memories[j].log
    decreases j
  {
    if j > 0 {
      HistoryIsHonest(memories, writes, if i < j then i else j - 1, j - 1);
      WrittenIsHonest(memories[j - 1], writes[j - 1]);
    }
  }

  /** When, in the history, a question looks for the cluster, has its own search stored, and looks for the namespace. */
  datatype Moments = Moments(looked: nat, stored: nat, lookedAgain: nat)

  function WideFound(memories: seq<Memory>, q: Query, at: Moments): Search
    requires at.looked < |memories|
  {
    var key, m := WholeCluster(q.cluster), memories[at.looked];
    if Fresh(m, key, q.asked) then m.entries[key].result else SearchCluster(q.wide)
  }

  function Found(memories: seq<Memory>, q: Query, at: Moments): Search
    requires at.looked < |memories| && at.lookedAgain < |memories|
  {
    var wide := WideFound(memories, q, at);
    if wide.complete || q.fallback == "" || wide.installed == InstallNo then wide
    else
      var key, m := OneNamespace(q.cluster, q.fallback), memories[at.lookedAgain];
      if Fresh(m, key, q.askedAgain) then m.entries[key].result else SearchNamespace(q.narrow, wide)
  }

  /** The question's own order, whatever others do in between. */
  ghost predicate Took(memories: seq<Memory>, writes: seq<Write>, q: Query, at: Moments) {
    && at.looked <= at.stored <= at.lookedAgain < |memories|
    && (!Fresh(memories[at.looked], WholeCluster(q.cluster), q.asked) ==>
          0 < at.stored <= |writes| && writes[at.stored - 1] == WholeWrite(q.cluster, q.wide, q.stored))
  }

  lemma WideIsLogged(memories: seq<Memory>, writes: seq<Write>, q: Query, at: Moments) returns (i: nat)
    requires History(memories, writes) && Took(memories, writes, q, at)
    ensures var m := memories[at.lookedAgain];
      && i < |m.log| && m.log[i].cluster == q.cluster && SearchCluster(m.log[i].answers) == WideFound(memories, q, at)
      && (m.log[i].at == q.stored || q.asked <= m.log[i].at + TtlFor(WideFound(memories, q, at)))
  {
    var key, before, m := WholeCluster(q.cluster), memories[at.looked], memories[at.lookedAgain];
    HistoryIsHonest(memories, writes, at.looked, at.lookedAgain);
    HistoryIsHonest(memories, writes, at.looked, at.looked);
    if Fresh(before, key, q.asked) {
      var e := before.entries[key];
      assert Logged(before, q.cluster, e.result, e.expires - TtlFor(e.result));
      i :| 0 <= i < |before.log| && before.log[i].cluster == q.cluster && SearchCluster(before.log[i].answers) == e.result &&
           before.log[i].at == e.expires - TtlFor(e.result);
      assert m.log[i] == before.log[i];
    } else {
      var prior, after := memories[at.stored - 1], memories[at.stored];
      HistoryIsHonest(memories, writes, at.stored, at.lookedAgain);
      assert after == Written(prior, writes[at.stored - 1]);
      i := |prior.log|;
      assert after.log[i] == Evidence(q.cluster, q.wide, q.stored);
      assert m.log[i] == after.log[i];
    }
  }

  /** A question nobody comes between gets the answer of the plain search. */
  lemma UndisturbedIsDiscover(memories: seq<Memory>, q: Query, at: Moments)
    requires at.looked < |memories| && at.lookedAgain < |memories|
    requires memories[at.lookedAgain] == FindWide(memories[at.looked], q).0
    ensures Found(memories, q, at) == Discover(memories[at.looked], q).1
  {
    hide SearchCluster, SearchNamespace;
  }

  /** However the reads and writes of any number of questions are interleaved: a complete answer, or one that Argo CD
      is absent, rests on a cluster-wide search no older than its lifetime. */
  lemma SharedAnswersAreBacked(memories: seq<Memory>, writes: seq<Write>, q: Query, at: Moments)
    requires History(memories, writes) && Took(memories, writes, q, at)
    ensures
      var found := Found(memories, q, at);
      found.complete || found.installed == InstallNo ==> found.complete && Backed(memories[at.lookedAgain], q, found)
  {
    var m, wide, found := memories[at.lookedAgain], WideFound(memories, q, at), Found(memories, q, at);
    var i := WideIsLogged(memories, writes, q, at);
    CompleteMeansSeen(m.log[i].answers);
    HistoryIsHonest(memories, writes, at.lookedAgain, at.lookedAgain);
    if wide.complete {
      assert Recent(m, q, i);
      assert Backed(m, q, found);
    } else if q.fallback != "" && wide.installed != InstallNo && !Fresh(m, OneNamespace(q.cluster, q.fallback), q.askedAgain) {
      NamespaceFallsShort(NamespaceWrite(q.cluster, q.fallback, q.narrow, wide, 0));
    }
  }

  /** So is an open gate, for a create. */
  lemma SharedCreateRestsOnEvidence(memories: seq<Memory>, writes: seq<Write>, q: Query, at: Moments, target: ResourceId)
    requires History(memories, writes) && Took(memories, writes, q, at)
    ensures
      var m := memories[at.lookedAgain];
      CreateGate(Found(memories, q, at), target).allowed ==> NotServedHere(m, q) || SeenAndUnclaimed(m, q, ClaimRanking(target))
  {
    var found := Found(memories, q, at);
    SharedAnswersAreBacked(memories, writes, q, at);
    if CreateGate(found, target).allowed {
      BestIsBest(found.apps, ClaimRanking(target));
      OpenRestsOn(memories[at.lookedAgain], q, found, ClaimRanking(target));
    }
  }

  /** And for an edit, of an object that was read unless the resource is not served. */
  lemma SharedEditRestsOnEvidence(memories: seq<Memory>, writes: seq<Write>, q: Query, at: Moments, read: Option<Live>)
    requires History(memories, writes) && Took(memories, writes, q, at)
    ensures
      var m := memories[at.lookedAgain];
      EditGate(Found(memories, q, at), read).allowed ==>
        NotServedHere(m, q) || (read.Some? && SeenAndUnclaimed(m, q, ConfidenceRanking(read.value)))
  {
    var found := Found(memories, q, at);
    SharedAnswersAreBacked(memories, writes, q, at);
    if EditGate(found, read).allowed {
      var ranking := if read.Some? then ConfidenceRanking(read.value) else (_: App) => 0;
      BestIsBest(found.apps, ranking);
      OpenRestsOn(memories[at.lookedAgain], q, found, ranking);
    }
  }
}
