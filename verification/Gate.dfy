/** The one place a direct write is offered or refused (internal/argocd/gate.go), and the argument that lack
    of visibility is never taken for lack of ownership. */
module Gate {
  import opened Order
  import opened Claims
  import opened Discovery

  datatype Status = Managed | Unmanaged | Unknown

  /** What a mutation entry point reads. */
  datatype Gate = Gate(status: Status, allowed: bool, managed: bool, claim: Claim, uncertainty: Uncertainty, app: Option<App>)

  // ---- a target that does not exist yet ----

  datatype ClaimAnswer = ClaimAnswer(kind: Claim, app: Option<App>, complete: bool, uncertainty: Uncertainty)

  predicate ClaimsIt(kind: Claim) { kind == ClaimNamespace || kind == ClaimObject }

  function ClaimFor(found: Search, target: ResourceId): ClaimAnswer {
    if found.installed == InstallNo then ClaimAnswer(ClaimNone, None, true, NoUncertainty)
    else
      var best := Best(found.apps, ClaimRanking(target));
      var kind := ClaimByRank(RankOf(ClaimRanking(target), best));
      if found.complete then ClaimAnswer(kind, best, true, NoUncertainty)
      else if ClaimsIt(kind) then ClaimAnswer(kind, best, false, NoUncertainty)
      else ClaimAnswer(ClaimUnknown, None, false, found.uncertainty)
  }

  function GateForClaim(claim: ClaimAnswer): Gate {
    var gate := Gate(Unmanaged, false, ClaimsIt(claim.kind), claim.kind, claim.uncertainty, claim.app);
    if ClaimsIt(claim.kind) then gate.(status := Managed)
    else if claim.kind == ClaimUnknown then gate.(status := Unknown)
    else gate.(allowed := true)
  }

  // ---- an object that exists ----

  datatype Ownership = Ownership(confidence: Confidence, status: Status, uncertainty: Uncertainty, app: Option<App>)

  /** Turns the evidence found on an object into a status. */
  function Settle(confidence: Confidence, app: Option<App>, found: Search): Ownership {
    match confidence
    case Tracked => Ownership(confidence, Managed, NoUncertainty, app)
    case Confirmed => Ownership(confidence, Managed, NoUncertainty, app)
    case Candidate => Ownership(confidence, Unknown, Ambiguous, app)
    case Unclaimed =>
      if found.complete then Ownership(confidence, Unmanaged, NoUncertainty, app)
      else Ownership(confidence, Unknown, if found.uncertainty == NoUncertainty then Incomplete else found.uncertainty, app)
  }

  /** The ownership of one object; reading the object may fail, which is no answer. */
  function OwnershipOf(found: Search, read: Option<Live>): Option<Ownership> {
    if found.installed == InstallNo then Some(Ownership(Unclaimed, Unmanaged, NoUncertainty, None))
    else match read
      case None => None
      case Some(live) =>
        var best := Best(found.apps, ConfidenceRanking(live));
        Some(Settle(ConfidenceByRank(RankOf(ConfidenceRanking(live), best)), best, found))
  }

  function GateForOwnership(found: Ownership): Gate {
    match found.status
    case Managed => Gate(Managed, false, true, ClaimObject, found.uncertainty, found.app)
    case Unmanaged => Gate(Unmanaged, true, false, ClaimNone, found.uncertainty, found.app)
    case Unknown => Gate(Unknown, false, false, ClaimUnknown, found.uncertainty, found.app)
  }

  /** The answer when the check could not be made. */
  const UNKNOWN_GATE := Gate(Unknown, false, false, ClaimUnknown, Unreachable, None)

  /** The editor's gate: a failed ownership check is a refusal. */
  function EditGate(found: Search, read: Option<Live>): Gate {
    match OwnershipOf(found, read)
    case None => UNKNOWN_GATE
    case Some(o) => GateForOwnership(o)
  }

  function CreateGate(found: Search, target: ResourceId): Gate {
    GateForClaim(ClaimFor(found, target))
  }

  // ---- the gate's own rule ----

  /** A write is offered exactly when the status is Unmanaged, and a gate never claims to be managed and open. */
  predicate Sound(g: Gate) {
    && (g.allowed <==> g.status == Unmanaged)
    && (g.managed <==> g.status == Managed)
  }

  // ---- lack of visibility is not lack of ownership ----

  /** An answer from less information: it says no more than the fuller one. */
  predicate SaysNoMore(part: Gate, whole: Gate) {
    part.status == Unknown || part.status == whole.status
  }

  /** A search that saw only some of the Applications a complete one saw. */
  ghost predicate SawLess(part: Search, whole: Search) {
    && !part.complete && part.installed != InstallNo
    && whole.complete && whole.installed != InstallNo
    && Elements(part.apps) <= Elements(whole.apps)
  }

  /** A partial search is never contradicted by the complete one, and never opens the gate. */
  lemma PartialCreateIsSafe(part: Search, whole: Search, target: ResourceId)
    requires SawLess(part, whole)
    ensures SaysNoMore(CreateGate(part, target), CreateGate(whole, target))
    ensures !CreateGate(part, target).allowed
    ensures CreateGate(part, target).status == Managed ==> CreateGate(whole, target).status == Managed
  {
    var rank := ClaimRanking(target);
    MoreAppsRankHigher(part.apps, whole.apps, rank);
    BestIsBest(part.apps, rank);
    BestIsBest(whole.apps, rank);
  }

  lemma PartialEditIsSafe(part: Search, whole: Search, read: Option<Live>)
    requires SawLess(part, whole)
    ensures SaysNoMore(EditGate(part, read), EditGate(whole, read))
    ensures !EditGate(part, read).allowed
    ensures EditGate(part, read).status == Managed ==> EditGate(whole, read).status == Managed
  {
    hide Best, Elements;
    if read.Some? {
      var rank := ConfidenceRanking(read.value);
      MoreAppsRankHigher(part.apps, whole.apps, rank);
    }
  }

  lemma CreateManagedMeans(found: Search, target: ResourceId)
    ensures CreateGate(found, target).status == Managed <==>
            found.installed != InstallNo && RankOf(ClaimRanking(target), Best(found.apps, ClaimRanking(target))) >= 2
  {
    BestIsBest(found.apps, ClaimRanking(target));
  }

  lemma EditManagedMeans(found: Search, live: Live)
    ensures EditGate(found, Some(live)).status == Managed <==>
            found.installed != InstallNo && RankOf(ConfidenceRanking(live), Best(found.apps, ConfidenceRanking(live))) >= 2
  {
    BestIsBest(found.apps, ConfidenceRanking(live));
  }

  /** Once Managed on some of the Applications, Managed on any larger set of them. */
  lemma {:induction false} ManagedIsKept(part: Search, more: Search, target: ResourceId, live: Live)
    requires part.installed != InstallNo && more.installed != InstallNo && Elements(part.apps) <= Elements(more.apps)
    ensures CreateGate(part, target).status == Managed ==> CreateGate(more, target).status == Managed
    ensures EditGate(part, Some(live)).status == Managed ==> EditGate(more, Some(live)).status == Managed
  {
    hide CreateGate, EditGate, Best;
    MoreAppsRankHigher(part.apps, more.apps, ClaimRanking(target));
    CreateManagedMeans(part, target);
    CreateManagedMeans(more, target);
    MoreAppsRankHigher(part.apps, more.apps, ConfidenceRanking(live));
    EditManagedMeans(part, live);
    EditManagedMeans(more, live);
  }

  // ---- what an open gate rests on ----

  /** Within its lifetime, a cluster-wide search was told that the Application resource is not served. */
  ghost predicate NotServedHere(m: Memory, q: Query) {
    exists i: nat :: Recent(m, q, i) && NotServed(m.log[i].answers)
  }

  /** Within its lifetime, a cluster-wide listing was followed to its last page, and no Application on it
      claims the object. */
  ghost predicate SeenAndUnclaimed(m: Memory, q: Query, ranking: Ranking) {
    exists i: nat, apps :: Recent(m, q, i) && SawEverything(m.log[i].answers, apps) && forall a :: a in apps ==> ranking(a) == 0
  }

  lemma OpenRestsOn(m: Memory, q: Query, found: Search, ranking: Ranking)
    requires Backed(m, q, found)
    requires found.installed == InstallNo || Best(found.apps, ranking).None?
    ensures NotServedHere(m, q) || SeenAndUnclaimed(m, q, ranking)
    ensures found.installed == InstallNo ==> NotServedHere(m, q)
  {
    BestIsBest(found.apps, ranking);
    var i: nat :| Recent(m, q, i) &&
      if found.installed == InstallNo then NotServed(m.log[i].answers) else SawEverything(m.log[i].answers, found.apps);
  }

  /** Over every run of questions, with any clock and any answers: creating is offered only when the cluster
      does not serve Applications, or all of them were seen and none claims the target. */
  lemma CreateRestsOnEvidence(memories: seq<Memory>, queries: seq<Query>, n: nat, target: ResourceId)
    requires Run(memories, queries) && n < |queries|
    ensures var (m, found) := Discover(memories[n], queries[n]);
      && Sound(CreateGate(found, target))
      && (CreateGate(found, target).allowed ==>
            NotServedHere(m, queries[n]) || SeenAndUnclaimed(m, queries[n], ClaimRanking(target)))
  {
    RunsAreHonest(memories, queries, n);
    CompleteAnswersAreBacked(memories[n], queries[n]);
    var (m, found) := Discover(memories[n], queries[n]);
    if CreateGate(found, target).allowed {
      BestIsBest(found.apps, ClaimRanking(target));
      OpenRestsOn(m, queries[n], found, ClaimRanking(target));
    }
  }

  lemma EditOpenMeans(found: Search, read: Option<Live>)
    ensures Sound(EditGate(found, read))
    ensures EditGate(found, read).allowed ==>
              found.installed == InstallNo || (found.complete && read.Some? && Best(found.apps, ConfidenceRanking(read.value)).None?)
  {
    if read.Some? { BestIsBest(found.apps, ConfidenceRanking(read.value)); }
  }

  /** The same for editing: and unless the resource is not served, the object itself was read. */
  lemma EditRestsOnEvidence(memories: seq<Memory>, queries: seq<Query>, n: nat, read: Option<Live>)
    requires Run(memories, queries) && n < |queries|
    ensures var (m, found) := Discover(memories[n], queries[n]);
      && Sound(EditGate(found, read))
      && (EditGate(found, read).allowed ==>
            NotServedHere(m, queries[n]) || (read.Some? && SeenAndUnclaimed(m, queries[n], ConfidenceRanking(read.value))))
  {
    RunsAreHonest(memories, queries, n);
    CompleteAnswersAreBacked(memories[n], queries[n]);
    var (m, found) := Discover(memories[n], queries[n]);
    EditOpenMeans(found, read);
    hide Discover, Run, EditGate, Best, Backed, NotServedHere, SeenAndUnclaimed;
    if EditGate(found, read).allowed {
      OpenRestsOn(m, queries[n], found, if read.Some? then ConfidenceRanking(read.value) else (_: App) => 0);
    }
  }
}
