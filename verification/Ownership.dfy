/** What the two resolvers and their gates answer, said in terms of what the objects and the Applications hold
    (internal/argocd/claim.go, ownership.go and gate.go). */
module Ownership {
  import opened Order
  import opened Json
  import opened Pruning
  import opened Text
  import opened Claims
  import opened Discovery
  import opened Gate

  // ---- what a status entry names ----

  /** The entry Argo CD writes for an object. */
  function EntryOf(id: ResourceId): Json {
    Obj(map["group" := Str(id.group), "kind" := Str(id.kind), "namespace" := Str(id.namespace), "name" := Str(id.name)])
  }

  predicate FieldIs(entry: Json, key: string, value: string) {
    entry.Obj? && (if key in entry.fields && entry.fields[key].Str? then entry.fields[key].s == value else value == "")
  }

  lemma FieldReads(entry: Json, key: string)
    requires entry.Obj?
    ensures forall value :: FieldIs(entry, key, value) <==> StringField(entry, key) == value
  {
    assert [key][1..] == [];
    assert Nested(entry, [key]) == if key in entry.fields then Some(entry.fields[key]) else None;
  }

  /** An entry names an object by four fields, of which a missing one reads as empty. */
  lemma EntryNamesMeans(entry: Json, id: ResourceId)
    ensures EntryNames(entry, id) <==>
      FieldIs(entry, "group", id.group) && FieldIs(entry, "kind", id.kind) && FieldIs(entry, "namespace", id.namespace) && FieldIs(entry, "name", id.name)
  {
    if entry.Obj? {
      FieldReads(entry, "group");
      FieldReads(entry, "kind");
      FieldReads(entry, "namespace");
      FieldReads(entry, "name");
    }
    hide StringField, FieldIs;
  }

  /** So it names the object it was written for and no other. */
  lemma EntryNamesOne(entry: Json, id: ResourceId, other: ResourceId)
    ensures EntryNames(EntryOf(id), other) <==> id == other
    ensures EntryNames(entry, id) && EntryNames(entry, other) ==> id == other
  {
    EntryNamesMeans(EntryOf(id), other);
    EntryNamesMeans(EntryOf(id), id);
  }

  // ---- what the annotation says ----

  /** The annotation's text: the Application, the group and kind, the namespace and name; which part is which. */
  lemma AnnotationReads(app: string, group: string, kind: string, namespace: string, name: string)
    requires Trackable(app, ResourceId(group, kind, namespace, name))
    ensures ParseTrackingId(app + ":" + group + "/" + kind + ":" + namespace + "/" + name) ==
      Some((app, ResourceId(group, kind, namespace, name)))
  {
    var id := ResourceId(group, kind, namespace, name);
    TrackingRoundTrip(app, id);
    assert app + ":" + group + "/" + kind + ":" + namespace + "/" + name == FormatTrackingId(app, id);
    hide Trackable, ParseTrackingId;
  }

  // ---- an object that exists ----

  /** The names an Application goes by. */
  predicate GoesBy(app: App, name: string) {
    name == app.name || (app.namespace != "" && name == app.namespace + "_" + app.name)
  }

  /** A tracking annotation that is about this object names the Application. */
  predicate TracksIt(live: Live, app: App) {
    match ParseTrackingId(live.tracking)
    case Some((name, id)) => id == live.id && GoesBy(app, name)
    case None => false
  }

  predicate Labels(live: Live, app: App) {
    live.instance != "" && GoesBy(app, live.instance)
  }

  /** How firmly an Application is tied to an object, by the annotation, the Application's own list and the label. */
  lemma ConfidenceMeans(live: Live, app: App)
    ensures ConfidenceOf(live, app) == Tracked <==> TracksIt(live, app)
    ensures ConfidenceOf(live, app) == Confirmed <==> !TracksIt(live, app) && Lists(app, live.id)
    ensures ConfidenceOf(live, app) == Candidate <==> !TracksIt(live, app) && !Lists(app, live.id) && Labels(live, app)
  {
    if ParseTrackingId(live.tracking).Some? { ParsedIsWritten(live.tracking); }
    hide Lists, ParseTrackingId;
  }

  lemma NoAnnotation()
    ensures ParseTrackingId("").None?
  {
  }

  lemma {:induction false} SameRankingSameBest(apps: seq<App>, a: Ranking, b: Ranking)
    requires forall app :: a(app) == b(app)
    ensures BestOf(apps, a) == BestOf(apps, b)
  {
    if apps != [] { SameRankingSameBest(apps[..|apps| - 1], a, b); }
  }

  /** An annotation that is about another object, copied here, is as good as none: the answer, for any Applications, is
      that of the object without it. */
  lemma ForeignAnnotationIsNone(live: Live, apps: seq<App>)
    requires match ParseTrackingId(live.tracking) case Some((_, id)) => id != live.id case None => true
    ensures
      var without := live.(tracking := "");
      && Best(apps, ConfidenceRanking(live)) == Best(apps, ConfidenceRanking(without))
      && RankOf(ConfidenceRanking(live), Best(apps, ConfidenceRanking(live))) ==
           RankOf(ConfidenceRanking(without), Best(apps, ConfidenceRanking(without)))
  {
    var without := live.(tracking := "");
    NoAnnotation();
    forall app ensures ConfidenceRanking(live)(app) == ConfidenceRanking(without)(app) {
      ConfidenceMeans(live, app);
      ConfidenceMeans(without, app);
    }
    SameRankingSameBest(StableSort(apps, AppLeq), ConfidenceRanking(live), ConfidenceRanking(without));
  }

  /** And so is the editor's gate, whatever was found. */
  lemma ForeignAnnotationOpensNothing(found: Search, live: Live)
    requires match ParseTrackingId(live.tracking) case Some((_, id)) => id != live.id case None => true
    ensures EditGate(found, Some(live)) == EditGate(found, Some(live.(tracking := "")))
  {
    ForeignAnnotationIsNone(live, found.apps);
    hide Best, ConfidenceRanking;
  }

  ghost predicate SomeTies(apps: seq<App>, live: Live) {
    exists app :: app in apps && (TracksIt(live, app) || Lists(app, live.id))
  }

  ghost predicate SomeLabels(apps: seq<App>, live: Live) {
    exists app :: app in apps && Labels(live, app)
  }

  lemma BestTie(apps: seq<App>, live: Live)
    ensures
      var r := RankOf(ConfidenceRanking(live), Best(apps, ConfidenceRanking(live)));
      && r <= 3
      && (r >= 2 <==> SomeTies(apps, live))
      && (r == 1 <==> !SomeTies(apps, live) && SomeLabels(apps, live))
  {
    var best := Best(apps, ConfidenceRanking(live));
    BestIsBest(apps, ConfidenceRanking(live));
    hide Best;
    forall app ensures ConfidenceRanking(live)(app) == ConfidenceRank(ConfidenceOf(live, app)) { ConfidenceMeans(live, app); }
    forall app
      ensures ConfidenceRanking(live)(app) >= 2 <==> TracksIt(live, app) || Lists(app, live.id)
      ensures ConfidenceRanking(live)(app) == 1 <==> !TracksIt(live, app) && !Lists(app, live.id) && Labels(live, app)
      ensures ConfidenceRanking(live)(app) <= 3
    {
      ConfidenceMeans(live, app);
    }
    hide ConfidenceRanking, TracksIt, Lists, Labels;
  }

  /** The editor's gate, exactly, once a search has been made and the object read. Managed is what an Application tracks
      or lists, seen in full or not; a label alone settles nothing; nothing found is an answer only of a complete search. */
  lemma EditGateMeans(found: Search, live: Live)
    requires found.installed != InstallNo
    ensures
      var gate := EditGate(found, Some(live));
      && (gate.status == Managed <==> SomeTies(found.apps, live))
      && (gate.status == Unmanaged <==> found.complete && !SomeTies(found.apps, live) && !SomeLabels(found.apps, live))
      && (gate.uncertainty ==
            if SomeTies(found.apps, live) then NoUncertainty
            else if SomeLabels(found.apps, live) then Ambiguous
            else if found.complete then NoUncertainty
            else if found.uncertainty == NoUncertainty then Incomplete else found.uncertainty)
      && gate.app == Best(found.apps, ConfidenceRanking(live))
      && gate.claim == (match gate.status case Managed => ClaimObject case Unmanaged => ClaimNone case Unknown => ClaimUnknown)
      && gate.managed == (gate.status == Managed) && gate.allowed == (gate.status == Unmanaged)
  {
    BestTie(found.apps, live);
    hide Best, ConfidenceRanking, SomeTies, SomeLabels;
  }

  // ---- a target that does not exist yet ----

  /** The Application deploys into the target's namespace. */
  predicate DeploysInto(app: App, target: ResourceId) {
    && target.namespace != ""
    && match Lookup(app.content, [Field("spec"), Field("destination"), Field("namespace")])
       case Some(Str(s)) => TrimSpace(s) == target.namespace
       case _ => false
  }

  /** The Application lists an object of the target's name already. */
  predicate ListsTarget(app: App, target: ResourceId) {
    target.kind != "" && target.name != "" && Lists(app, target)
  }

  lemma ClaimMeans(target: ResourceId, app: App)
    ensures ClaimOf(target, app) == ClaimObject <==> ListsTarget(app, target)
    ensures ClaimOf(target, app) == ClaimNamespace <==> !ListsTarget(app, target) && DeploysInto(app, target)
    ensures ClaimOf(target, app) != ClaimUnknown
  {
    NestedLookup(app.content, ["spec", "destination", "namespace"]);
    assert Steps(["spec", "destination", "namespace"]) == [Field("spec"), Field("destination"), Field("namespace")];
    hide Lists, Nested, Lookup;
  }

  ghost predicate SomeLists(apps: seq<App>, target: ResourceId) {
    exists app :: app in apps && ListsTarget(app, target)
  }

  ghost predicate SomeDeploysInto(apps: seq<App>, target: ResourceId) {
    exists app :: app in apps && DeploysInto(app, target)
  }

  lemma BestClaim(apps: seq<App>, target: ResourceId)
    ensures
      var r := RankOf(ClaimRanking(target), Best(apps, ClaimRanking(target)));
      && (r == 3 <==> SomeLists(apps, target))
      && (r == 2 <==> !SomeLists(apps, target) && SomeDeploysInto(apps, target))
      && (r == 0 <==> !SomeLists(apps, target) && !SomeDeploysInto(apps, target))
  {
    BestIsBest(apps, ClaimRanking(target));
    hide Best;
    forall app
      ensures ClaimRanking(target)(app) == 3 <==> ListsTarget(app, target)
      ensures ClaimRanking(target)(app) == 2 <==> !ListsTarget(app, target) && DeploysInto(app, target)
      ensures ClaimRanking(target)(app) in {0, 2, 3}
    {
      ClaimMeans(target, app);
    }
    hide ClaimRanking, ListsTarget, DeploysInto;
  }

  /** The gate for a create, exactly, once a search has been made: claimed when an Application lists the target or
      deploys into its namespace, seen in full or not; open only after a complete search that found neither. */
  lemma CreateGateMeans(found: Search, target: ResourceId)
    requires found.installed != InstallNo
    ensures
      var gate := CreateGate(found, target);
      var claimed := SomeLists(found.apps, target) || SomeDeploysInto(found.apps, target);
      && (gate.status == Managed <==> claimed)
      && (gate.status == Unmanaged <==> found.complete && !claimed)
      && gate.managed == claimed && gate.allowed == (gate.status == Unmanaged)
      && (gate.claim == ClaimUnknown <==> gate.status == Unknown)
      && (gate.claim == ClaimObject <==> SomeLists(found.apps, target))
      && (gate.claim == ClaimNamespace <==> !SomeLists(found.apps, target) && SomeDeploysInto(found.apps, target))
      && gate.uncertainty == (if found.complete || claimed then NoUncertainty else found.uncertainty)
      && gate.app == (if found.complete || claimed then Best(found.apps, ClaimRanking(target)) else None)
  {
    BestClaim(found.apps, target);
    hide Best, ClaimRanking, SomeLists, SomeDeploysInto;
  }

  /** Without a look at the object nothing is known of it, unless Argo CD is absent. */
  lemma UnreadIsUnknown(found: Search)
    requires found.installed != InstallNo
    ensures
      var gate := EditGate(found, None);
      gate.status == Unknown && !gate.allowed && !gate.managed && gate.uncertainty == Unreachable && gate.app == None
  {
  }

  /** Of the Applications that claim equally much, the one named is the first by namespace and then by name. */
  lemma BestIsFirst(apps: seq<App>, rank: Ranking, app: App)
    requires Best(apps, rank).Some? && app in apps
    ensures
      var best := Best(apps, rank).value;
      && best in apps && rank(app) <= rank(best)
      && (rank(app) == rank(best) ==> !Less(app.namespace, best.namespace) && (app.namespace == best.namespace ==> !Less(app.name, best.name)))
  {
    BestIsBest(apps, rank);
    LessTrichotomy(app.namespace, Best(apps, rank).value.namespace);
    hide Best;
  }

  /** A claim found in the one namespace that could be read counts, however little else could: where the cluster-wide
      listing is refused and nothing is remembered, an Application beside the object that tracks or lists it makes both
      the answer and the gate say Managed. */
  lemma NamespaceClaimCounts(m: Memory, q: Query, live: Live, app: App)
    requires !Fresh(m, WholeCluster(q.cluster), q.asked) && !Fresh(m, OneNamespace(q.cluster, q.fallback), q.askedAgain)
    requires !SearchCluster(q.wide).complete && q.fallback != ""
    requires q.narrow.connected && Paged(q.narrow.server).Listed? && app in Paged(q.narrow.server).apps
    requires TracksIt(live, app) || Lists(app, live.id)
    ensures EditGate(Discover(m, q).1, Some(live)).status == Managed
  {
    var wide := SearchCluster(q.wide);
    SearchMeans(q.wide);
    FallsBackExactly(m, q);
    NamespaceOnlyAdds(q.narrow, wide);
    var found := Discover(m, q).1;
    EditGateMeans(found, live);
    hide Discover, SearchCluster, SearchNamespace, EditGate, TracksIt, Lists;
    assert SomeTies(found.apps, live);
  }

  /** Where Argo CD is absent both gates are open, the object read or not. */
  lemma AbsenceOpensBoth(found: Search, target: ResourceId, read: Option<Live>)
    requires found.installed == InstallNo
    ensures CreateGate(found, target).allowed && EditGate(found, read).allowed
  {
  }
}
