/** Which Argo CD Application speaks for an object (internal/argocd/claim.go and ownership.go). Both
    resolvers put the Applications in order and keep the first of the highest rank. */
module Claims {
  import opened Order
  import opened Json
  import opened Pruning
  import opened Text

  /** An Application, as the dynamic client returns it. */
  datatype App = App(namespace: string, name: string, content: Json)

  datatype ResourceId = ResourceId(group: string, kind: string, namespace: string, name: string)

  // ---- what an Application says ----

  function StringField(j: Json, key: string): string {
    match Nested(j, [key])
    case Some(Str(s)) => s
    case _ => ""
  }

  predicate EntryNames(entry: Json, id: ResourceId) {
    entry.Obj? && StringField(entry, "kind") == id.kind && StringField(entry, "name") == id.name &&
    StringField(entry, "group") == id.group && StringField(entry, "namespace") == id.namespace
  }

  /** The Application counts the object among the resources it manages. */
  predicate Lists(app: App, id: ResourceId) {
    match Nested(app.content, ["status", "resources"])
    case Some(List(entries)) => exists i :: 0 <= i < |entries| && EntryNames(entries[i], id)
    case _ => false
  }

  method ListsResource(app: App, id: ResourceId) returns (found: bool)
    ensures found <==> Lists(app, id)
  {
    var resources := Nested(app.content, ["status", "resources"]);
    if resources.None? || !resources.value.List? { return false; }
    var entries := resources.value.elems;
    for i := 0 to |entries|
      invariant forall k :: 0 <= k < i ==> !EntryNames(entries[k], id)
    {
      if EntryNames(entries[i], id) { return true; }
    }
    return false;
  }

  function DestinationNamespace(app: App): string {
    match Nested(app.content, ["spec", "destination", "namespace"])
    case Some(Str(s)) => TrimSpace(s)
    case _ => ""
  }

  function AppNames(app: App): seq<string> {
    if app.namespace != "" then [app.name, app.namespace + "_" + app.name] else [app.name]
  }

  /** The tracking annotation's value: app, and the identity of the object it was written on. */
  function ParseTrackingId(value: string): Option<(string, ResourceId)> {
    var parts := SplitOn(TrimSpace(value), ':');
    if |parts| != 3 then None
    else match (Cut(parts[1], '/'), Cut(parts[2], '/'))
      case (Some(k), Some(n)) =>
        if parts[0] == "" || k.1 == "" || n.1 == "" then None
        else Some((parts[0], ResourceId(k.0, k.1, n.0, n.1)))
      case _ => None
  }

  function FormatTrackingId(app: string, id: ResourceId): string {
    app + [':'] + (id.group + ['/'] + id.kind + [':'] + (id.namespace + ['/'] + id.name))
  }

  /** An identity the annotation can carry: three names that are there, no colon anywhere, no slash in the group or the
      namespace, and no white space at the two ends. */
  predicate Trackable(app: string, id: ResourceId) {
    && app != "" && id.kind != "" && id.name != ""
    && ':' !in app + id.group + id.kind + id.namespace + id.name && '/' !in id.group + id.namespace
    && !IsSpace(app[0]) && !IsSpace(id.name[|id.name| - 1])
  }

  /** Whatever is read from an annotation is what was written there, up to white space around it. */
  lemma ParsedIsWritten(value: string)
    requires ParseTrackingId(value).Some?
    ensures
      var (app, id) := ParseTrackingId(value).value;
      && TrimSpace(value) == FormatTrackingId(app, id)
      && app != "" && id.kind != "" && id.name != ""
      && ':' !in app + id.group + id.kind + id.namespace + id.name && '/' !in id.group + id.namespace
  {
    var s := TrimSpace(value);
    var parts := SplitOn(s, ':');
    JoinSplit(s, ':');
    CutMeans(parts[1], '/');
    CutMeans(parts[2], '/');
    JoinOfThree(parts, ":");
  }

  lemma JoinOfThree(parts: seq<string>, sep: string)
    requires |parts| == 3
    ensures Join(parts, sep) == parts[0] + sep + (parts[1] + sep + parts[2])
  {
    JoinFirst(parts, sep);
    JoinFirst(parts[1..], sep);
    assert parts[1..][1..] == [parts[2]];
  }

  /** Reading a tracking annotation undoes writing it, for exactly the identities it can carry. */
  lemma TrackingRoundTrip(app: string, id: ResourceId)
    ensures ParseTrackingId(FormatTrackingId(app, id)) == Some((app, id)) <==> Trackable(app, id)
  {
    var text := FormatTrackingId(app, id);
    if app != "" && id.name != "" {
      assert text[0] == app[0] && text[|text| - 1] == id.name[|id.name| - 1];
      TrimmedExactly(text);
    }
    if Trackable(app, id) {
      Written(app, id);
    } else if ParseTrackingId(text) == Some((app, id)) {
      ParsedIsWritten(text);
    }
  }

  lemma Written(app: string, id: ResourceId)
    requires Trackable(app, id) && TrimSpace(FormatTrackingId(app, id)) == FormatTrackingId(app, id)
    ensures ParseTrackingId(FormatTrackingId(app, id)) == Some((app, id))
  {
    var kind, name := id.group + ['/'] + id.kind, id.namespace + ['/'] + id.name;
    SplitFirst(app, kind + [':'] + name, ':');
    SplitFirst(kind, name, ':');
    SplitFirst(name, [], ':');
    assert FormatTrackingId(app, id) == app + [':'] + (kind + [':'] + name);
    CutFirst(id.group, id.kind, '/');
    CutFirst(id.namespace, id.name, '/');
  }

  /** An identity with a colon in any of its names, as names of access rules may have, is not read at all. */
  lemma ColonsAreIgnored(app: string, id: ResourceId)
    requires ':' in app + id.group + id.kind + id.namespace + id.name
    ensures ParseTrackingId(FormatTrackingId(app, id)).None?
  {
    var text := FormatTrackingId(app, id);
    CountPieces(TrimSpace(text), ':');
    CountTrimLeft(text, ':');
    CountTrimRight(TrimLeft(text), ':');
    ColonsWritten(app, id);
    CountNone(app + id.group + id.kind + id.namespace + id.name, ':');
  }

  lemma ColonsWritten(app: string, id: ResourceId)
    ensures Count(FormatTrackingId(app, id), ':') == 2 + Count(app + id.group + id.kind + id.namespace + id.name, ':')
  {
    var kind, name := id.group + ['/'] + id.kind, id.namespace + ['/'] + id.name;
    CountAppend(app + [':'], kind + [':'] + name, ':');
    CountAppend(app, [':'], ':');
    CountAppend(kind + [':'], name, ':');
    CountAppend(kind, [':'], ':');
    CountAppend(id.group + ['/'], id.kind, ':');
    CountAppend(id.group, ['/'], ':');
    CountAppend(id.namespace + ['/'], id.name, ':');
    CountAppend(id.namespace, ['/'], ':');
    CountAppend(app + id.group + id.kind + id.namespace, id.name, ':');
    CountAppend(app + id.group + id.kind, id.namespace, ':');
    CountAppend(app + id.group, id.kind, ':');
    CountAppend(app, id.group, ':');
    assert Count([':'], ':') == 1 && Count(['/'], ':') == 0;
    hide Count;
  }

  // ---- the order and the best ----

  predicate AppLess(a: App, b: App) {
    if a.namespace != b.namespace then Less(a.namespace, b.namespace) else Less(a.name, b.name)
  }

  predicate AppLeq(a: App, b: App) {
    !AppLess(b, a)
  }

  lemma AppLeqTotal()
    ensures TotalPreorder(AppLeq)
  {
    forall a: App, b: App ensures AppLeq(a, b) || AppLeq(b, a) {
      LessTrichotomy(a.namespace, b.namespace);
      LessTrichotomy(a.name, b.name);
    }
    forall a: App, b: App, c: App | AppLeq(a, b) && AppLeq(b, c) ensures AppLeq(a, c) {
      AppLeqTransitive(a, b, c);
    }
  }

  lemma AppLeqTransitive(a: App, b: App, c: App)
    requires AppLeq(a, b) && AppLeq(b, c)
    ensures AppLeq(a, c)
  {
    LessTrichotomy(a.namespace, b.namespace);
    LessTrichotomy(b.namespace, c.namespace);
    LessTrichotomy(a.namespace, c.namespace);
    LessTrichotomy(a.name, b.name);
    LessTrichotomy(b.name, c.name);
    LessTrichotomy(a.name, c.name);
    if Less(a.namespace, b.namespace) && Less(b.namespace, c.namespace) { LessTransitive(a.namespace, b.namespace, c.namespace); }
    if Less(a.name, b.name) && Less(b.name, c.name) { LessTransitive(a.name, b.name, c.name); }
  }

  /** Every Application of a cluster is named by its namespace and name. */
  ghost predicate Distinct(apps: seq<App>) {
    forall a, b :: a in apps && b in apps && a.namespace == b.namespace && a.name == b.name ==> a == b
  }

  type Ranking = App -> nat

  /** The first Application, in namespace and name order, of the highest rank above none. */
  ghost predicate IsBest(apps: seq<App>, rank: Ranking, best: Option<App>) {
    match best
    case None => forall a :: a in apps ==> rank(a) == 0
    case Some(b) =>
      && b in apps && rank(b) > 0
      && forall a :: a in apps ==> rank(a) < rank(b) || (rank(a) == rank(b) && AppLeq(b, a))
  }

  function RankOf(rank: Ranking, best: Option<App>): nat {
    match best case None => 0 case Some(b) => rank(b)
  }

  /** Walking Applications in order, replacing the best so far only by a better one. */
  function BestOf(ordered: seq<App>, rank: Ranking): Option<App> {
    if ordered == [] then None
    else
      var last := |ordered| - 1;
      var best := BestOf(ordered[..last], rank);
      if rank(ordered[last]) > RankOf(rank, best) then Some(ordered[last]) else best
  }

  function Best(apps: seq<App>, rank: Ranking): Option<App> {
    BestOf(StableSort(apps, AppLeq), rank)
  }

  lemma {:induction false} BestOfIs(ordered: seq<App>, rank: Ranking)
    requires SortedBy(ordered, AppLeq) && forall a: App :: AppLeq(a, a)
    ensures IsBest(ordered, rank, BestOf(ordered, rank))
  {
    if ordered != [] {
      var last := |ordered| - 1;
      var front := ordered[..last];
      BestOfIs(front, rank);
      assert forall a :: a in ordered <==> a in front || a == ordered[last];
      var best := BestOf(front, rank);
      if best.Some? {
        var i :| 0 <= i < |front| && front[i] == best.value;
        assert AppLeq(ordered[i], ordered[last]);
      }
    }
  }

  /** The best found is the first, in namespace and name order, of the highest rank. */
  lemma BestIsBest(apps: seq<App>, rank: Ranking)
    ensures IsBest(apps, rank, Best(apps, rank))
  {
    var ordered := StableSort(apps, AppLeq);
    AppLeqTotal();
    StableSortSorts(apps, AppLeq);
    StableSortKeeps(apps, AppLeq);
    forall a: App ensures AppLeq(a, a) { LessTrichotomy(a.name, a.name); }
    BestOfIs(ordered, rank);
    forall a ensures a in apps <==> a in ordered {
      assert a in apps <==> a in multiset(apps);
      assert a in ordered <==> a in multiset(ordered);
    }
  }

  /** The answer depends only on which Applications there are: neither their order nor repetition matters. */
  lemma OnlyTheSetMatters(a: seq<App>, b: seq<App>, rank: Ranking)
    requires Elements(a) == Elements(b) && Distinct(a)
    ensures Best(a, rank) == Best(b, rank)
  {
    BestIsBest(a, rank);
    BestIsBest(b, rank);
    var x, y := Best(a, rank), Best(b, rank);
    forall e ensures e in a <==> e in b { assert e in Elements(a) <==> e in Elements(b); }
    if x.Some? && y.Some? {
      LessTrichotomy(x.value.namespace, y.value.namespace);
      LessTrichotomy(x.value.name, y.value.name);
      assert AppLeq(x.value, y.value) && AppLeq(y.value, x.value);
    }
  }

  /** Seeing more Applications never lowers the rank of the best. */
  lemma MoreAppsRankHigher(part: seq<App>, whole: seq<App>, rank: Ranking)
    requires Elements(part) <= Elements(whole)
    ensures RankOf(rank, Best(part, rank)) <= RankOf(rank, Best(whole, rank))
  {
    BestIsBest(part, rank);
    BestIsBest(whole, rank);
    var x := Best(part, rank);
    if x.Some? {
      assert x.value in Elements(part);
      assert x.value in whole;
    }
  }

  // ---- a target that does not exist yet ----

  datatype Claim = ClaimNone | ClaimUnknown | ClaimNamespace | ClaimObject

  function ClaimRank(kind: Claim): nat {
    match kind
    case ClaimObject => 3
    case ClaimNamespace => 2
    case ClaimUnknown => 1
    case ClaimNone => 0
  }

  function ClaimOf(target: ResourceId, app: App): Claim {
    if target.kind != "" && target.name != "" && Lists(app, target) then ClaimObject
    else if target.namespace != "" && DestinationNamespace(app) == target.namespace then ClaimNamespace
    else ClaimNone
  }

  function ClaimRanking(target: ResourceId): Ranking {
    app => ClaimRank(ClaimOf(target, app))
  }

  function ClaimByRank(rank: nat): Claim {
    if rank == 3 then ClaimObject else if rank == 2 then ClaimNamespace else ClaimNone
  }

  method ResolveClaim(target: ResourceId, apps: seq<App>) returns (kind: Claim, best: Option<App>)
    ensures best == Best(apps, ClaimRanking(target))
    ensures kind == ClaimByRank(RankOf(ClaimRanking(target), best))
  {
    hide Lists, StableSort, DestinationNamespace;
    var ordered := StableSort(apps, AppLeq);
    best, kind := None, ClaimNone;
    ghost var rank := ClaimRanking(target);
    for i := 0 to |ordered|
      invariant best == BestOf(ordered[..i], rank)
      invariant kind == ClaimByRank(RankOf(rank, best)) && ClaimRank(kind) == RankOf(rank, best)
    {
      assert ordered[..i + 1][..i] == ordered[..i];
      var app := ordered[i];
      var claims := ClaimNone;
      var lists := ListsResource(app, target);
      if target.kind != "" && target.name != "" && lists {
        claims := ClaimObject;
      } else if target.namespace != "" && DestinationNamespace(app) == target.namespace {
        claims := ClaimNamespace;
      }
      if ClaimRank(claims) > ClaimRank(kind) {
        best, kind := Some(app), claims;
      }
    }
    assert ordered[..|ordered|] == ordered;
  }

  // ---- an object that exists ----

  datatype Confidence = Unclaimed | Candidate | Confirmed | Tracked

  /** What is read off the live object: its identity, its tracking annotation and its instance label. */
  datatype Live = Live(id: ResourceId, tracking: string, instance: string)

  /** The Application an annotation names, if the identity in it is this very object's. */
  function TrackedBy(live: Live): string {
    match ParseTrackingId(live.tracking)
    case Some(p) => if p.1 == live.id then p.0 else ""
    case None => ""
  }

  function ConfidenceOf(live: Live, app: App): Confidence {
    if TrackedBy(live) != "" && TrackedBy(live) in AppNames(app) then Tracked
    else if Lists(app, live.id) then Confirmed
    else if live.instance != "" && live.instance in AppNames(app) then Candidate
    else Unclaimed
  }

  function ConfidenceRank(c: Confidence): nat {
    match c
    case Unclaimed => 0
    case Candidate => 1
    case Confirmed => 2
    case Tracked => 3
  }

  function ConfidenceRanking(live: Live): Ranking {
    app => ConfidenceRank(ConfidenceOf(live, app))
  }

  function ConfidenceByRank(rank: nat): Confidence {
    if rank == 3 then Tracked else if rank == 2 then Confirmed else if rank == 1 then Candidate else Unclaimed
  }

  method ResolveOwnership(live: Live, apps: seq<App>) returns (confidence: Confidence, best: Option<App>)
    ensures best == Best(apps, ConfidenceRanking(live))
    ensures confidence == ConfidenceByRank(RankOf(ConfidenceRanking(live), best))
  {
    hide Lists, StableSort, ParseTrackingId, AppNames;
    var tracked := "";
    var parsed := ParseTrackingId(live.tracking);
    if parsed.Some? && parsed.value.1 == live.id { tracked := parsed.value.0; }
    var ordered := StableSort(apps, AppLeq);
    var bestRank: nat := 0;
    best := None;
    ghost var ranking := ConfidenceRanking(live);
    for i := 0 to |ordered|
      invariant best == BestOf(ordered[..i], ranking)
      invariant bestRank == RankOf(ranking, best) <= 3
    {
      assert ordered[..i + 1][..i] == ordered[..i];
      var app := ordered[i];
      var names, rank := AppNames(app), 0;
      var lists := ListsResource(app, live.id);
      if tracked != "" && tracked in names {
        rank := 3;
      } else if lists {
        rank := 2;
      } else if live.instance != "" && live.instance in names {
        rank := 1;
      }
      if rank > bestRank {
        best, bestRank := Some(app), rank;
      }
    }
    assert ordered[..|ordered|] == ordered;
    confidence := ConfidenceByRank(bestRank);
  }
}
