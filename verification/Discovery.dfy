/** The search every ownership answer rests on (internal/argocd/discovery.go): a paged listing under a
    budget, a cache with lifetimes, and a fallback to one namespace. */
module Discovery {
  import opened Order
  import opened Claims

  const PAGE_BUDGET := 5
  const DISCOVERY_TTL := 15
  const REFUSAL_TTL := 60

  /** What is known about Argo CD being present. */
  datatype Installed = InstallUnknown | InstallYes | InstallNo

  datatype Uncertainty = NoUncertainty | Forbidden | Timeout | Unreachable | Incomplete | Ambiguous

  datatype Search = Search(apps: seq<App>, complete: bool, installed: Installed, uncertainty: Uncertainty)

  datatype ApiError = NotFound | Denied | Late | Other

  /** One answer of the API server to a list request: a page, with or without a token for the next. */
  datatype Reply = Page(items: seq<App>, next: string) | Failed(error: ApiError)

  datatype Listing = Refused(error: ApiError) | Listed(apps: seq<App>, truncated: bool)

  /** The answers to the successive requests of one listing. */
  type Server = nat -> Reply

  predicate GoesOn(reply: Reply) {
    reply.Page? && reply.next != ""
  }

  /** The items of the first `n` pages. */
  function Items(server: Server, n: nat): seq<App> {
    if n == 0 then [] else Items(server, n - 1) + if server(n - 1).Page? then server(n - 1).items else []
  }

  /** The listing was followed to its last page: each page named a next one, and the last named none. */
  ghost predicate FollowedToEnd(server: Server, apps: seq<App>) {
    exists n: nat :: 0 < n <= PAGE_BUDGET && EndsAt(server, n - 1) && apps == Items(server, n)
  }

  ghost predicate EndsAt(server: Server, last: nat) {
    (forall i: nat :: i < last ==> GoesOn(server(i))) && server(last).Page? && server(last).next == ""
  }

  /** What reading from a page on comes to, after `out` has been read. */
  function PagedFrom(server: Server, page: nat, out: seq<App>): Listing
    decreases PAGE_BUDGET - page
  {
    if page >= PAGE_BUDGET then Listed(out, true)
    else match server(page)
      case Failed(e) => Refused(e)
      case Page(items, next) => if next == "" then Listed(out + items, false) else PagedFrom(server, page + 1, out + items)
  }

  function Paged(server: Server): Listing {
    PagedFrom(server, 0, [])
  }

  /** Page after page of one resource type, while there are more and the budget lasts. */
  method ListPaged(server: Server) returns (r: Listing)
    ensures r == Paged(server)
  {
    var out: seq<App> := [];
    for page := 0 to PAGE_BUDGET
      invariant PagedFrom(server, page, out) == Paged(server)
    {
      var reply := server(page);
      if reply.Failed? { return Refused(reply.error); }
      out := out + reply.items;
      if reply.next == "" { return Listed(out, false); }
    }
    return Listed(out, true);
  }

  lemma {:induction false} PagedMeansFrom(server: Server, page: nat)
    requires page <= PAGE_BUDGET && forall i: nat :: i < page ==> GoesOn(server(i))
    ensures match PagedFrom(server, page, Items(server, page))
      case Listed(apps, false) => FollowedToEnd(server, apps)
      case Listed(apps, true) => apps == Items(server, PAGE_BUDGET) && forall i: nat :: i < PAGE_BUDGET ==> GoesOn(server(i))
      case Refused(e) => exists n: nat :: n < PAGE_BUDGET && server(n) == Failed(e)
    decreases PAGE_BUDGET - page
  {
    if page < PAGE_BUDGET && server(page).Page? {
      var out := Items(server, page) + server(page).items;
      assert Items(server, page + 1) == out;
      if server(page).next == "" {
        assert EndsAt(server, page);
        assert FollowedToEnd(server, out) by { assert 0 < page + 1 <= PAGE_BUDGET && out == Items(server, page + 1); }
      } else {
        PagedMeansFrom(server, page + 1);
      }
    }
  }

  /** A listing that is not truncated was followed to its last page; a truncated one used up the budget with
      more to come; and a refusal was an answer of the server. */
  lemma PagedMeans(server: Server)
    ensures match Paged(server)
      case Listed(apps, false) => FollowedToEnd(server, apps)
      case Listed(apps, true) => apps == Items(server, PAGE_BUDGET) && forall i: nat :: i < PAGE_BUDGET ==> GoesOn(server(i))
      case Refused(e) => exists n: nat :: n < PAGE_BUDGET && server(n) == Failed(e)
  {
    PagedMeansFrom(server, 0);
  }

  /** What the cluster answers while one search runs. */
  datatype Answers = Answers(inCatalogue: bool, discovered: nat, served: bool, connected: bool, server: Server)

  /** Discovery that returned nothing is a failed read, not an empty cluster. */
  function Installation(a: Answers): Installed {
    if a.inCatalogue then InstallYes
    else if a.discovered == 0 then InstallUnknown
    else if a.served then InstallYes else InstallNo
  }

  function RefusedSearch(out: Search, error: ApiError): Search {
    match error
    case NotFound => out.(installed := InstallNo, complete := true)
    case Denied => out.(uncertainty := Forbidden)
    case Late => out.(uncertainty := Timeout)
    case Other => out.(uncertainty := Unreachable)
  }

  function SearchCluster(a: Answers): Search {
    var out := Search([], false, Installation(a), NoUncertainty);
    if out.installed == InstallNo then out.(complete := true)
    else if !a.connected then out.(uncertainty := Unreachable)
    else match Paged(a.server)
      case Refused(e) => RefusedSearch(out, e)
      case Listed(apps, truncated) =>
        if truncated then Search(apps, false, InstallYes, Incomplete) else Search(apps, true, InstallYes, NoUncertainty)
  }

  /** The result stays incomplete whatever one namespace holds. */
  function SearchNamespace(a: Answers, wide: Search): Search {
    if !a.connected then wide
    else match Paged(a.server)
      case Refused(_) => wide
      case Listed(apps, _) => wide.(apps := wide.apps + apps, installed := InstallYes)
  }

  // ---- the cache ----

  datatype CacheKey = WholeCluster(cluster: string) | OneNamespace(cluster: string, namespace: string)

  datatype CacheEntry = CacheEntry(result: Search, expires: int)

  function TtlFor(result: Search): int {
    if result.uncertainty == Forbidden then REFUSAL_TTL else DISCOVERY_TTL
  }

  /** A record of one cluster-wide search that was made and stored, and when. */
  datatype Evidence = Evidence(cluster: string, answers: Answers, at: int)

  /** The service's memory: its cache, and every cluster-wide search it ever stored. */
  datatype Memory = Memory(entries: map<CacheKey, CacheEntry>, log: seq<Evidence>)

  /** One ownership question: the clock readings it makes and what the cluster would answer. */
  datatype Query = Query(cluster: string, fallback: string, asked: int, wide: Answers, stored: int,
                         askedAgain: int, narrow: Answers, storedAgain: int)

  predicate Fresh(m: Memory, key: CacheKey, now: int) {
    key in m.entries && !(now > m.entries[key].expires)
  }

  function Store(m: Memory, key: CacheKey, result: Search, now: int): Memory {
    m.(entries := m.entries[key := CacheEntry(result, now + TtlFor(result))])
  }

  function FindWide(m: Memory, q: Query): (Memory, Search) {
    var key := WholeCluster(q.cluster);
    if Fresh(m, key, q.asked) then (m, m.entries[key].result)
    else
      var result := SearchCluster(q.wide);
      (Store(m, key, result, q.stored).(log := m.log + [Evidence(q.cluster, q.wide, q.stored)]), result)
  }

  function Discover(m: Memory, q: Query): (Memory, Search) {
    var (m1, wide) := FindWide(m, q);
    if wide.complete || q.fallback == "" || wide.installed == InstallNo then (m1, wide)
    else
      var key := OneNamespace(q.cluster, q.fallback);
      if Fresh(m1, key, q.askedAgain) then (m1, m1.entries[key].result)
      else
        var result := SearchNamespace(q.narrow, wide);
        (Store(m1, key, result, q.storedAgain), result)
  }

  // ---- what the memory guarantees ----

  /** The cluster told that it does not serve the Application resource: by what its discovery does list, or by
      answering the listing with "not found". A discovery that lists nothing tells nothing. */
  predicate NotServed(a: Answers) {
    || (!a.inCatalogue && a.discovered > 0 && !a.served)
    || (a.connected && Paged(a.server) == Refused(NotFound))
  }

  /** The cluster-wide listing was followed to its last page and held these Applications. */
  ghost predicate SawEverything(a: Answers, apps: seq<App>) {
    a.connected && FollowedToEnd(a.server, apps)
  }

  /** What a cluster-wide search establishes, exactly: absence only when the cluster told it, completeness only then or
      when the listing was followed to its end, every Application that was listed, and why there may be more. */
  lemma SearchMeans(a: Answers)
    ensures SearchCluster(a).installed == InstallNo <==> NotServed(a)
    ensures SearchCluster(a).complete <==> NotServed(a) || (a.connected && Paged(a.server).Listed? && !Paged(a.server).truncated)
    ensures SearchCluster(a).apps == if !NotServed(a) && a.connected && Paged(a.server).Listed? then Paged(a.server).apps else []
    ensures
      SearchCluster(a).uncertainty ==
        if NotServed(a) then NoUncertainty
        else if !a.connected || Paged(a.server) == Refused(Other) then Unreachable
        else if Paged(a.server) == Refused(Denied) then Forbidden
        else if Paged(a.server) == Refused(Late) then Timeout
        else if Paged(a.server).truncated then Incomplete
        else NoUncertainty
  {
  }

  /** A discovery that lists nothing is a failed read: absence is then concluded only from a listing answered with "not
      found", whatever else is known. */
  lemma SilenceIsNotAbsence(a: Answers)
    requires a.discovered == 0
    ensures SearchCluster(a).installed == InstallNo <==> a.connected && Paged(a.server) == Refused(NotFound)
  {
    SearchMeans(a);
  }

  /** Looking into one namespace adds the Applications listed there and nothing else: what the cluster-wide search fell
      short of is still unknown, for the same reason. */
  lemma NamespaceOnlyAdds(a: Answers, wide: Search)
    ensures
      var near := SearchNamespace(a, wide);
      && near.complete == wide.complete && near.uncertainty == wide.uncertainty
      && (forall app :: app in near.apps <==> app in wide.apps || (a.connected && Paged(a.server).Listed? && app in Paged(a.server).apps))
      && (near.installed == InstallNo ==> wide.installed == InstallNo)
  {
  }

  lemma CompleteMeansSeen(a: Answers)
    ensures SearchCluster(a).installed == InstallNo ==> SearchCluster(a).complete && SearchCluster(a).apps == [] && NotServed(a)
    ensures SearchCluster(a).complete ==> TtlFor(SearchCluster(a)) == DISCOVERY_TTL
    ensures SearchCluster(a).complete && SearchCluster(a).installed != InstallNo ==> SawEverything(a, SearchCluster(a).apps)
  {
    PagedMeans(a.server);
  }

  ghost predicate Logged(m: Memory, cluster: string, result: Search, at: int) {
    exists i :: 0 <= i < |m.log| && m.log[i].cluster == cluster && SearchCluster(m.log[i].answers) == result && m.log[i].at == at
  }

  /** Every cluster-wide entry is a search that was made, expiring by its own lifetime; no entry for one
      namespace claims to be complete. */
  ghost predicate Honest(m: Memory) {
    forall key :: key in m.entries ==>
      match key
      case WholeCluster(c) => Logged(m, c, m.entries[key].result, m.entries[key].expires - TtlFor(m.entries[key].result))
      case OneNamespace(_, _) => !m.entries[key].result.complete && m.entries[key].result.installed != InstallNo
  }

  lemma LogGrows(m: Memory, more: Memory, cluster: string, result: Search, at: int)
    requires m.log <= more.log && Logged(m, cluster, result, at)
    ensures Logged(more, cluster, result, at)
  {
    var i :| 0 <= i < |m.log| && m.log[i].cluster == cluster && SearchCluster(m.log[i].answers) == result && m.log[i].at == at;
    assert more.log[i] == m.log[i];
  }

  lemma FindWideHonest(m: Memory, q: Query)
    requires Honest(m)
    ensures var (m1, wide) := FindWide(m, q);
      && Honest(m1) && m.log <= m1.log
      && exists at :: Logged(m1, q.cluster, wide, at) && (at == q.stored || q.asked <= at + TtlFor(wide))
  {
    var key := WholeCluster(q.cluster);
    var (m1, wide) := FindWide(m, q);
    if Fresh(m, key, q.asked) {
      assert Logged(m1, q.cluster, wide, m.entries[key].expires - TtlFor(wide));
    } else {
      var e := Evidence(q.cluster, q.wide, q.stored);
      assert m1.log[|m.log|] == e;
      assert Logged(m1, q.cluster, wide, q.stored);
      forall k | k in m1.entries && k != key
        ensures match k
          case WholeCluster(c) => Logged(m1, c, m1.entries[k].result, m1.entries[k].expires - TtlFor(m1.entries[k].result))
          case OneNamespace(_, _) => !m1.entries[k].result.complete && m1.entries[k].result.installed != InstallNo
      {
        if k.WholeCluster? { LogGrows(m, m1, k.cluster, m.entries[k].result, m.entries[k].expires - TtlFor(m.entries[k].result)); }
      }
    }
  }

  /** The i-th stored search is of the query's cluster and no older than its lifetime. */
  predicate Recent(m: Memory, q: Query, i: nat) {
    i < |m.log| && m.log[i].cluster == q.cluster && (m.log[i].at == q.stored || q.asked <= m.log[i].at + DISCOVERY_TTL)
  }

  /** A recent stored search established what a complete answer claims. */
  ghost predicate Backed(m: Memory, q: Query, found: Search) {
    exists i: nat :: Recent(m, q, i) &&
      if found.installed == InstallNo then NotServed(m.log[i].answers) else SawEverything(m.log[i].answers, found.apps)
  }

  lemma WideIsBacked(m: Memory, q: Query)
    requires Honest(m)
    ensures var (m1, wide) := FindWide(m, q);
      wide.complete || wide.installed == InstallNo ==> wide.complete && Backed(m1, q, wide)
  {
    FindWideHonest(m, q);
    var (m1, wide) := FindWide(m, q);
    hide FindWide;
    var at :| Logged(m1, q.cluster, wide, at) && (at == q.stored || q.asked <= at + TtlFor(wide));
    var i :| 0 <= i < |m1.log| && m1.log[i].cluster == q.cluster && SearchCluster(m1.log[i].answers) == wide && m1.log[i].at == at;
    CompleteMeansSeen(m1.log[i].answers);
    if wide.complete { assert Recent(m1, q, i); }
  }

  /** What one namespace holds is remembered as incomplete. */
  lemma NarrowIsHonest(m: Memory, q: Query, wide: Search)
    requires Honest(m) && !wide.complete && wide.installed != InstallNo
    ensures Honest(Store(m, OneNamespace(q.cluster, q.fallback), SearchNamespace(q.narrow, wide), q.storedAgain))
  {
    var after := Store(m, OneNamespace(q.cluster, q.fallback), SearchNamespace(q.narrow, wide), q.storedAgain);
    NamespaceOnlyAdds(q.narrow, wide);
    hide SearchNamespace, TtlFor, SearchCluster;
    forall k | k in after.entries && k.WholeCluster?
      ensures Logged(after, k.cluster, after.entries[k].result, after.entries[k].expires - TtlFor(after.entries[k].result))
    {
      LogGrows(m, after, k.cluster, m.entries[k].result, m.entries[k].expires - TtlFor(m.entries[k].result));
    }
  }

  /** A complete answer, or one that Argo CD is absent, always rests on a cluster-wide search no older than
      its lifetime. */
  lemma CompleteAnswersAreBacked(m: Memory, q: Query)
    requires Honest(m)
    ensures var (m2, found) := Discover(m, q);
      && Honest(m2) && m.log <= m2.log
      && (found.complete || found.installed == InstallNo ==> found.complete && Backed(m2, q, found))
  {
    FindWideHonest(m, q);
    WideIsBacked(m, q);
    var (m1, wide) := FindWide(m, q);
    NamespaceOnlyAdds(q.narrow, wide);
    if !wide.complete && wide.installed != InstallNo { NarrowIsHonest(m1, q, wide); }
    hide FindWide, SearchCluster, SearchNamespace, Backed, Logged;
  }

  // ---- the lifetimes ----

  /** A stored answer is used again for fifteen seconds, and for a minute when the listing was denied; then it is not. */
  lemma HeldForItsLifetime(m: Memory, key: CacheKey, result: Search, at: int, now: int)
    ensures Fresh(Store(m, key, result, at), key, now) <==> now <= at + (if result.uncertainty == Forbidden then 60 else 15)
    ensures Store(m, key, result, at).entries[key].result == result
  {
  }

  /** A question asked again within the lifetime, and answered cluster-wide, asks the cluster nothing and gets the same
      answer. */
  lemma AskedAgainCostsNothing(m: Memory, q: Query, again: Query)
    requires again.cluster == q.cluster && !Fresh(m, WholeCluster(q.cluster), q.asked)
    requires again.asked <= q.stored + 15 && SearchCluster(q.wide).complete
    ensures
      var (m1, found) := Discover(m, q);
      Discover(m1, again) == (m1, found) && found == SearchCluster(q.wide)
  {
    CompleteMeansSeen(q.wide);
    hide SearchCluster;
  }

  /** With nothing remembered: one namespace is looked into exactly when the cluster-wide search fell short, did not find
      Argo CD absent, and the object has a namespace; otherwise the cluster-wide answer is the answer. */
  lemma FallsBackExactly(m: Memory, q: Query)
    requires !Fresh(m, WholeCluster(q.cluster), q.asked) && !Fresh(m, OneNamespace(q.cluster, q.fallback), q.askedAgain)
    ensures
      var wide := SearchCluster(q.wide);
      Discover(m, q).1 ==
        if !wide.complete && wide.installed != InstallNo && q.fallback != "" then SearchNamespace(q.narrow, wide) else wide
  {
    hide SearchCluster, SearchNamespace, TtlFor;
  }

  // ---- whole runs ----

  ghost predicate Run(memories: seq<Memory>, queries: seq<Query>) {
    && |memories| == |queries| + 1 && memories[0] == Memory(map[], [])
    && forall i :: 0 <= i < |queries| ==> memories[i + 1] == Discover(memories[i], queries[i]).0
  }

  lemma {:induction false} RunsAreHonest(memories: seq<Memory>, queries: seq<Query>, i: nat)
    requires Run(memories, queries) && i < |memories|
    ensures Honest(memories[i])
  {
    if i > 0 {
      RunsAreHonest(memories, queries, i - 1);
      CompleteAnswersAreBacked(memories[i - 1], queries[i - 1]);
    }
  }

  // ---- the code ----

  /** The service's cache, asked on every drawer open. */
  class Service {
    var entries: map<CacheKey, CacheEntry>
    ghost var log: seq<Evidence>

    ghost function Remembered(): Memory
      reads this
    {
      Memory(entries, log)
    }

    constructor ()
      ensures Remembered() == Memory(map[], []) && Honest(Remembered())
    {
      entries, log := map[], [];
    }

    method Get(key: CacheKey, now: int) returns (r: Option<Search>)
      ensures r == if Fresh(Remembered(), key, now) then Some(entries[key].result) else None
    {
      if key !in entries || now > entries[key].expires { return None; }
      return Some(entries[key].result);
    }

    method Put(key: CacheKey, result: Search, now: int)
      modifies this`entries
      ensures Remembered() == Store(old(Remembered()), key, result, now)
    {
      entries := entries[key := CacheEntry(result, now + TtlFor(result))];
    }

    method DiscoverApps(q: Query) returns (found: Search)
      requires Honest(Remembered())
      modifies this
      ensures (Remembered(), found) == Discover(old(Remembered()), q)
      ensures Honest(Remembered())
    {
      CompleteAnswersAreBacked(Remembered(), q);
      var hit := Get(WholeCluster(q.cluster), q.asked);
      var wide;
      if hit.Some? {
        wide := hit.value;
      } else {
        wide := SearchCluster(q.wide);
        Put(WholeCluster(q.cluster), wide, q.stored);
        log := log + [Evidence(q.cluster, q.wide, q.stored)];
      }
      if wide.complete || q.fallback == "" || wide.installed == InstallNo { return wide; }
      var near := Get(OneNamespace(q.cluster, q.fallback), q.askedAgain);
      if near.Some? { return near.value; }
      found := SearchNamespace(q.narrow, wide);
      Put(OneNamespace(q.cluster, q.fallback), found, q.storedAgain);
    }
  }
}
