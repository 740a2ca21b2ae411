/** What the walk reports, path by path, and the laws that follow: one row a path, no row inside another,
    symmetry, indifference to the order of keyed lists, the cap, and silence about secret values. */
module WalkLaws {
  import opened Order
  import opened Json
  import opened TreeDiff
  import opened Meaning

  /** The row for the place `rest` below `path`, if there is one. */
  ghost function Reported(rules: Rules, path: Path, s: Json, l: Json, rest: Path): Option<Difference>
    decreases rest
  {
    if rest == [] then
      if Descends(s, l) || s == l then None else Some(Row(rules, path, Changed, Some(s), Some(l)))
    else if !Descends(s, l) || !Visits(rules, path, s, l, rest[0]) then None
    else
      var here := path + [rest[0]];
      match (Sub(s, rest[0]), Sub(l, rest[0]))
      case (Some(x), Some(y)) => Reported(rules, here, x, y, rest[1..])
      case (x, None) => if rest[1..] == [] then Some(Row(rules, here, MissingInLive, x, None)) else None
      case (None, y) => if rest[1..] == [] then Some(Row(rules, here, AddedInLive, None, y)) else None
  }

  lemma WalkMember(rules: Rules, path: Path, s: Json, l: Json, d: Difference)
    requires Descends(s, l)
    ensures d in Walk(rules, path, s, l) <==> exists seg :: Visits(rules, path, s, l, seg) && d in Visit(rules, path, s, l, seg)
  {
    SegsMembers(rules, path, s, l);
    var segs, parts := Segs(rules, path, s, l), Parts(rules, path, s, l);
    FlattenMember(parts, d);
    if d in Walk(rules, path, s, l) {
      var i :| 0 <= i < |parts| && d in parts[i];
      assert segs[i] in segs;
      assert d in Visit(rules, path, s, l, segs[i]);
    }
    if seg :| Visits(rules, path, s, l, seg) && d in Visit(rules, path, s, l, seg) {
      assert seg in segs;
      var i :| 0 <= i < |segs| && segs[i] == seg;
      assert d in parts[i];
    }
  }

  /** The walk's rows are exactly the rows of the path-by-path account. */
  lemma {:induction false} WalkReports(rules: Rules, path: Path, s: Json, l: Json, d: Difference)
    ensures d in Walk(rules, path, s, l) <==>
            path <= d.path && Reported(rules, path, s, l, d.path[|path|..]) == Some(d)
    decreases s
  {
    if Descends(s, l) {
      WalkMember(rules, path, s, l, d);
      forall seg ensures d in Visit(rules, path, s, l, seg) && Visits(rules, path, s, l, seg) <==>
          Visits(rules, path, s, l, seg) && path + [seg] <= d.path && Reported(rules, path, s, l, d.path[|path|..]) == Some(d)
      {
        if Visits(rules, path, s, l, seg) { VisitReports(rules, path, s, l, seg, d); }
      }
      if path <= d.path && Reported(rules, path, s, l, d.path[|path|..]) == Some(d) {
        var seg := d.path[|path|..][0];
        assert Visits(rules, path, s, l, seg) && path + [seg] <= d.path;
      }
    } else if path <= d.path && d.path[|path|..] == [] {
      assert d.path == path;
    }
  }

  lemma VisitReports(rules: Rules, path: Path, s: Json, l: Json, seg: Seg, d: Difference)
    requires Descends(s, l) && Visits(rules, path, s, l, seg)
    ensures d in Visit(rules, path, s, l, seg) <==>
            path + [seg] <= d.path && Reported(rules, path, s, l, d.path[|path|..]) == Some(d)
    decreases s, 0
  {
    var here := path + [seg];
    if Sub(s, seg).Some? && Sub(l, seg).Some? {
      WalkReports(rules, here, Sub(s, seg).value, Sub(l, seg).value, d);
    }
    if here <= d.path {
      assert d.path[|path|..][0] == seg;
      assert d.path[|path|..][1..] == d.path[|here|..];
      if d.path[|here|..] == [] { assert d.path == here; }
    }
  }

  // ---- one row a path, and no row inside another ----

  predicate Apart(a: Difference, b: Difference) {
    !(a.path <= b.path) && !(b.path <= a.path)
  }

  ghost predicate AllApart(ds: seq<Difference>) {
    forall i, j :: 0 <= i < j < |ds| ==> Apart(ds[i], ds[j])
  }

  lemma {:induction false} FlattenApart(parts: seq<seq<Difference>>)
    requires forall i :: 0 <= i < |parts| ==> AllApart(parts[i])
    requires forall i, j, x, y :: 0 <= i < j < |parts| && x in parts[i] && y in parts[j] ==> Apart(x, y)
    ensures AllApart(Flatten(parts))
  {
    if parts != [] {
      var rest := parts[1..];
      forall i, j, x, y | 0 <= i < j < |rest| && x in rest[i] && y in rest[j] ensures Apart(x, y) {
        assert rest[i] == parts[i + 1] && rest[j] == parts[j + 1];
      }
      FlattenApart(rest);
      forall x, y | x in parts[0] && y in Flatten(rest) ensures Apart(x, y) {
        FlattenMember(rest, y);
        var j :| 0 <= j < |rest| && y in rest[j];
        assert rest[j] == parts[j + 1];
      }
    }
  }

  lemma {:induction false} OthersDistinct(names: seq<string>, known: seq<string>)
    requires forall i, j :: 0 <= i < j < |names| ==> names[i] != names[j]
    ensures forall i, j :: 0 <= i < j < |Others(names, known)| ==> Others(names, known)[i] != Others(names, known)[j]
  {
    if names != [] {
      OthersDistinct(names[1..], known);
      OthersMembers(names[1..], known);
      forall j | 0 <= j < |Others(names[1..], known)| ensures Others(names[1..], known)[j] != names[0] {
        assert Others(names[1..], known)[j] in names[1..];
      }
    }
  }

  lemma NamesDistinct(list: seq<Json>, key: string)
    requires Identifies(list, key)
    ensures forall i, j :: 0 <= i < j < |list| ==> NamesOf(list, key)[i] != NamesOf(list, key)[j]
  {
    forall i, j | 0 <= i < j < |list| ensures NamesOf(list, key)[i] != NamesOf(list, key)[j] {
      assert Name(list[i], key).Some? && Name(list[j], key).Some?;
    }
  }

  lemma JoinDistinct(a: seq<string>, b: seq<string>)
    requires forall i, j :: 0 <= i < j < |a| ==> a[i] != a[j]
    requires forall i, j :: 0 <= i < j < |b| ==> b[i] != b[j]
    requires forall x :: x in a ==> x !in b
    ensures forall i, j :: 0 <= i < j < |a + b| ==> (a + b)[i] != (a + b)[j]
  {
    forall i, j | 0 <= i < j < |a + b| ensures (a + b)[i] != (a + b)[j] {
      if i < |a| <= j { assert a[i] in a && b[j - |a|] in b; }
    }
  }

  lemma SegsDistinct(rules: Rules, path: Path, s: Json, l: Json)
    requires Descends(s, l)
    ensures forall i, j :: 0 <= i < j < |Segs(rules, path, s, l)| ==> Segs(rules, path, s, l)[i] != Segs(rules, path, s, l)[j]
  {
    if s.Obj? {
      var mine, theirs := SortedKeys(s.fields.Keys), SortedKeys(l.fields.Keys);
      SortedKeysAscend(s.fields.Keys);
      SortedKeysAscend(l.fields.Keys);
      forall i, j | 0 <= i < j < |mine| ensures mine[i] != mine[j] { AscendingDistinct(mine, i, j); }
      forall i, j | 0 <= i < j < |theirs| ensures theirs[i] != theirs[j] { AscendingDistinct(theirs, i, j); }
      OthersDistinct(theirs, mine);
      OthersMembers(theirs, mine);
      JoinDistinct(mine, Others(theirs, mine));
    } else {
      match PairKey(rules, path, s.elems, l.elems)
      case Some(key) =>
        var mine, theirs := NamesOf(s.elems, key), NamesOf(l.elems, key);
        NamesDistinct(s.elems, key);
        NamesDistinct(l.elems, key);
        OthersDistinct(theirs, mine);
        OthersMembers(theirs, mine);
        JoinDistinct(mine, Others(theirs, mine));
      case None =>
    }
  }

  /** Every reported path is reported once, and no reported path lies inside another. */
  lemma {:induction false} RowsApart(rules: Rules, path: Path, s: Json, l: Json)
    ensures AllApart(Walk(rules, path, s, l))
    decreases s
  {
    if Descends(s, l) {
      SegsDistinct(rules, path, s, l);
      SegsMembers(rules, path, s, l);
      var segs, parts := Segs(rules, path, s, l), Parts(rules, path, s, l);
      forall i | 0 <= i < |segs|
        ensures AllApart(parts[i])
        ensures forall x: Difference :: x in parts[i] ==> path + [segs[i]] <= x.path
      {
        assert segs[i] in segs;
        assert parts[i] == Visit(rules, path, s, l, segs[i]);
        assert Visits(rules, path, s, l, segs[i]);
        if Sub(s, segs[i]).Some? && Sub(l, segs[i]).Some? {
          RowsApart(rules, path + [segs[i]], Sub(s, segs[i]).value, Sub(l, segs[i]).value);
        }
        forall x: Difference | x in parts[i] ensures path + [segs[i]] <= x.path {
          VisitReports(rules, path, s, l, segs[i], x);
        }
      }
      forall i, j, x, y | 0 <= i < j < |parts| && x in parts[i] && y in parts[j] ensures Apart(x, y) {
        assert x.path[|path|] == segs[i] && y.path[|path|] == segs[j];
      }
      FlattenApart(parts);
    }
  }

  // ---- swapping the sides ----

  function Flip(kind: Kind): Kind {
    match kind
    case Changed => Changed
    case MissingInLive => AddedInLive
    case AddedInLive => MissingInLive
  }

  function FlipRow(d: Difference): Difference {
    Difference(d.path, Flip(d.kind), d.redacted, d.live, d.source)
  }

  lemma {:induction false} FirstKeySymmetric(keys: seq<string>, s: seq<Json>, l: seq<Json>)
    ensures FirstKey(keys, s, l) == FirstKey(keys, l, s)
  {
    if keys != [] { FirstKeySymmetric(keys[1..], s, l); }
  }

  lemma {:induction false} SwapReported(rules: Rules, path: Path, s: Json, l: Json, rest: Path)
    ensures Reported(rules, path, s, l, rest).Some? == Reported(rules, path, l, s, rest).Some?
    ensures Reported(rules, path, s, l, rest).Some? ==>
              Reported(rules, path, l, s, rest) == Some(FlipRow(Reported(rules, path, s, l, rest).value))
    decreases rest
  {
    if rest != [] && Descends(s, l) {
      if s.List? { FirstKeySymmetric(rules.keysAt(path), s.elems, l.elems); }
      assert Visits(rules, path, s, l, rest[0]) == Visits(rules, path, l, s, rest[0]);
      if Sub(s, rest[0]).Some? && Sub(l, rest[0]).Some? {
        SwapReported(rules, path + [rest[0]], Sub(s, rest[0]).value, Sub(l, rest[0]).value, rest[1..]);
      }
    }
  }

  /** Swapping manifest and live object reports the same paths, with added and missing exchanged. */
  lemma SwappedSides(rules: Rules, s: Json, l: Json, d: Difference)
    ensures d in Walk(rules, [], s, l) <==> FlipRow(d) in Walk(rules, [], l, s)
  {
    var rest := d.path[0..];
    assert rest == d.path;
    WalkReports(rules, [], s, l, d);
    WalkReports(rules, [], l, s, FlipRow(d));
    SwapReported(rules, [], s, l, rest);
    if Reported(rules, [], s, l, rest).Some? {
      FlipInjective(Reported(rules, [], s, l, rest).value, d);
    }
  }

  lemma FlipInjective(a: Difference, b: Difference)
    ensures FlipRow(a) == FlipRow(b) <==> a == b
  {
    assert Flip(Flip(a.kind)) == a.kind && Flip(Flip(b.kind)) == b.kind;
  }

  // ---- the order of keyed lists ----

  /** (s2, l2) is (s, l) with the elements of lists that were paired by key put in other orders, at any
      depth: every visited segment is on the same sides, and the values there are again so related. */
  ghost predicate Reordered(rules: Rules, path: Path, s: Json, l: Json, s2: Json, l2: Json)
    decreases s
  {
    if !Descends(s, l) then s2 == s && l2 == l
    else
      && Descends(s2, l2) && s.Obj? == s2.Obj?
      && (s.List? ==> PairKey(rules, path, s2.elems, l2.elems) == PairKey(rules, path, s.elems, l.elems))
      && forall seg :: Visits(rules, path, s, l, seg) || Visits(rules, path, s2, l2, seg) ==>
           && (Sub(s, seg).Some? <==> Sub(s2, seg).Some?)
           && (Sub(l, seg).Some? <==> Sub(l2, seg).Some?)
           && (Sub(s, seg).Some? && Sub(l, seg).Some? ==>
                 Reordered(rules, path + [seg], Sub(s, seg).value, Sub(l, seg).value, Sub(s2, seg).value, Sub(l2, seg).value))
  }

  predicate SameRow(a: Option<Difference>, b: Option<Difference>) {
    a.Some? == b.Some? && (a.Some? ==> a.value.path == b.value.path && a.value.kind == b.value.kind)
  }

  lemma {:induction false} ReorderedReported(rules: Rules, path: Path, s: Json, l: Json, s2: Json, l2: Json, rest: Path)
    requires Reordered(rules, path, s, l, s2, l2)
    ensures SameRow(Reported(rules, path, s, l, rest), Reported(rules, path, s2, l2, rest))
    decreases rest
  {
    if rest != [] && Descends(s, l) {
      var seg := rest[0];
      assert Visits(rules, path, s, l, seg) == Visits(rules, path, s2, l2, seg);
      if Visits(rules, path, s, l, seg) && Sub(s, seg).Some? && Sub(l, seg).Some? {
        ReorderedReported(rules, path + [seg], Sub(s, seg).value, Sub(l, seg).value, Sub(s2, seg).value, Sub(l2, seg).value, rest[1..]);
      }
    }
  }

  ghost predicate Reports(rules: Rules, s: Json, l: Json, path: Path, kind: Kind) {
    exists d :: d in Walk(rules, [], s, l) && d.path == path && d.kind == kind
  }

  /** Reordering key-identified lists on either side leaves the reported paths and kinds as they were. */
  lemma ReorderingIsInvisible(rules: Rules, s: Json, l: Json, s2: Json, l2: Json, path: Path, kind: Kind)
    requires Reordered(rules, [], s, l, s2, l2)
    ensures Reports(rules, s, l, path, kind) <==> Reports(rules, s2, l2, path, kind)
  {
    ReorderedReported(rules, [], s, l, s2, l2, path);
    ReportsWhat(rules, s, l, path, kind);
    ReportsWhat(rules, s2, l2, path, kind);
  }

  lemma {:induction false} ReportedPath(rules: Rules, path: Path, s: Json, l: Json, rest: Path)
    ensures Reported(rules, path, s, l, rest).Some? ==> Reported(rules, path, s, l, rest).value.path == path + rest
    decreases rest
  {
    if rest != [] {
      assert path + [rest[0]] + rest[1..] == path + rest;
      if Descends(s, l) && Sub(s, rest[0]).Some? && Sub(l, rest[0]).Some? {
        ReportedPath(rules, path + [rest[0]], Sub(s, rest[0]).value, Sub(l, rest[0]).value, rest[1..]);
      }
    }
  }

  lemma ReportsWhat(rules: Rules, s: Json, l: Json, path: Path, kind: Kind)
    ensures Reports(rules, s, l, path, kind) <==>
            Reported(rules, [], s, l, path).Some? && Reported(rules, [], s, l, path).value.kind == kind
  {
    var r := Reported(rules, [], s, l, path);
    if d :| d in Walk(rules, [], s, l) && d.path == path && d.kind == kind {
      WalkReports(rules, [], s, l, d);
      assert d.path[0..] == path;
    }
    if r.Some? && r.value.kind == kind {
      ReportedPath(rules, [], s, l, path);
      assert [] + path == path && path[0..] == path;
      WalkReports(rules, [], s, l, r.value);
    }
  }

  lemma {:induction false} OccursTwice<T>(s: seq<T>, e: T) returns (i: nat, j: nat)
    requires multiset(s)[e] >= 2
    ensures i < j < |s| && s[i] == e && s[j] == e
  {
    assert s == [s[0]] + s[1..];
    if s[0] == e {
      assert e in multiset(s[1..]);
      i := 0;
      j :| 1 <= j < |s| && s[j] == e;
    } else {
      i, j := OccursTwice(s[1..], e);
      i, j := i + 1, j + 1;
    }
  }

  lemma ApartByName(a: seq<Json>, key: string, i: nat, j: nat)
    requires Identifies(a, key) && i < j < |a|
    ensures a[i] != a[j]
  {
    assert Name(a[i], key) != Name(a[j], key);
  }

  lemma ShuffleIdentifies(a: seq<Json>, b: seq<Json>, key: string)
    requires multiset(a) == multiset(b) && Identifies(a, key)
    ensures Identifies(b, key)
  {
    assert |a| == |multiset(a)| == |multiset(b)| == |b|;
    forall e | e in b ensures e in a { assert e in multiset(b); }
    forall i, j | 0 <= i < j < |b| ensures Name(b[i], key) != Name(b[j], key) {
      assert b[i] in b && b[j] in b;
      if b[i] == b[j] {
        TwiceCounts(b, i, j);
        var p, q := OccursTwice(a, b[i]);
        ApartByName(a, key, p, q);
      } else {
        var p :| 0 <= p < |a| && a[p] == b[i];
        var q :| 0 <= q < |a| && a[q] == b[j];
        if p < q { assert Name(a[p], key) != Name(a[q], key); } else { assert Name(a[q], key) != Name(a[p], key); }
      }
    }
    forall i | 0 <= i < |b| ensures Name(b[i], key).Some? { assert b[i] in b; }
  }

  lemma {:induction false} ShuffleFirstKey(keys: seq<string>, a: seq<Json>, a2: seq<Json>, b: seq<Json>, b2: seq<Json>)
    requires multiset(a) == multiset(a2) && multiset(b) == multiset(b2)
    ensures FirstKey(keys, a2, b2) == FirstKey(keys, a, b)
  {
    if keys != [] {
      if Identifies(a, keys[0]) { ShuffleIdentifies(a, a2, keys[0]); }
      if Identifies(a2, keys[0]) { ShuffleIdentifies(a2, a, keys[0]); }
      if Identifies(b, keys[0]) { ShuffleIdentifies(b, b2, keys[0]); }
      if Identifies(b2, keys[0]) { ShuffleIdentifies(b2, b, keys[0]); }
      ShuffleFirstKey(keys[1..], a, a2, b, b2);
    }
  }

  lemma HasNameKept(a: seq<Json>, b: seq<Json>, key: string, n: string)
    requires multiset(a) == multiset(b) && HasName(a, key, n)
    ensures HasName(b, key, n)
  {
    var i :| 0 <= i < |a| && Name(a[i], key) == Some(n);
    assert a[i] in multiset(b);
    var j :| 0 <= j < |b| && b[j] == a[i];
  }

  lemma ShuffleFind(a: seq<Json>, b: seq<Json>, key: string, n: string)
    requires multiset(a) == multiset(b) && Identifies(a, key) && Identifies(b, key)
    ensures Find(a, key, n) == Find(b, key, n)
  {
    if HasName(a, key, n) {
      HasNameKept(a, b, key, n);
      var i :| 0 <= i < |a| && Name(a[i], key) == Some(n);
      assert a[i] in multiset(b);
      var j :| 0 <= j < |b| && b[j] == a[i];
      FindSelf(a, key, i);
      FindSelf(b, key, j);
    }
    if HasName(b, key, n) { HasNameKept(b, a, key, n); }
  }

  // ---- the cap and the final sort ----

  lemma PathLeqTotal()
    ensures TotalPreorder(PathLeq)
  {
    forall a: Difference, b: Difference ensures PathLeq(a, b) || PathLeq(b, a) {
      LessTrichotomy(Render(a.path), Render(b.path));
    }
    forall a: Difference, b: Difference, c: Difference | PathLeq(a, b) && PathLeq(b, c) ensures PathLeq(a, c) {
      var x, y, z := Render(a.path), Render(b.path), Render(c.path);
      LessTrichotomy(x, y);
      LessTrichotomy(y, z);
      LessTrichotomy(x, z);
      if Less(z, x) && Less(x, y) { LessTransitive(z, x, y); }
    }
  }

  /** The panel's list is the first 200 rows of the walk, put in path order; it is empty only if the walk is. */
  lemma {:induction false} CompareIsCappedWalk(source: Fields, live: Fields, secret: bool)
    ensures var all := Walk(KubeRules(secret), [], Obj(source), Obj(live));
      && Capped(all) <= all && |Capped(all)| <= DIFFERENCE_LIMIT
      && (|all| > DIFFERENCE_LIMIT ==> |Capped(all)| == DIFFERENCE_LIMIT)
      && multiset(Compare(source, live, secret)) == multiset(Capped(all))
      && SortedBy(Compare(source, live, secret), PathLeq)
      && (Compare(source, live, secret) == [] <==> all == [])
  {
    var all := Walk(KubeRules(secret), [], Obj(source), Obj(live));
    PathLeqTotal();
    StableSortSorts(Capped(all), PathLeq);
    StableSortKeeps(Capped(all), PathLeq);
    assert |multiset(Compare(source, live, secret))| == |multiset(Capped(all))|;
  }

  /** An empty list of differences means the two objects say the same, and conversely. */
  lemma {:induction false} CompareFindsNothing(source: Fields, live: Fields, secret: bool)
    ensures Compare(source, live, secret) == [] <==> Says(KubeRules(secret), [], Obj(source)) == Says(KubeRules(secret), [], Obj(live))
  {
    CompareIsCappedWalk(source, live, secret);
    WalkFindsNothing(KubeRules(secret), [], Obj(source), Obj(live));
  }

  // ---- below the cap ----

  /** A comparison that did not reach its limit lists the rows of the whole walk. */
  lemma UncappedCompare(source: Fields, live: Fields, secret: bool)
    ensures
      var all := Walk(KubeRules(secret), [], Obj(source), Obj(live));
      |all| <= DIFFERENCE_LIMIT ==> forall d :: d in Compare(source, live, secret) <==> d in all
  {
    CompareIsCappedWalk(source, live, secret);
    var all, rows := Walk(KubeRules(secret), [], Obj(source), Obj(live)), Compare(source, live, secret);
    hide Walk, Compare;
    if |all| <= DIFFERENCE_LIMIT {
      forall d ensures d in rows <==> d in all {
        assert d in rows <==> d in multiset(rows);
        assert d in all <==> d in multiset(all);
      }
    }
  }

  function PathsOf(ds: seq<Difference>): set<Path> {
    if ds == [] then {} else {ds[0].path} + PathsOf(ds[1..])
  }

  predicate HasPath(ds: seq<Difference>, path: Path) {
    exists d :: d in ds && d.path == path
  }

  lemma {:induction false} PathsMember(ds: seq<Difference>, path: Path)
    ensures path in PathsOf(ds) <==> HasPath(ds, path)
  {
    if ds != [] {
      assert ds == [ds[0]] + ds[1..];
      PathsMember(ds[1..], path);
      assert HasPath(ds, path) <==> ds[0].path == path || HasPath(ds[1..], path);
    }
  }

  /** There are as many rows as paths. */
  lemma {:induction false} CountPaths(ds: seq<Difference>)
    requires AllApart(ds)
    ensures |PathsOf(ds)| == |ds|
  {
    if ds != [] {
      var rest := ds[1..];
      CountPaths(rest);
      PathsMember(rest, ds[0].path);
      forall d | d in rest ensures d.path != ds[0].path {
        var i :| 0 <= i < |rest| && rest[i] == d;
        assert Apart(ds[0], ds[i + 1]);
      }
    }
  }

  lemma SamePathsSameCount(a: seq<Difference>, b: seq<Difference>)
    requires AllApart(a) && AllApart(b) && forall path :: HasPath(a, path) <==> HasPath(b, path)
    ensures |a| == |b|
  {
    forall path ensures path in PathsOf(a) <==> path in PathsOf(b) {
      PathsMember(a, path);
      PathsMember(b, path);
    }
    assert PathsOf(a) == PathsOf(b);
    CountPaths(a);
    CountPaths(b);
  }

  /** Comparing the other way round lists as many differences, and the same ones turned round, as long as it
      lists them all. */
  lemma SwappedComparison(source: Fields, live: Fields, secret: bool)
    ensures
      var there, back := Walk(KubeRules(secret), [], Obj(source), Obj(live)), Walk(KubeRules(secret), [], Obj(live), Obj(source));
      && |there| == |back|
      && (|there| <= DIFFERENCE_LIMIT ==>
            forall d :: d in Compare(source, live, secret) <==> FlipRow(d) in Compare(live, source, secret))
  {
    var rules := KubeRules(secret);
    var there, back := Walk(rules, [], Obj(source), Obj(live)), Walk(rules, [], Obj(live), Obj(source));
    hide *;
    forall d ensures d in there <==> FlipRow(d) in back { SwappedSides(rules, Obj(source), Obj(live), d); }
    RowsApart(rules, [], Obj(source), Obj(live));
    RowsApart(rules, [], Obj(live), Obj(source));
    FlippedPaths(there, back);
    SamePathsSameCount(there, back);
    UncappedCompare(source, live, secret);
    UncappedCompare(live, source, secret);
  }

  lemma FlippedPaths(there: seq<Difference>, back: seq<Difference>)
    requires forall d :: d in there <==> FlipRow(d) in back
    ensures forall path :: HasPath(there, path) <==> HasPath(back, path)
  {
    forall path ensures HasPath(there, path) <==> HasPath(back, path) {
      if HasPath(there, path) {
        var d :| d in there && d.path == path;
        assert FlipRow(d) in back && FlipRow(d).path == path;
      }
      if HasPath(back, path) {
        var d :| d in back && d.path == path;
        FlipTwice(d);
        assert FlipRow(d) in there && FlipRow(d).path == path;
      }
    }
  }

  lemma FlipTwice(d: Difference)
    ensures FlipRow(FlipRow(d)) == d
  {
  }

  // ---- secret values ----

  predicate Secretive(key: string) { key == "data" || key == "stringData" }

  /** The source and a secret map disagree at a key, or one of them lacks it. */
  predicate Disagrees(source: Option<Json>, live: Option<Json>, key: string) {
    source.Some? && source.value.Obj? && live.Some? && live.value.Obj? && key in source.value.fields && key in live.value.fields &&
    source.value.fields[key] != live.value.fields[key]
  }

  ghost predicate StringMap(v: Json) {
    v.Obj? && forall k :: k in v.fields ==> v.fields[k].Str?
  }

  /** Two live Secrets that agree outside data and stringData, hold string values under the same keys
      inside, and disagree with the source at the same keys. */
  ghost predicate LookAlike(source: Fields, live1: Fields, live2: Fields) {
    && live1.Keys == live2.Keys
    && (forall k :: k in live1 && !Secretive(k) ==> live1[k] == live2[k])
    && (forall k :: k in live1 && Secretive(k) ==>
          StringMap(live1[k]) && StringMap(live2[k]) && live1[k].fields.Keys == live2[k].fields.Keys)
    && (forall k, inner :: Secretive(k) ==>
          Disagrees(Get(source, k), Get(live1, k), inner) == Disagrees(Get(source, k), Get(live2, k), inner))
  }

  lemma SecretRows(key: string)
    requires Secretive(key)
    ensures SecretPath(Render([Key(key)]))
    ensures forall inner :: SecretPath(Render([Key(key), Key(inner)]))
  {
    assert [Key(key)][..0] == [];
    forall inner ensures SecretPath(Render([Key(key), Key(inner)])) {
      var path := [Key(key), Key(inner)];
      assert path[..|path| - 1] == [Key(key)];
      assert Render([Key(key)]) == key;
      assert Render(path) == key + "." + inner;
    }
  }

  lemma SameParts(rules: Rules, path: Path, s: Json, a: Json, b: Json)
    requires s.Obj? && a.Obj? && b.Obj? && a.fields.Keys == b.fields.Keys
    requires forall k :: Visit(rules, path, s, a, Key(k)) == Visit(rules, path, s, b, Key(k))
    ensures Walk(rules, path, s, a) == Walk(rules, path, s, b)
  {
    assert Segs(rules, path, s, a) == Segs(rules, path, s, b);
    assert Parts(rules, path, s, a) == Parts(rules, path, s, b);
  }

  lemma SecretField(source: Json, key: string, a: Json, b: Json, inner: string)
    requires Secretive(key) && source.Obj? && StringMap(a) && StringMap(b) && a.fields.Keys == b.fields.Keys
    requires Disagrees(Some(source), Some(a), inner) == Disagrees(Some(source), Some(b), inner)
    ensures Visit(KubeRules(true), [Key(key)], source, a, Key(inner)) == Visit(KubeRules(true), [Key(key)], source, b, Key(inner))
  {
    SecretRows(key);
    assert [Key(key)] + [Key(inner)] == [Key(key), Key(inner)];
    assert SecretPath(Render([Key(key), Key(inner)]));
    hide SecretPath, Render, Secretive;
  }

  lemma {:induction false} SecretMap(source: Json, key: string, a: Json, b: Json)
    requires Secretive(key) && StringMap(a) && StringMap(b) && a.fields.Keys == b.fields.Keys
    requires forall inner :: Disagrees(Some(source), Some(a), inner) == Disagrees(Some(source), Some(b), inner)
    ensures Walk(KubeRules(true), [Key(key)], source, a) == Walk(KubeRules(true), [Key(key)], source, b)
  {
    SecretRows(key);
    if source.Obj? {
      forall inner ensures Visit(KubeRules(true), [Key(key)], source, a, Key(inner)) == Visit(KubeRules(true), [Key(key)], source, b, Key(inner)) {
        assert Disagrees(Some(source), Some(a), inner) == Disagrees(Some(source), Some(b), inner);
        SecretField(source, key, a, b, inner);
      }
      hide Secretive, StringMap, Disagrees, Visit;
      SameParts(KubeRules(true), [Key(key)], source, a, b);
    }
  }

  lemma SecretVisit(source: Fields, live1: Fields, live2: Fields, k: string)
    requires LookAlike(source, live1, live2)
    ensures Visit(KubeRules(true), [], Obj(source), Obj(live1), Key(k)) == Visit(KubeRules(true), [], Obj(source), Obj(live2), Key(k))
  {
    assert Sub(Obj(source), Key(k)) == Get(source, k);
    assert Sub(Obj(live1), Key(k)) == Get(live1, k);
    assert Sub(Obj(live2), Key(k)) == Get(live2, k);
    assert [] + [Key(k)] == [Key(k)];
    if Secretive(k) && k in live1 {
      SecretRows(k);
      if k in source {
        forall inner ensures Disagrees(Some(source[k]), Some(live1[k]), inner) == Disagrees(Some(source[k]), Some(live2[k]), inner) {
          assert Disagrees(Get(source, k), Get(live1, k), inner) == Disagrees(Get(source, k), Get(live2, k), inner);
        }
        SecretMap(source[k], k, live1[k], live2[k]);
      }
    }
  }

  /** Secret values do not influence the list: live Secrets that look alike give identical rows. */
  lemma SecretsDoNotShow(source: Fields, live1: Fields, live2: Fields)
    requires LookAlike(source, live1, live2)
    ensures Compare(source, live1, true) == Compare(source, live2, true)
  {
    forall k ensures Visit(KubeRules(true), [], Obj(source), Obj(live1), Key(k)) == Visit(KubeRules(true), [], Obj(source), Obj(live2), Key(k)) {
      SecretVisit(source, live1, live2, k);
    }
    SameParts(KubeRules(true), [], Obj(source), Obj(live1), Obj(live2));
  }
}
