/** The verdict on a comparison (internal/gitops/classify.go, service.go): rows a controller accounts for are counted
    apart, and Equal is given when no other row is left. What Equal then says about the two objects. */
module EqualVerdict {
  import opened Order
  import opened Json
  import opened TreeDiff
  import opened Meaning
  import opened WalkLaws
  import opened Pruning
  import opened Normalise
  import opened NothingHidden
  import opened EqualIsSound
  import opened PathText

  // ---- classification ----

  const REVISION := "metadata.annotations." + "deployment.kubernetes.io/revision"
  const RESTARTED_AT := "spec.template.metadata.annotations." + "kubectl.kubernetes.io/restartedAt"
  const LABEL_PREFIX := "metadata.labels."
  const TRACKING_LABELS := {"app.kubernetes.io/instance", "argocd.argoproj.io/instance"}

  predicate ManagedText(text: string) {
    text == REVISION || text == RESTARTED_AT || (LABEL_PREFIX <= text && text[|LABEL_PREFIX|..] in TRACKING_LABELS)
  }

  /** Only a value the live object alone has can have been written by a controller. */
  predicate SystemManaged(d: Difference) {
    d.kind == AddedInLive && ManagedText(Render(d.path))
  }

  ghost predicate AllManaged(rows: seq<Difference>) {
    forall d :: d in rows ==> SystemManaged(d)
  }

  predicate Meaningful(d: Difference) {
    !SystemManaged(d)
  }

  /** The meaningful rows are moved to the front, and both kinds are counted; Equal is given when none is meaningful. */
  method Judge(rows: seq<Difference>) returns (equal: bool, ordered: seq<Difference>, meaningful: nat, managed: nat)
    ensures ordered == Select(rows, Meaningful) + Select(rows, SystemManaged)
    ensures meaningful == |Select(rows, Meaningful)| && managed == |Select(rows, SystemManaged)|
    ensures equal <==> AllManaged(rows)
  {
    hide SystemManaged;
    ordered, meaningful, managed := [], 0, 0;
    for i := 0 to |rows|
      invariant ordered == Select(rows[..i], Meaningful) && meaningful == |ordered|
      invariant meaningful == 0 <==> AllManaged(rows[..i])
    {
      SelectStep(rows, Meaningful, i);
      assert rows[..i + 1] == rows[..i] + [rows[i]];
      if !SystemManaged(rows[i]) {
        ordered, meaningful := ordered + [rows[i]], meaningful + 1;
      }
    }
    assert rows[..|rows|] == rows;
    ghost var front := ordered;
    for i := 0 to |rows|
      invariant ordered == front + Select(rows[..i], SystemManaged) && managed == |Select(rows[..i], SystemManaged)|
    {
      SelectStep(rows, SystemManaged, i);
      if SystemManaged(rows[i]) {
        ordered, managed := ordered + [rows[i]], managed + 1;
      }
    }
    equal := meaningful == 0;
  }

  /** A label the live object alone has is accounted for if and only if it is one of the two tracking labels. */
  lemma LabelRowsExactly(k: string)
    ensures ManagedText(Render([Key("metadata"), Key("labels"), Key(k)])) <==> k == "app.kubernetes.io/instance" || k == "argocd.argoproj.io/instance"
  {
    assert [Key("metadata"), Key("labels"), Key(k)] == [Key("metadata"), Key("labels")] + [Key(k)];
    assert [Key("metadata"), Key("labels")] == [Key("metadata")] + [Key("labels")] && [Key("metadata")] == [] + [Key("metadata")];
    RenderKey([Key("metadata"), Key("labels")], k);
    RenderKey([Key("metadata")], "labels");
    RenderKey([], "metadata");
    var text := LABEL_PREFIX + k;
    assert Render([Key("metadata"), Key("labels"), Key(k)]) == text;
    assert text[9] == 'l';
    assert REVISION[9] == 'a';
    assert text[0] == 'm' && RESTARTED_AT[0] == 's';
    assert text[|LABEL_PREFIX|..] == k;
  }

  /** Of the annotations only the live object has, exactly the revision its controller writes; of those of its pod
      template, exactly the time of a restart. */
  lemma AnnotationRowsExactly(k: string)
    ensures ManagedText(Render([Key("metadata"), Key("annotations"), Key(k)])) <==> k == "deployment.kubernetes.io/revision"
    ensures ManagedText(Render([Key("spec"), Key("template"), Key("metadata"), Key("annotations"), Key(k)])) <==>
      k == "kubectl.kubernetes.io/restartedAt"
  {
    AnnotationText(k);
    TemplateText(k);
    hide Render;
    var (a, b) := ("metadata.annotations." + k, "spec.template.metadata.annotations." + k);
    assert a[9] == 'a' && a[0] == 'm' && b[0] == 's' && LABEL_PREFIX[0] == 'm' && LABEL_PREFIX[9] == 'l';
    assert REVISION[0] == 'm' && RESTARTED_AT[0] == 's';
    SameAfter("metadata.annotations.", k, "deployment.kubernetes.io/revision");
    SameAfter("spec.template.metadata.annotations.", k, "kubectl.kubernetes.io/restartedAt");
  }

  lemma SameAfter(front: string, x: string, y: string)
    ensures front + x == front + y <==> x == y
  {
    assert (front + x)[|front|..] == x && (front + y)[|front|..] == y;
  }

  lemma AnnotationText(k: string)
    ensures Render([Key("metadata"), Key("annotations"), Key(k)]) == "metadata.annotations." + k
  {
    hide Render;
    assert [Key("metadata"), Key("annotations")] + [Key(k)] == [Key("metadata"), Key("annotations"), Key(k)];
    assert [Key("metadata")] + [Key("annotations")] == [Key("metadata"), Key("annotations")] && [] + [Key("metadata")] == [Key("metadata")];
    RenderRoot();
    RenderKey([], "metadata");
    RenderKey([Key("metadata")], "annotations");
    RenderKey([Key("metadata"), Key("annotations")], k);
    assert "metadata" + "." + "annotations" == "metadata.annotations" && "metadata.annotations" + "." == "metadata.annotations.";
    assert "metadata.annotations" + "." + k == "metadata.annotations." + k;
  }

  lemma TemplateText(k: string)
    ensures Render([Key("spec"), Key("template"), Key("metadata"), Key("annotations"), Key(k)]) == "spec.template.metadata.annotations." + k
  {
    TemplateMetadata();
    var front := [Key("spec"), Key("template"), Key("metadata")];
    assert front + [Key("annotations")] == [Key("spec"), Key("template"), Key("metadata"), Key("annotations")];
    assert front + [Key("annotations")] + [Key(k)] == [Key("spec"), Key("template"), Key("metadata"), Key("annotations"), Key(k)];
    hide Render;
    RenderKey(front, "annotations");
    RenderKey(front + [Key("annotations")], k);
    assert "spec.template.metadata" + "." + "annotations" == "spec.template.metadata.annotations";
    assert "spec.template.metadata.annotations" + "." == "spec.template.metadata.annotations.";
    assert "spec.template.metadata.annotations" + "." + k == "spec.template.metadata.annotations." + k;
  }

  lemma TemplateMetadata()
    ensures Render([Key("spec"), Key("template"), Key("metadata")]) == "spec.template.metadata"
  {
    hide Render;
    assert [] + [Key("spec")] == [Key("spec")] && [Key("spec")] + [Key("template")] == [Key("spec"), Key("template")];
    assert [Key("spec"), Key("template")] + [Key("metadata")] == [Key("spec"), Key("template"), Key("metadata")];
    RenderKey([], "spec");
    RenderKey([Key("spec")], "template");
    RenderKey([Key("spec"), Key("template")], "metadata");
    RenderRoot();
    assert "spec" + "." + "template" == "spec.template" && "spec.template" + "." + "metadata" == "spec.template.metadata";
  }

  lemma RenderRoot()
    ensures Render([]) == ""
  {
  }

  /** The table is asked for texts, so a value that only reads like a tracking label is accounted for as well. */
  lemma LookAlikesAreManaged(k: string, inner: string, v: Json)
    requires k != ""
    ensures SystemManaged(Difference([Key("metadata"), Key("labels"), Key(k), Key(inner)], AddedInLive, false, None, Some(v)))
            <==> k + "." + inner in TRACKING_LABELS
  {
    var labels := [Key("metadata"), Key("labels")];
    assert labels + [Key(k), Key(inner)] == [Key("metadata"), Key("labels"), Key(k), Key(inner)];
    assert labels + [Key(k + "." + inner)] == [Key("metadata"), Key("labels"), Key(k + "." + inner)];
    DottedKeyReadsAsTwo(labels, k, inner);
    LabelRowsExactly(k + "." + inner);
    hide ManagedText, Render;
  }

  // ---- where the walk gets to ----

  /** The segment a step of one tree is, when it is walked together with the other. */
  function SegBeside(rules: Rules, path: Path, j: Json, other: Json, step: Step): Seg
    requires Descends(j, other) && Child(j, step).Some?
  {
    match step
    case Field(k) => Key(k)
    case At(i) =>
      match PairKey(rules, path, j.elems, other.elems)
      case Some(key) => Elem(key, NameOf(j.elems[i], key))
      case None => Index(i)
  }

  /** The path along which the walk approaches a place of one tree, as far as the other tree goes along. */
  function Route(rules: Rules, path: Path, j: Json, other: Json, place: seq<Step>): Path
    decreases place
  {
    if place == [] || !Descends(j, other) || Child(j, place[0]).None? then []
    else
      var seg := SegBeside(rules, path, j, other, place[0]);
      match Sub(other, seg)
      case Some(x) => [seg] + Route(rules, path + [seg], Child(j, place[0]).value, x, place[1..])
      case None => [seg]
  }

  lemma StepLeads(rules: Rules, path: Path, j: Json, other: Json, step: Step)
    requires Descends(j, other) && Child(j, step).Some?
    ensures
      var seg := SegBeside(rules, path, j, other, step);
      Sub(j, seg) == Child(j, step) && Visits(rules, path, j, other, seg) && Visits(rules, path, other, j, seg)
  {
    if j.List? {
      FirstKeySymmetric(rules.keysAt(path), j.elems, other.elems);
      match PairKey(rules, path, j.elems, other.elems)
      case Some(key) => FindSelf(j.elems, key, step.index);
      case None =>
    }
  }

  lemma StepBack(rules: Rules, path: Path, j: Json, other: Json, seg: Seg) returns (step: Step)
    requires Descends(j, other) && Visits(rules, path, j, other, seg) && Sub(j, seg).Some?
    ensures Child(j, step) == Sub(j, seg) && SegBeside(rules, path, j, other, step) == seg
  {
    if j.Obj? {
      step := Field(seg.key);
    } else {
      match PairKey(rules, path, j.elems, other.elems)
      case Some(key) =>
        var i :| 0 <= i < |j.elems| && Name(j.elems[i], key) == Some(seg.name);
        FindSelf(j.elems, key, i);
        step := At(i);
      case None => step := At(seg.i);
    }
  }

  // ---- when every row is only in the live object ----

  ghost predicate OnlyAdded(rules: Rules, path: Path, s: Json, l: Json) {
    forall rest :: Reported(rules, path, s, l, rest).Some? ==> Reported(rules, path, s, l, rest).value.kind == AddedInLive
  }

  lemma OnlyAddedInside(rules: Rules, path: Path, s: Json, l: Json, seg: Seg)
    requires OnlyAdded(rules, path, s, l) && Descends(s, l) && Visits(rules, path, s, l, seg) && Sub(l, seg).Some? && Sub(s, seg).Some?
    ensures OnlyAdded(rules, path + [seg], Sub(s, seg).value, Sub(l, seg).value)
    ensures forall rest :: Reported(rules, path, s, l, [seg] + rest) == Reported(rules, path + [seg], Sub(s, seg).value, Sub(l, seg).value, rest)
  {
    forall rest ensures Reported(rules, path, s, l, [seg] + rest) == Reported(rules, path + [seg], Sub(s, seg).value, Sub(l, seg).value, rest) {
      assert ([seg] + rest)[1..] == rest;
    }
    forall rest | Reported(rules, path + [seg], Sub(s, seg).value, Sub(l, seg).value, rest).Some?
      ensures Reported(rules, path + [seg], Sub(s, seg).value, Sub(l, seg).value, rest).value.kind == AddedInLive
    {
      assert Reported(rules, path, s, l, [seg] + rest).Some?;
    }
  }

  /** Nothing is missing from the live object. */
  lemma NothingMissing(rules: Rules, path: Path, s: Json, l: Json, seg: Seg)
    requires OnlyAdded(rules, path, s, l) && Descends(s, l) && Visits(rules, path, s, l, seg) && Sub(s, seg).Some?
    ensures Sub(l, seg).Some?
  {
    MissingIsReported(rules, path, s, l, seg);
  }

  lemma MissingIsReported(rules: Rules, path: Path, s: Json, l: Json, seg: Seg)
    requires Descends(s, l) && Visits(rules, path, s, l, seg) && Sub(s, seg).Some?
    ensures Sub(l, seg).None? ==> Reported(rules, path, s, l, [seg]) == Some(Row(rules, path + [seg], MissingInLive, Sub(s, seg), None))
    ensures Row(rules, path + [seg], MissingInLive, Sub(s, seg), None).kind == MissingInLive
  {
  }

  lemma ChangedIsReported(rules: Rules, path: Path, s: Json, l: Json)
    ensures s != l && !Descends(s, l) ==> Reported(rules, path, s, l, []) == Some(Row(rules, path, Changed, Some(s), Some(l)))
    ensures Row(rules, path, Changed, Some(s), Some(l)).kind == Changed
  {
  }

  lemma SameSort(rules: Rules, path: Path, s: Json, l: Json)
    requires OnlyAdded(rules, path, s, l)
    ensures s == l || Descends(s, l)
  {
    ChangedIsReported(rules, path, s, l);
  }

  /** An empty object or list of the live tree is empty in the source. */
  lemma EmptyToo(rules: Rules, path: Path, s: Json, l: Json)
    requires OnlyAdded(rules, path, s, l) && Leaf(l) && Descends(s, l)
    ensures s == l
  {
    if s.Obj? {
      forall k ensures k !in s.fields {
        if k in s.fields {
          assert Sub(s, Key(k)).Some? && Visits(rules, path, s, l, Key(k));
          NothingMissing(rules, path, s, l, Key(k));
        }
      }
      assert s.fields == map[];
    } else {
      assert l.elems == [];
      if s.elems != [] {
        assert Sub(s, Index(0)).Some? && Visits(rules, path, s, l, Index(0));
        NothingMissing(rules, path, s, l, Index(0));
      }
    }
  }

  /** A tree holds a value at a place the walk gets to along the given path. */
  ghost predicate HeldAlong(rules: Rules, path: Path, j: Json, other: Json, q: seq<Step>, v: Json, route: Path) {
    HasLeaf(j, q, v) && Route(rules, path, j, other, q) == route
  }

  /** A value of the live tree is in a row, or the source holds it. */
  lemma {:induction false} LiveHeld(rules: Rules, path: Path, s: Json, l: Json, place: seq<Step>, v: Json) returns (q: seq<Step>)
    requires OnlyAdded(rules, path, s, l) && HasLeaf(l, place, v)
    ensures
      var route := Route(rules, path, l, s, place);
      Reported(rules, path, s, l, route).Some? || HeldAlong(rules, path, s, l, q, v, route)
    decreases place
  {
    q := [];
    SameSort(rules, path, s, l);
    if place == [] {
      if Descends(s, l) { EmptyToo(rules, path, s, l); }
    } else {
      var seg, x := SegBeside(rules, path, l, s, place[0]), Child(l, place[0]).value;
      StepLeads(rules, path, l, s, place[0]);
      if Sub(s, seg).Some? {
        var y := Sub(s, seg).value;
        OnlyAddedInside(rules, path, s, l, seg);
        var rest := LiveHeld(rules, path + [seg], y, x, place[1..], v);
        var step := StepBack(rules, path, s, l, seg);
        q := [step] + rest;
        assert q[1..] == rest;
      }
    }
  }

  /** The live tree holds a value along the path, or, for an empty object or list, one with something added to it. */
  ghost predicate HeldOrGrown(rules: Rules, path: Path, l: Json, s: Json, q: seq<Step>, v: Json, route: Path) {
    && Lookup(l, q).Some? && Route(rules, path, l, s, q) == route
    && (Lookup(l, q) == Some(v) || Descends(v, Lookup(l, q).value))
  }

  lemma {:induction false} SourceHeld(rules: Rules, path: Path, s: Json, l: Json, place: seq<Step>, v: Json) returns (q: seq<Step>)
    requires OnlyAdded(rules, path, s, l) && HasLeaf(s, place, v)
    ensures HeldOrGrown(rules, path, l, s, q, v, Route(rules, path, s, l, place))
    decreases place
  {
    q := [];
    SameSort(rules, path, s, l);
    if place != [] {
      var seg, y := SegBeside(rules, path, s, l, place[0]), Child(s, place[0]).value;
      StepLeads(rules, path, s, l, place[0]);
      NothingMissing(rules, path, s, l, seg);
      var x := Sub(l, seg).value;
      OnlyAddedInside(rules, path, s, l, seg);
      var rest := SourceHeld(rules, path + [seg], y, x, place[1..], v);
      StepLeads(rules, path, s, l, place[0]);
      var step := StepBack(rules, path, l, s, seg);
      q := [step] + rest;
      assert q[1..] == rest;
    }
  }

  // ---- the verdict ----

  /** Below the cap, the rows are all there are. */
  lemma RowsAreAll(source: Fields, live: Fields, secret: bool)
    requires |CompareAgainst(source, live, secret)| < DIFFERENCE_LIMIT
    ensures
      var l := NormalLive(Obj(live), Obj(source));
      var s := NormalSource(l, Obj(source));
      forall rest :: Reported(KubeRules(secret), [], s, l, rest).Some? ==>
          && Reported(KubeRules(secret), [], s, l, rest).value in CompareAgainst(source, live, secret)
          && Reported(KubeRules(secret), [], s, l, rest).value.path == rest
  {
    BothAreObjects(source, live);
    var rules, l := KubeRules(secret), NormalLive(Obj(live), Obj(source));
    var s := NormalSource(l, Obj(source));
    assert CompareAgainst(source, live, secret) == Compare(s.fields, l.fields, secret);
    CompareIsCappedWalk(s.fields, l.fields, secret);
    UncappedCompare(s.fields, l.fields, secret);
    CappedCount(s.fields, l.fields, secret);
    hide NormalLive, NormalSource, Compare, Walk;
    forall rest | Reported(rules, [], s, l, rest).Some?
      ensures Reported(rules, [], s, l, rest).value in Compare(s.fields, l.fields, secret) && Reported(rules, [], s, l, rest).value.path == rest
    {
      var d := Reported(rules, [], s, l, rest).value;
      ReportedAt(rules, [], s, l, rest);
      assert d.path[0..] == rest;
      WalkReports(rules, [], s, l, d);
    }
  }

  lemma CappedCount(source: Fields, live: Fields, secret: bool)
    requires |Compare(source, live, secret)| < DIFFERENCE_LIMIT
    ensures |Walk(KubeRules(secret), [], Obj(source), Obj(live))| <= DIFFERENCE_LIMIT
  {
    var all := Walk(KubeRules(secret), [], Obj(source), Obj(live));
    CompareIsCappedWalk(source, live, secret);
    var rows := Compare(source, live, secret);
    hide *;
    assert |rows| == |multiset(rows)| && |Capped(all)| == |multiset(Capped(all))|;
  }

  lemma {:induction false} ReportedAt(rules: Rules, path: Path, s: Json, l: Json, rest: Path)
    requires Reported(rules, path, s, l, rest).Some?
    ensures Reported(rules, path, s, l, rest).value.path == path + rest
    decreases rest
  {
    if rest != [] {
      var here := path + [rest[0]];
      assert here + rest[1..] == path + rest;
      if Sub(s, rest[0]).Some? && Sub(l, rest[0]).Some? {
        ReportedAt(rules, here, Sub(s, rest[0]).value, Sub(l, rest[0]).value, rest[1..]);
      } else {
        assert rest == [rest[0]] && here == path + rest;
      }
    }
  }

  /** The source holds a value of the live object, where the walk compares the two. */
  ghost predicate MatchedInSource(rules: Rules, l: Json, s: Json, source: Json, place: seq<Step>, v: Json, q: seq<Step>) {
    && HeldAlong(rules, [], s, l, q, v, Route(rules, [], l, s, place))
    && if v == EMPTY then HollowSource(l, source, q) else HasLeaf(source, q, v)
  }

  /** When every row is accounted for, every value of the live object is excused, or in one of those rows, or held by
      the source where it is compared. */
  lemma {:induction false} VerdictExplainsLive(source: Fields, live: Fields, secret: bool, place: seq<Step>, v: Json)
    requires |CompareAgainst(source, live, secret)| < DIFFERENCE_LIMIT && AllManaged(CompareAgainst(source, live, secret))
    requires HasLeaf(Obj(live), place, v)
    ensures
      var rules, l := KubeRules(secret), NormalLive(Obj(live), Obj(source));
      var s := NormalSource(l, Obj(source));
      || Excused(Obj(live), Obj(source), place, v)
      || (exists d :: d in CompareAgainst(source, live, secret) && d.path == Route(rules, [], l, s, place))
      || exists q :: MatchedInSource(rules, l, s, Obj(source), place, v, q)
  {
    var rules, l := KubeRules(secret), NormalLive(Obj(live), Obj(source));
    var s := NormalSource(l, Obj(source));
    RowsAreAll(source, live, secret);
    NothingElseVanishes(Obj(live), Obj(source), place, v);
    AddedOnly(rules, s, l, CompareAgainst(source, live, secret));
    hide *;
    if HasLeaf(l, place, v) {
      var q := LiveHeld(rules, [], s, l, place, v);
      if HeldAlong(rules, [], s, l, q, v, Route(rules, [], l, s, place)) {
        Along(rules, s, l, q, v, Route(rules, [], l, s, place));
        SourceNothingNew(l, Obj(source), q, v);
        Matched(rules, l, s, Obj(source), place, v, q);
      }
    }
  }

  lemma Along(rules: Rules, j: Json, other: Json, q: seq<Step>, v: Json, route: Path)
    requires HeldAlong(rules, [], j, other, q, v, route)
    ensures HasLeaf(j, q, v)
  {
  }

  lemma Matched(rules: Rules, l: Json, s: Json, source: Json, place: seq<Step>, v: Json, q: seq<Step>)
    requires HeldAlong(rules, [], s, l, q, v, Route(rules, [], l, s, place))
    requires if v == EMPTY then HollowSource(l, source, q) else HasLeaf(source, q, v)
    ensures MatchedInSource(rules, l, s, source, place, v, q)
  {
  }

  lemma AddedOnly(rules: Rules, s: Json, l: Json, rows: seq<Difference>)
    requires AllManaged(rows)
    requires forall rest :: Reported(rules, [], s, l, rest).Some? ==> Reported(rules, [], s, l, rest).value in rows
    ensures OnlyAdded(rules, [], s, l)
  {
    hide ManagedText;
  }

  /** The live object holds a value of the source, where the walk compares the two. An empty object or list may have
      grown: what it holds beyond bookkeeping and defaults is in the rows. */
  ghost predicate MatchedInLive(rules: Rules, l: Json, s: Json, live: Json, source: Json, place: seq<Step>, v: Json, q: seq<Step>) {
    && HeldOrGrown(rules, [], l, s, q, v, Route(rules, [], s, l, place))
    && (v != EMPTY && v != List([]) ==> HasLeaf(live, q, v))
  }

  /** When every row is accounted for, every value of the source is excused, or held by the live object where it is
      compared. */
  lemma {:induction false} VerdictExplainsSource(source: Fields, live: Fields, secret: bool, place: seq<Step>, v: Json)
    requires |CompareAgainst(source, live, secret)| < DIFFERENCE_LIMIT && AllManaged(CompareAgainst(source, live, secret))
    requires HasLeaf(Obj(source), place, v)
    ensures
      var rules, l := KubeRules(secret), NormalLive(Obj(live), Obj(source));
      var s := NormalSource(l, Obj(source));
      SourceExcused(l, Obj(source), place, v) || exists q :: MatchedInLive(rules, l, s, Obj(live), Obj(source), place, v, q)
  {
    var rules, l := KubeRules(secret), NormalLive(Obj(live), Obj(source));
    var s := NormalSource(l, Obj(source));
    RowsAreAll(source, live, secret);
    SourceKept(l, Obj(source), place, v);
    AddedOnly(rules, s, l, CompareAgainst(source, live, secret));
    hide *;
    if HasLeaf(s, place, v) {
      var q := SourceHeld(rules, [], s, l, place, v);
      GrownInLive(rules, l, s, Obj(live), Obj(source), place, v, q);
    }
  }

  lemma GrownInLive(rules: Rules, l: Json, s: Json, live: Json, source: Json, place: seq<Step>, v: Json, q: seq<Step>)
    requires l == NormalLive(live, source) && HasLeaf(s, place, v)
    requires HeldOrGrown(rules, [], l, s, q, v, Route(rules, [], s, l, place))
    ensures MatchedInLive(rules, l, s, live, source, place, v, q)
  {
    hide NormalLive, HollowLive, Route;
    if v != EMPTY && v != List([]) {
      assert HasLeaf(l, q, v);
      LiveNothingNew(live, source, q, v);
    }
  }
}
