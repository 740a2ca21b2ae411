/** What is excused does go: with NothingHidden, a value is missing from what is compared if and only if it is
    excused, on the live side and on the source's. */
module ExactlyExcused {
  import opened Order
  import opened Json
  import opened Pruning
  import opened Normalise
  import opened NothingHidden

  // ---- what is gone stays gone ----

  predicate Gone(j: Json, place: seq<Step>) {
    Lookup(j, place).None?
  }

  lemma {:induction false} GoneFromPart(part: Json, whole: Json, place: seq<Step>)
    requires PartOf(part, whole) && Gone(whole, place)
    ensures Gone(part, place)
    decreases whole
  {
    if place != [] && Child(part, place[0]).Some? {
      GoneFromPart(Child(part, place[0]).value, Child(whole, place[0]).value, place[1..]);
    }
  }

  /** A value of the whole is in the part, or nothing is there. */
  lemma {:induction false} KeptOrGone(part: Json, whole: Json, place: seq<Step>, v: Json)
    requires PartOf(part, whole) && HasLeaf(whole, place, v)
    ensures HasLeaf(part, place, v) || Gone(part, place)
    decreases whole
  {
    if place == [] {
      LeafPart(part, whole);
    } else if Child(part, place[0]).Some? {
      KeptOrGone(Child(part, place[0]).value, Child(whole, place[0]).value, place[1..], v);
    }
  }

  lemma LeafPart(part: Json, whole: Json)
    requires PartOf(part, whole) && Leaf(whole)
    ensures part == whole
  {
    if whole.Obj? { assert part.fields == map[]; }
    if whole.List? { assert part.elems == []; }
  }

  lemma {:induction false} RemoveGoes(j: Json, path: seq<string>, place: seq<Step>)
    requires path != [] && Steps(path) <= place
    ensures Gone(Remove(j, path), place)
  {
    StepsPrefix(path, place);
    if j.Obj? && path[0] in j.fields && |path| > 1 { RemoveGoes(j.fields[path[0]], path[1..], place[1..]); }
  }

  lemma {:induction false} RemoveAllGoes(j: Json, paths: seq<seq<string>>, place: seq<Step>)
    requires BelowAny(paths, place) && forall i :: 0 <= i < |paths| ==> paths[i] != []
    ensures Gone(RemoveAll(j, paths), place)
    decreases paths
  {
    var next := Remove(j, paths[0]);
    if Steps(paths[0]) <= place {
      RemoveGoes(j, paths[0], place);
      RemoveAllIsPart(next, paths[1..]);
      GoneFromPart(RemoveAll(next, paths[1..]), next, place);
    } else {
      var i :| 0 <= i < |paths| && Steps(paths[i]) <= place;
      assert paths[1..][i - 1] == paths[i];
      RemoveAllGoes(next, paths[1..], place);
    }
  }

  lemma {:induction false} NoStampThere(j: Json, place: seq<Step>)
    requires NoNullStamp(j) && StampAt(place, Null)
    ensures Lookup(j, place) != Some(Null)
  {
    if |place| > 1 && Child(j, place[0]).Some? {
      assert place[1..][|place| - 2] == place[|place| - 1];
      NoStampThere(Child(j, place[0]).value, place[1..]);
    }
  }

  // ---- bookkeeping, timestamps and empty maps ----

  lemma DropGoes(j: Json, orig: Json, place: seq<Step>, v: Json)
    requires PartOf(j, orig) && HasLeaf(orig, place, v) && StampAt(place, v)
    ensures Gone(Drop(j), place)
  {
    DropIsPart(j);
    PartOfTransitive(Drop(j), j, orig);
    KeptOrGone(Drop(j), orig, place, v);
    DropLeavesNoStamp(j);
    NoStampThere(Drop(j), place);
  }

  lemma DropEmptyGoes(j: Json, orig: Json, source: Json, path: seq<string>)
    requires PartOf(j, orig) && HasLeaf(orig, Steps(path), EMPTY) && path != [] && !Sets(source, path)
    ensures Gone(DropEmpty(j, source, path), Steps(path))
  {
    KeptOrGone(j, orig, Steps(path), EMPTY);
    NestedLookup(j, path);
    RemoveGoes(j, path, Steps(path));
  }

  lemma DropEmptyIsPart(live: Json, source: Json, path: seq<string>)
    requires path != []
    ensures PartOf(DropEmpty(live, source, path), live)
  {
    PartOfSelf(live);
    RemoveIsPart(live, path);
  }

  /** The steps of the strip, each a part of the one before. */
  lemma StripChain(live: Json, source: Json)
    ensures
      var l1 := RemoveAll(live, BOOKKEEPING + TOOL_ANNOTATIONS);
      var l2 := if Sets(source, NAMESPACE) then l1 else Remove(l1, NAMESPACE);
      var l4 := DropEmpty(Drop(l2), source, ANNOTATIONS);
      && PartOf(l1, live) && PartOf(l2, live) && PartOf(Drop(l2), live) && PartOf(l4, live)
      && PartOf(Stripped(live, source), l1) && PartOf(Stripped(live, source), l2)
      && PartOf(Stripped(live, source), Drop(l2)) && PartOf(Stripped(live, source), l4)
  {
    var l1 := RemoveAll(live, BOOKKEEPING + TOOL_ANNOTATIONS);
    var l2 := if Sets(source, NAMESPACE) then l1 else Remove(l1, NAMESPACE);
    var l3, l4, l5 := Drop(l2), DropEmpty(Drop(l2), source, ANNOTATIONS), Stripped(live, source);
    RemoveAllIsPart(live, BOOKKEEPING + TOOL_ANNOTATIONS);
    PartOfSelf(l1);
    RemoveIsPart(l1, NAMESPACE);
    DropIsPart(l2);
    DropEmptyIsPart(l3, source, ANNOTATIONS);
    DropEmptyIsPart(l4, source, LABELS);
    hide *;
    PartOfTransitive(l2, l1, live);
    PartOfTransitive(l3, l2, live);
    PartOfTransitive(l4, l3, live);
    PartOfTransitive(l5, l4, l3);
    PartOfTransitive(l5, l3, l2);
    PartOfTransitive(l5, l2, l1);
  }

  lemma BookkeepingIsNamed()
    ensures var paths := BOOKKEEPING + TOOL_ANNOTATIONS; forall i :: 0 <= i < |paths| ==> paths[i] != []
  {
  }

  lemma BookkeepingGoes(live: Json, source: Json, place: seq<Step>)
    requires BelowAny(BOOKKEEPING + TOOL_ANNOTATIONS, place)
    ensures Gone(Stripped(live, source), place)
  {
    StripChain(live, source);
    BookkeepingIsNamed();
    hide *;
    RemoveAllGoes(live, BOOKKEEPING + TOOL_ANNOTATIONS, place);
    GoneFromPart(Stripped(live, source), RemoveAll(live, BOOKKEEPING + TOOL_ANNOTATIONS), place);
  }

  lemma NamespaceGoes(live: Json, source: Json, place: seq<Step>)
    requires !Sets(source, NAMESPACE) && Steps(NAMESPACE) <= place
    ensures Gone(Stripped(live, source), place)
  {
    var l1 := RemoveAll(live, BOOKKEEPING + TOOL_ANNOTATIONS);
    assert NAMESPACE != [];
    StripChain(live, source);
    hide *;
    RemoveGoes(l1, NAMESPACE, place);
    GoneFromPart(Stripped(live, source), Remove(l1, NAMESPACE), place);
  }

  lemma StampGoes(live: Json, source: Json, place: seq<Step>, v: Json)
    requires HasLeaf(live, place, v) && StampAt(place, v)
    ensures Gone(Stripped(live, source), place)
  {
    var l1 := RemoveAll(live, BOOKKEEPING + TOOL_ANNOTATIONS);
    var l2 := if Sets(source, NAMESPACE) then l1 else Remove(l1, NAMESPACE);
    StripChain(live, source);
    hide *;
    DropGoes(l2, live, place, v);
    GoneFromPart(Stripped(live, source), Drop(l2), place);
  }

  lemma EmptyMapGoes(live: Json, source: Json, path: seq<string>)
    requires path == ANNOTATIONS || path == LABELS
    requires HasLeaf(live, Steps(path), EMPTY) && !Sets(source, path)
    ensures Gone(Stripped(live, source), Steps(path))
  {
    var l1 := RemoveAll(live, BOOKKEEPING + TOOL_ANNOTATIONS);
    var l2 := if Sets(source, NAMESPACE) then l1 else Remove(l1, NAMESPACE);
    var l3, l5 := Drop(l2), Stripped(live, source);
    var l4 := DropEmpty(l3, source, ANNOTATIONS);
    StripChain(live, source);
    assert l5 == DropEmpty(l4, source, LABELS);
    hide *;
    if path == ANNOTATIONS {
      DropEmptyGoes(l3, live, source, ANNOTATIONS);
      GoneFromPart(l5, l4, Steps(path));
    } else {
      DropEmptyGoes(l4, live, source, LABELS);
    }
  }

  lemma StrippedGoes(live: Json, source: Json, place: seq<Step>, v: Json)
    requires HasLeaf(live, place, v) && StripExcused(source, place, v)
    ensures Gone(Stripped(live, source), place)
  {
    hide Stripped, BelowAny, StampAt, HasLeaf, Gone, Sets;
    if BelowAny(BOOKKEEPING + TOOL_ANNOTATIONS, place) {
      BookkeepingGoes(live, source, place);
    } else if !Sets(source, NAMESPACE) && Steps(NAMESPACE) <= place {
      NamespaceGoes(live, source, place);
    } else if StampAt(place, v) {
      StampGoes(live, source, place, v);
    } else if place == Steps(ANNOTATIONS) && !Sets(source, ANNOTATIONS) {
      EmptyMapGoes(live, source, ANNOTATIONS);
    } else {
      EmptyMapGoes(live, source, LABELS);
    }
  }

  // ---- defaults ----

  lemma OnlyItself(value: Json, rest: seq<Step>, v: Json)
    requires Leaf(value) && HasLeaf(value, rest, v)
    ensures rest == [] && v == value
  {
  }

  lemma DefaultFieldGoes(live: Json, source: Json, path: seq<string>, value: Json, place: seq<Step>, v: Json)
    requires path != [] && Leaf(value) && HasLeaf(live, place, v) && IsDefault(source, path, value, place, v)
    ensures Gone(DefaultField(live, source, path, value), place)
  {
    OnlyItself(value, place[|path|..], v);
    assert place == Steps(path);
    NestedLookup(live, path);
    RemoveGoes(live, path, place);
    PruneIsPart(Remove(live, path), source, path, |path| - 1);
    GoneFromPart(DefaultField(live, source, path, value), Remove(live, path), place);
  }

  ghost predicate LeafRules(rules: seq<Rule>) {
    RealRules(rules) && forall i :: 0 <= i < |rules| ==> Leaf(rules[i].value)
  }

  lemma TablesHoldLeaves()
    ensures LeafRules(DEPLOYMENT_DEFAULTS) && LeafRules(POD_SPEC_DEFAULTS) && LeafRules(CONTAINER_DEFAULTS)
    ensures LeafRules(PORT_DEFAULTS) && LeafRules(HOST_PATH_DEFAULTS)
  {
  }

  lemma DefaultFieldIsPart(live: Json, source: Json, path: seq<string>, value: Json)
    requires path != []
    ensures PartOf(DefaultField(live, source, path, value), live)
  {
    PartOfSelf(live);
    RemoveIsPart(live, path);
    PruneIsPart(Remove(live, path), source, path, |path| - 1);
    if DefaultField(live, source, path, value) != live {
      PartOfTransitive(DefaultField(live, source, path, value), Remove(live, path), live);
    }
  }

  /** For any table of defaults with nothing inside them: a value a rule says the field has does go. */
  lemma {:induction false} DefaultFieldsGo(live: Json, source: Json, prefix: seq<string>, rules: seq<Rule>, place: seq<Step>, v: Json)
    requires LeafRules(rules) && HasLeaf(live, place, v) && FieldExcused(source, prefix, rules, place, v)
    ensures Gone(DefaultFields(live, source, prefix, rules), place)
    decreases rules
  {
    var path, value, rest := prefix + rules[0].path, rules[0].value, rules[1..];
    var next := DefaultField(live, source, path, value);
    var done := DefaultFields(next, source, prefix, rest);
    DefaultFieldIsPart(live, source, path, value);
    DefaultFieldsArePart(next, source, prefix, rest);
    hide DefaultField, PartOf;
    if IsDefault(source, path, value, place, v) {
      DefaultFieldGoes(live, source, path, value, place, v);
      GoneFromPart(done, next, place);
    } else {
      var i :| 0 <= i < |rules| && IsDefault(source, prefix + rules[i].path, rules[i].value, place, v);
      assert rest[i - 1] == rules[i];
      KeptOrGone(next, live, place, v);
      if Gone(next, place) { GoneFromPart(done, next, place); } else { DefaultFieldsGo(next, source, prefix, rest, place, v); }
    }
  }

  lemma PullPolicyGoes(live: Json, source: Json, v: Json)
    requires HasLeaf(live, [Field("imagePullPolicy")], v) && !Sets(source, ["imagePullPolicy"]) && v == Str(ExpectedPolicy(ImageOf(live)))
    ensures Gone(DefaultPullPolicy(live, source), [Field("imagePullPolicy")])
  {
    var path := ["imagePullPolicy"];
    assert Steps(path) == [Field("imagePullPolicy")];
    NestedLookup(live, path);
    RemoveGoes(live, path, Steps(path));
  }

  lemma PullPolicyIsPart(live: Json, source: Json)
    ensures PartOf(DefaultPullPolicy(live, source), live)
  {
    PartOfSelf(live);
    RemoveIsPart(live, ["imagePullPolicy"]);
  }

  // ---- keyed lists ----

  lemma {:induction false} ReplaceInside(j: Json, path: seq<string>, w: Json, place: seq<Step>)
    requires Nested(j, path).Some? && Steps(path) <= place
    ensures Lookup(Replace(j, path, w), place) == Lookup(w, place[|path|..])
  {
    if path != [] {
      StepsPrefix(path, place);
      assert place[|path|..] == place[1..][|path[1..]|..];
      ReplaceInside(j.fields[path[0]], path[1..], w, place[1..]);
    }
  }

  lemma DefaultListGoes(item: Item, live: Json, source: Json, path: seq<string>, place: seq<Step>, v: Json)
    requires HasLeaf(live, place, v) && ListExcused(item, live, source, path, place, v)
    ensures Gone(DefaultList(item, live, source, path), place)
    decreases Nesting(item), 2
  {
    var list, rest := Nested(live, path).value.elems, place[|path|..];
    var after := DefaultElements(item, list, ElementsAt(source, path));
    assert DefaultList(item, live, source, path) == Replace(live, path, List(after));
    assert place == Steps(path) + rest && rest[1..] == place[|path| + 1..];
    NestedLookup(live, path);
    LookupSplit(live, Steps(path), rest);
    DefaultElementGoes(item, list, ElementsAt(source, path), rest, v);
    hide DefaultElements, DefaultList, Replace, Steps;
    ReplaceInside(live, path, List(after), place);
  }

  lemma DefaultElementGoes(item: Item, list: seq<Json>, counterparts: seq<Json>, rest: seq<Step>, v: Json)
    requires rest != [] && rest[0].At? && rest[0].index < |list| && list[rest[0].index].Obj? && HasLeaf(List(list), rest, v)
    requires ItemExcused(item, list[rest[0].index],
                         Counterpart(counterparts, KeyOf(item), NestedOrNull(list[rest[0].index], [KeyOf(item)])), rest[1..], v)
    ensures Gone(List(DefaultElements(item, list, counterparts)), rest)
    decreases Nesting(item), 1
  {
    var x := list[rest[0].index];
    hide ItemExcused, DefaultItem, Counterpart, NestedOrNull;
    DefaultItemGoes(item, x, Counterpart(counterparts, KeyOf(item), NestedOrNull(x, [KeyOf(item)])), rest[1..], v);
  }

  lemma ContainerChain(live: Json, source: Json)
    ensures
      var l1 := DefaultFields(live, source, [], CONTAINER_DEFAULTS);
      var l2 := DefaultPullPolicy(l1, source);
      PartOf(l1, live) && PartOf(l2, live) && PartOf(DefaultItem(Container, live, source), l1) && PartOf(DefaultItem(Container, live, source), l2)
  {
    TablesAreReal();
    var l1 := DefaultFields(live, source, [], CONTAINER_DEFAULTS);
    var l2 := DefaultPullPolicy(l1, source);
    var l3 := DefaultList(Port, l2, source, ["ports"]);
    assert l3 == DefaultItem(Container, live, source);
    DefaultFieldsArePart(live, source, [], CONTAINER_DEFAULTS);
    PullPolicyIsPart(l1, source);
    DefaultListIsPart(Port, l2, source, ["ports"]);
    hide *;
    PartOfTransitive(l2, l1, live);
    PartOfTransitive(l3, l2, l1);
  }

  lemma DefaultItemGoes(item: Item, live: Json, source: Json, place: seq<Step>, v: Json)
    requires HasLeaf(live, place, v) && ItemExcused(item, live, source, place, v)
    ensures Gone(DefaultItem(item, live, source), place)
    decreases Nesting(item), 0
  {
    TablesHoldLeaves();
    match item
    case Port => DefaultFieldsGo(live, source, [], PORT_DEFAULTS, place, v);
    case Volume => DefaultFieldsGo(live, source, ["hostPath"], HOST_PATH_DEFAULTS, place, v);
    case Container =>
      var l1 := DefaultFields(live, source, [], CONTAINER_DEFAULTS);
      var l2 := DefaultPullPolicy(l1, source);
      var l3 := DefaultItem(Container, live, source);
      assert l3 == DefaultList(Port, l2, source, ["ports"]);
      ContainerElsewhere(live, source);
      ContainerChain(live, source);
      KeptOrGone(l1, live, place, v);
      KeptOrGone(l2, live, place, v);
      hide DefaultFields, DefaultPullPolicy, DefaultList, DefaultItem, PartOf;
      if FieldExcused(source, [], CONTAINER_DEFAULTS, place, v) {
        DefaultFieldsGo(live, source, [], CONTAINER_DEFAULTS, place, v);
        GoneFromPart(l3, l1, place);
      } else if Gone(l1, place) {
        GoneFromPart(l3, l1, place);
      } else if place == [Field("imagePullPolicy")] && !Sets(source, ["imagePullPolicy"]) && v == Str(ExpectedPolicy(ImageOf(live))) {
        PullPolicyGoes(l1, source, v);
        GoneFromPart(l3, l2, place);
      } else if Gone(l2, place) {
        GoneFromPart(l3, l2, place);
      } else {
        ListExcusedSame(Port, live, l2, source, ["ports"], place, v);
        DefaultListGoes(Port, l2, source, ["ports"], place, v);
      }
  }

  // ---- the defaults of a Deployment ----

  /** The lists of the pod spec, one after another. */
  lemma PodListsGo(live: Json, l2: Json, source: Json, place: seq<Step>, v: Json)
    requires l2 == DefaultFields(DefaultFields(live, source, [], DEPLOYMENT_DEFAULTS), source, POD_SPEC, POD_SPEC_DEFAULTS)
    requires HasLeaf(l2, place, v)
    requires
      || ListExcused(Container, live, source, POD_SPEC + ["containers"], place, v)
      || ListExcused(Container, live, source, POD_SPEC + ["initContainers"], place, v)
      || ListExcused(Volume, live, source, POD_SPEC + ["volumes"], place, v)
    ensures
      var l3 := DefaultList(Container, l2, source, POD_SPEC + ["containers"]);
      var l4 := DefaultList(Container, l3, source, POD_SPEC + ["initContainers"]);
      Gone(DefaultList(Volume, l4, source, POD_SPEC + ["volumes"]), place)
  {
    hide DefaultFields, DefaultList;
    var l3 := DefaultList(Container, l2, source, POD_SPEC + ["containers"]);
    var l4 := DefaultList(Container, l3, source, POD_SPEC + ["initContainers"]);
    var l5 := DefaultList(Volume, l4, source, POD_SPEC + ["volumes"]);
    ListsSame(live, l2, source, place, v);
    DefaultListIsPart(Container, l2, source, POD_SPEC + ["containers"]);
    DefaultListIsPart(Container, l3, source, POD_SPEC + ["initContainers"]);
    DefaultListIsPart(Volume, l4, source, POD_SPEC + ["volumes"]);
    hide ListExcused, PartOf;
    KeptOrGone(l3, l2, place, v);
    if HasLeaf(l3, place, v) { KeptOrGone(l4, l3, place, v); }
    if ListExcused(Container, l2, source, POD_SPEC + ["containers"], place, v) {
      DefaultListGoes(Container, l2, source, POD_SPEC + ["containers"], place, v);
    } else if HasLeaf(l3, place, v) && ListExcused(Container, l3, source, POD_SPEC + ["initContainers"], place, v) {
      DefaultListGoes(Container, l3, source, POD_SPEC + ["initContainers"], place, v);
    } else if HasLeaf(l3, place, v) && HasLeaf(l4, place, v) {
      DefaultListGoes(Volume, l4, source, POD_SPEC + ["volumes"], place, v);
    }
    if Gone(l3, place) { GoneFromPart(l4, l3, place); }
    if Gone(l4, place) { GoneFromPart(l5, l4, place); }
  }

  /** Neither the rules nor the lists before it touch a list of the pod spec. */
  lemma ListsSame(live: Json, l2: Json, source: Json, place: seq<Step>, v: Json)
    requires l2 == DefaultFields(DefaultFields(live, source, [], DEPLOYMENT_DEFAULTS), source, POD_SPEC, POD_SPEC_DEFAULTS)
    ensures
      var l3 := DefaultList(Container, l2, source, POD_SPEC + ["containers"]);
      var l4 := DefaultList(Container, l3, source, POD_SPEC + ["initContainers"]);
      && ListExcused(Container, l2, source, POD_SPEC + ["containers"], place, v) == ListExcused(Container, live, source, POD_SPEC + ["containers"], place, v)
      && ListExcused(Container, l3, source, POD_SPEC + ["initContainers"], place, v) == ListExcused(Container, live, source, POD_SPEC + ["initContainers"], place, v)
      && ListExcused(Volume, l4, source, POD_SPEC + ["volumes"], place, v) == ListExcused(Volume, live, source, POD_SPEC + ["volumes"], place, v)
  {
    hide DefaultFields, DefaultList, ListExcused;
    var l3 := DefaultList(Container, l2, source, POD_SPEC + ["containers"]);
    var l4 := DefaultList(Container, l3, source, POD_SPEC + ["initContainers"]);
    TablesElsewhere(live, source, "containers");
    TablesElsewhere(live, source, "initContainers");
    TablesElsewhere(live, source, "volumes");
    ListElsewhere(Container, l2, source, "containers", "initContainers");
    ListElsewhere(Container, l2, source, "containers", "volumes");
    ListElsewhere(Container, l3, source, "initContainers", "volumes");
    ListExcusedSame(Container, l2, live, source, POD_SPEC + ["containers"], place, v);
    ListExcusedSame(Container, l3, live, source, POD_SPEC + ["initContainers"], place, v);
    ListExcusedSame(Volume, l4, live, source, POD_SPEC + ["volumes"], place, v);
  }

  lemma ApplyChain(live: Json, source: Json)
    requires KindOf(live) == "Deployment"
    ensures
      var l1 := DefaultFields(live, source, [], DEPLOYMENT_DEFAULTS);
      var l2 := DefaultFields(l1, source, POD_SPEC, POD_SPEC_DEFAULTS);
      PartOf(l1, live) && PartOf(l2, l1) && PartOf(ApplyDefaults(live, source), l2)
  {
    hide DefaultFields, DefaultList;
    TablesAreReal();
    var l1 := DefaultFields(live, source, [], DEPLOYMENT_DEFAULTS);
    var l2 := DefaultFields(l1, source, POD_SPEC, POD_SPEC_DEFAULTS);
    var l3 := DefaultList(Container, l2, source, POD_SPEC + ["containers"]);
    var l4 := DefaultList(Container, l3, source, POD_SPEC + ["initContainers"]);
    var l5 := DefaultList(Volume, l4, source, POD_SPEC + ["volumes"]);
    assert l5 == ApplyDefaults(live, source);
    DefaultFieldsArePart(live, source, [], DEPLOYMENT_DEFAULTS);
    DefaultFieldsArePart(l1, source, POD_SPEC, POD_SPEC_DEFAULTS);
    DefaultListIsPart(Container, l2, source, POD_SPEC + ["containers"]);
    DefaultListIsPart(Container, l3, source, POD_SPEC + ["initContainers"]);
    DefaultListIsPart(Volume, l4, source, POD_SPEC + ["volumes"]);
    hide *;
    PartOfTransitive(l4, l3, l2);
    PartOfTransitive(l5, l4, l2);
  }

  lemma ApplyDefaultsGoes(live: Json, source: Json, place: seq<Step>, v: Json)
    requires HasLeaf(live, place, v) && DefaultExcused(live, source, place, v)
    ensures Gone(ApplyDefaults(live, source), place)
  {
    var l1 := DefaultFields(live, source, [], DEPLOYMENT_DEFAULTS);
    var l2 := DefaultFields(l1, source, POD_SPEC, POD_SPEC_DEFAULTS);
    var l5 := ApplyDefaults(live, source);
    ApplyChain(live, source);
    TablesHoldLeaves();
    hide DefaultFields, DefaultList, FieldExcused, ListExcused, PartOf, LeafRules;
    if FieldExcused(source, [], DEPLOYMENT_DEFAULTS, place, v) {
      DefaultFieldsGo(live, source, [], DEPLOYMENT_DEFAULTS, place, v);
    }
    KeptOrGone(l1, live, place, v);
    if HasLeaf(l1, place, v) {
      if FieldExcused(source, POD_SPEC, POD_SPEC_DEFAULTS, place, v) {
        DefaultFieldsGo(l1, source, POD_SPEC, POD_SPEC_DEFAULTS, place, v);
      }
      KeptOrGone(l2, l1, place, v);
      if HasLeaf(l2, place, v) { PodListsGo(live, l2, source, place, v); }
    } else {
      GoneFromPart(l2, l1, place);
    }
    if Gone(l2, place) { GoneFromPart(l5, l2, place); }
  }

  /** A value of the live object is missing from what is compared if and only if it is excused: bookkeeping, a default
      where the source is silent, a null timestamp, or an empty annotation or label map the source is silent about. */
  lemma {:induction false} VanishesExactly(live: Json, source: Json, place: seq<Step>, v: Json)
    requires HasLeaf(live, place, v)
    ensures !HasLeaf(NormalLive(live, source), place, v) <==> Excused(live, source, place, v)
  {
    NothingElseVanishes(live, source, place, v);
    if Excused(live, source, place, v) { ExcusedGoes(live, source, place, v); }
  }

  lemma ExcusedGoes(live: Json, source: Json, place: seq<Step>, v: Json)
    requires HasLeaf(live, place, v) && Excused(live, source, place, v)
    ensures Gone(NormalLive(live, source), place)
  {
    var s := Stripped(live, source);
    StrippedIsPart(live, source);
    ApplyDefaultsIsPart(s, source);
    KeptOrGone(s, live, place, v);
    hide Stripped, ApplyDefaults, StripExcused, DefaultExcused, PartOf;
    if StripExcused(source, place, v) { StrippedGoes(live, source, place, v); }
    if HasLeaf(s, place, v) { ApplyDefaultsGoes(s, source, place, v); } else { GoneFromPart(ApplyDefaults(s, source), s, place); }
  }

  /** An annotation or label map that was written empty goes as well, and not only one that normalisation emptied. */
  lemma WrittenEmptyMapsGo(live: Json, source: Json, path: seq<string>)
    requires path == ANNOTATIONS || path == LABELS
    requires Nested(live, path) == Some(EMPTY) && !Sets(source, path)
    ensures !Sets(NormalLive(live, source), path)
  {
    NestedLookup(live, path);
    NestedLookup(NormalLive(live, source), path);
    ExcusedGoes(live, source, Steps(path), EMPTY);
  }

  // ---- the source ----

  /** A map set below an empty object is there afterwards. */
  lemma {:induction false} SetEmptyBelow(j: Json, path: seq<string>, place: seq<Step>)
    requires HasLeaf(j, place, EMPTY) && place < Steps(path)
    ensures HasLeaf(SetEmpty(j, path), Steps(path), EMPTY)
    decreases path
  {
    SetEmptySets(j, path);
    if SetEmpty(j, path) == j { SetEmptyChanges(j, path, place); }
  }

  lemma {:induction false} SetEmptyChanges(j: Json, path: seq<string>, place: seq<Step>)
    requires HasLeaf(j, place, EMPTY) && place < Steps(path)
    ensures SetEmpty(j, path) != j
    decreases path
  {
    StepsTail(path);
    if place == [] {
      NotAsEmpty(path);
    } else {
      assert place[1..] < Steps(path[1..]) by { assert Steps(path)[1..] == Steps(path[1..]); }
      SetEmptyChanges(j.fields[path[0]], path[1..], place[1..]);
      assert SetEmpty(j, path).fields[path[0]] != j.fields[path[0]];
    }
  }

  lemma UnsetBelowEmpty(j: Json, place: seq<Step>, path: seq<string>)
    requires HasLeaf(j, place, EMPTY) && place < Steps(path)
    ensures !Sets(j, path)
  {
    var rest := Steps(path)[|place|..];
    assert Steps(path) == place + rest;
    LookupSplit(j, place, rest);
    NestedLookup(j, path);
  }

  /** Where a map is to be opened below an empty object, one is. */
  lemma {:induction false} PerKeyOpens(live: Json, source: Json, paths: seq<seq<string>>, place: seq<Step>) returns (i: nat)
    requires HasLeaf(source, place, EMPTY) && OpenedBelow(live, source, paths, place)
    requires forall i :: 0 <= i < |paths| ==> paths[i] != []
    requires forall i, j :: 0 <= i < j < |paths| ==> !(Steps(paths[i]) < Steps(paths[j]))
    ensures i < |paths| && place < Steps(paths[i]) && HasLeaf(PerKey(live, source, paths), Steps(paths[i]), EMPTY)
    decreases paths
  {
    var next, rest := Opening(live, source, paths[0]), paths[1..];
    PerKeyFirst(live, source, paths);
    hide PerKey;
    assert forall k :: 0 <= k < |rest| ==> rest[k] == paths[k + 1];
    if Opened(live, source, paths[0]) && place < Steps(paths[0]) {
      i := 0;
      SetEmptyBelow(source, paths[0], place);
      PerKeyKeepsEmpty(live, next, rest, Steps(paths[0]));
    } else {
      var k :| 0 <= k < |paths| && place < Steps(paths[k]) && Opened(live, source, paths[k]);
      if Opened(live, source, paths[0]) { SetEmptyKeeps(source, paths[0], place); }
      UnsetBelowEmpty(next, place, paths[k]);
      assert place < Steps(rest[k - 1]) && Opened(live, next, rest[k - 1]);
      i := PerKeyOpens(live, next, rest, place);
      i := i + 1;
    }
  }

  lemma OpenedMapShows(live: Json, source: Json, place: seq<Step>)
    requires HasLeaf(source, place, EMPTY) && OpenedBelow(live, source, PER_KEY, place)
    ensures !HasLeaf(NormalSource(live, source), place, EMPTY)
  {
    hide NormalSource, PerKey, OpenedBelow;
    PerKeyPathsApart();
    var i := PerKeyOpens(live, source, PER_KEY, place);
    OpenedSurvives(live, source, i);
    var path := PER_KEY[i];
    if HasLeaf(NormalSource(live, source), place, EMPTY) {
      UnsetBelowEmpty(NormalSource(live, source), place, path);
      NestedLookup(NormalSource(live, source), path);
    }
  }

  lemma SourceExcusedGoes(live: Json, source: Json, place: seq<Step>, v: Json)
    requires HasLeaf(source, place, v) && SourceExcused(live, source, place, v)
    ensures !HasLeaf(NormalSource(live, source), place, v)
  {
    var s1 := PerKey(live, source, PER_KEY);
    var s2 := RemoveAll(s1, BOOKKEEPING);
    assert NormalSource(live, source) == Drop(s2);
    hide NormalSource, PerKey, RemoveAll, Drop, BelowAny, OpenedBelow;
    if BelowAny(BOOKKEEPING, place) {
      RemoveAllGoes(s1, BOOKKEEPING, place);
      DropIsPart(s2);
      GoneFromPart(Drop(s2), s2, place);
    } else if StampAt(place, v) {
      DropLeavesNoStamp(s2);
      NoStampThere(Drop(s2), place);
    } else {
      OpenedMapShows(live, source, place);
    }
  }

  /** A value of the source is missing from what is compared if and only if it is excused: bookkeeping, a null
      timestamp, or an empty object in which a map is opened because the live object holds one. */
  lemma {:induction false} SourceGoesExactly(live: Json, source: Json, place: seq<Step>, v: Json)
    requires HasLeaf(source, place, v)
    ensures !HasLeaf(NormalSource(live, source), place, v) <==> SourceExcused(live, source, place, v)
  {
    SourceKept(live, source, place, v);
    hide NormalSource;
    if SourceExcused(live, source, place, v) { SourceExcusedGoes(live, source, place, v); }
  }
}
