/** No value of the live object disappears in normalisation unless it is bookkeeping, a null timestamp, or
    a documented default at a place where the source is silent. */
module NothingHidden {
  import opened Order
  import opened Json
  import opened Pruning
  import opened Normalise

  // ---- dropping null timestamps ----

  /** No object anywhere inside holds a null creationTimestamp. */
  ghost predicate NoNullStamp(v: Json) {
    match v
    case Obj(m) => forall k :: k in m ==> !NullStamp(k, m[k]) && NoNullStamp(m[k])
    case List(s) => forall i :: 0 <= i < |s| ==> NoNullStamp(s[i])
    case _ => true
  }

  lemma {:induction false} DropLeavesNoStamp(v: Json)
    ensures NoNullStamp(Drop(v))
  {
    match v
    case Obj(m) =>
      forall k | k in m ensures NoNullStamp(Drop(m[k])) && (m[k] != Null ==> Drop(m[k]) != Null) { DropLeavesNoStamp(m[k]); }
    case List(s) =>
      forall i | 0 <= i < |s| ensures NoNullStamp(Drop(s[i])) { DropLeavesNoStamp(s[i]); }
    case _ =>
  }

  lemma {:induction false} NothingToDrop(v: Json)
    requires NoNullStamp(v)
    ensures Drop(v) == v && !Emptied(v)
  {
    match v
    case Obj(m) =>
      forall k | k in m ensures Drop(m[k]) == m[k] && !Emptied(m[k]) { NothingToDrop(m[k]); }
      assert Drop(v).fields == m;
    case List(s) =>
      forall i | 0 <= i < |s| ensures Drop(s[i]) == s[i] { NothingToDrop(s[i]); }
      assert Drop(v).elems == s;
    case _ =>
  }

  /** Dropping twice is dropping once. */
  lemma DropIdempotent(v: Json)
    ensures Drop(Drop(v)) == Drop(v)
  {
    DropLeavesNoStamp(v);
    NothingToDrop(Drop(v));
  }

  lemma {:induction false} DropIsPart(v: Json)
    ensures PartOf(Drop(v), v)
  {
    match v
    case Obj(m) =>
      forall k | k in m ensures PartOf(Drop(m[k]), m[k]) { DropIsPart(m[k]); }
    case List(s) =>
      forall i | 0 <= i < |s| ensures PartOf(Drop(s[i]), s[i]) { DropIsPart(s[i]); }
    case _ =>
  }

  predicate StampAt(place: seq<Step>, v: Json) {
    v == Null && place != [] && place[|place| - 1] == Field(STAMP)
  }

  lemma NoLeafInside(v: Json, place: seq<Step>, x: Json)
    requires (v == Null || v == EMPTY) && HasLeaf(v, place, x)
    ensures place == [] && x == v
  {
  }

  lemma {:induction false} EmptiedHoldsStamps(v: Json, place: seq<Step>, x: Json)
    requires Emptied(v) && HasLeaf(v, place, x)
    ensures StampAt(place, x)
  {
    if place != [] {
      var k, rest := place[0].key, place[1..];
      if NullStamp(k, v.fields[k]) {
        NoLeafInside(v.fields[k], rest, x);
      } else {
        EmptiedHoldsStamps(v.fields[k], rest, x);
        assert place[|place| - 1] == rest[|rest| - 1];
      }
    }
  }

  lemma DropLeaf(v: Json)
    requires Leaf(v)
    ensures Drop(v) == v
  {
    if v.Obj? { assert Drop(v).fields == map[]; }
    if v.List? { assert Drop(v).elems == []; }
  }

  /** Everything but the null timestamps stays where it was, objects that were written empty included. */
  lemma {:induction false} DropKeeps(v: Json, place: seq<Step>, x: Json)
    requires HasLeaf(v, place, x)
    ensures HasLeaf(Drop(v), place, x) || StampAt(place, x)
  {
    if place == [] {
      DropLeaf(v);
    } else {
      var c, rest := Child(v, place[0]).value, place[1..];
      DropKeeps(c, rest, x);
      if rest != [] { assert place[|place| - 1] == rest[|rest| - 1]; }
      if v.Obj? && NullStamp(place[0].key, c) {
        NoLeafInside(c, rest, x);
      } else if v.Obj? && Emptied(c) {
        EmptiedHoldsStamps(c, rest, x);
      } else {
        assert Child(Drop(v), place[0]) == Some(Drop(c));
      }
    }
  }

  /** An object field disappears exactly when it is a null timestamp or an object that held nothing but a
      null timestamp and objects that disappear for that same reason. */
  ghost predicate OnlyStamps(v: Json) {
    && v.Obj? && Get(v.fields, STAMP) == Some(Null)
    && forall k :: k in v.fields && k != STAMP ==> OnlyStamps(v.fields[k])
  }

  lemma {:induction false} EmptiedMeans(v: Json)
    ensures Emptied(v) <==> OnlyStamps(v)
    ensures Emptied(v) ==> Drop(v) == EMPTY
  {
    if v.Obj? {
      forall k | k in v.fields ensures Emptied(v.fields[k]) <==> OnlyStamps(v.fields[k]) { EmptiedMeans(v.fields[k]); }
    }
  }

  lemma DropRemoves(m: Fields, k: string)
    requires k in m
    ensures k !in Drop(Obj(m)).fields <==> NullStamp(k, m[k]) || OnlyStamps(m[k])
  {
    EmptiedMeans(m[k]);
  }

  // ---- why a value may be missing ----

  ghost predicate BelowAny(paths: seq<seq<string>>, place: seq<Step>) {
    exists i :: 0 <= i < |paths| && Steps(paths[i]) <= place
  }

  /** The value sits at the place of a rule the source is silent about, and is what the rule says. */
  ghost predicate IsDefault(source: Json, path: seq<string>, value: Json, place: seq<Step>, v: Json) {
    !Sets(source, path) && Steps(path) <= place && HasLeaf(value, place[|path|..], v)
  }

  ghost predicate FieldExcused(source: Json, prefix: seq<string>, rules: seq<Rule>, place: seq<Step>, v: Json) {
    exists i :: 0 <= i < |rules| && IsDefault(source, prefix + rules[i].path, rules[i].value, place, v)
  }

  ghost predicate ItemExcused(item: Item, live: Json, source: Json, place: seq<Step>, v: Json)
    decreases Nesting(item), 0
  {
    match item
    case Port => FieldExcused(source, [], PORT_DEFAULTS, place, v)
    case Volume => FieldExcused(source, ["hostPath"], HOST_PATH_DEFAULTS, place, v)
    case Container =>
      || FieldExcused(source, [], CONTAINER_DEFAULTS, place, v)
      || (place == [Field("imagePullPolicy")] && !Sets(source, ["imagePullPolicy"]) && v == Str(ExpectedPolicy(ImageOf(live))))
      || ListExcused(Port, live, source, ["ports"], place, v)
  }

  /** The value sits in an element of the list at a path and is excused there, against the element's own
      counterpart in the source. */
  ghost predicate ListExcused(item: Item, live: Json, source: Json, path: seq<string>, place: seq<Step>, v: Json)
    decreases Nesting(item), 1
  {
    && |place| > |path| && Steps(path) <= place && place[|path|].At?
    && Nested(live, path).Some? && Nested(live, path).value.List?
    && var list, i := Nested(live, path).value.elems, place[|path|].index;
      && i < |list| && list[i].Obj?
      && ItemExcused(item, list[i], Counterpart(ElementsAt(source, path), KeyOf(item), NestedOrNull(list[i], [KeyOf(item)])), place[|path| + 1..], v)
  }

  ghost predicate DefaultExcused(live: Json, source: Json, place: seq<Step>, v: Json) {
    && KindOf(live) == "Deployment"
    && (|| FieldExcused(source, [], DEPLOYMENT_DEFAULTS, place, v)
        || FieldExcused(source, POD_SPEC, POD_SPEC_DEFAULTS, place, v)
        || ListExcused(Container, live, source, POD_SPEC + ["containers"], place, v)
        || ListExcused(Container, live, source, POD_SPEC + ["initContainers"], place, v)
        || ListExcused(Volume, live, source, POD_SPEC + ["volumes"], place, v))
  }

  ghost predicate StripExcused(source: Json, place: seq<Step>, v: Json) {
    || BelowAny(BOOKKEEPING + TOOL_ANNOTATIONS, place)
    || (!Sets(source, NAMESPACE) && Steps(NAMESPACE) <= place)
    || StampAt(place, v)
    || (v == EMPTY && !Sets(source, ANNOTATIONS) && place == Steps(ANNOTATIONS))
    || (v == EMPTY && !Sets(source, LABELS) && place == Steps(LABELS))
  }

  ghost predicate Excused(live: Json, source: Json, place: seq<Step>, v: Json) {
    StripExcused(source, place, v) || DefaultExcused(Stripped(live, source), source, place, v)
  }

  // ---- single edits ----

  lemma {:induction false} RemoveAllKeeps(j: Json, paths: seq<seq<string>>, place: seq<Step>, v: Json)
    requires HasLeaf(j, place, v) && forall i :: 0 <= i < |paths| ==> paths[i] != []
    ensures HasLeaf(RemoveAll(j, paths), place, v) || BelowAny(paths, place)
    decreases paths
  {
    if paths != [] {
      if !(Steps(paths[0]) <= place) {
        RemoveKeepsLeaf(j, paths[0], place, v);
        RemoveAllKeeps(Remove(j, paths[0]), paths[1..], place, v);
        if BelowAny(paths[1..], place) {
          var i :| 0 <= i < |paths[1..]| && Steps(paths[1..][i]) <= place;
          assert Steps(paths[i + 1]) <= place;
        }
      }
    }
  }

  lemma {:induction false} RemoveAllIsPart(j: Json, paths: seq<seq<string>>)
    ensures PartOf(RemoveAll(j, paths), j)
    decreases paths
  {
    PartOfSelf(j);
    if paths != [] {
      if paths[0] != [] { RemoveIsPart(j, paths[0]); }
      RemoveAllIsPart(Remove(j, paths[0]), paths[1..]);
      PartOfTransitive(RemoveAll(j, paths), Remove(j, paths[0]), j);
    }
  }

  lemma {:induction false} PathSplit(j: Json, a: seq<string>, b: seq<string>)
    ensures Nested(j, a + b) == match Nested(j, a) { case None => None case Some(c) => Nested(c, b) }
  {
    if a == [] {
      assert a + b == b;
    } else {
      assert (a + b)[1..] == a[1..] + b;
      if j.Obj? && a[0] in j.fields { PathSplit(j.fields[a[0]], a[1..], b); }
    }
  }

  lemma UnderEmpty(j: Json, parent: seq<string>, path: seq<string>)
    requires parent < path && Nested(j, path).Some?
    ensures Nested(j, parent) != Some(EMPTY)
  {
    assert path == parent + path[|parent|..];
    PathSplit(j, parent, path[|parent|..]);
  }

  lemma LeafOutside(orig: Json, live: Json, parent: seq<string>, path: seq<string>, place: seq<Step>, v: Json)
    requires parent < path && Nested(orig, path).Some? && Nested(live, parent) == Some(EMPTY)
    requires HasLeaf(orig, place, v) && HasLeaf(live, place, v)
    ensures !(Steps(parent) <= place)
  {
    NestedLookup(orig, parent);
    NestedLookup(live, parent);
    if Steps(parent) <= place {
      var rest := place[|parent|..];
      assert place == Steps(parent) + rest;
      LookupSplit(live, Steps(parent), rest);
      NoLeafInside(EMPTY, rest, v);
      assert place == Steps(parent);
      UnderEmpty(orig, parent, path);
    }
  }

  /** Pruning takes no leaf of the object the removal started from. */
  lemma {:induction false} PruneKeeps(orig: Json, live: Json, source: Json, path: seq<string>, depth: nat, place: seq<Step>, v: Json)
    requires depth < |path| && Nested(orig, path).Some?
    requires HasLeaf(orig, place, v) && HasLeaf(live, place, v)
    ensures HasLeaf(Prune(live, source, path, depth), place, v)
    decreases depth
  {
    if depth > 0 && Nested(live, path[..depth]) == Some(EMPTY) && !Sets(source, path[..depth]) {
      var parent := path[..depth];
      LeafOutside(orig, live, parent, path, place, v);
      RemoveKeepsLeaf(live, parent, place, v);
      PruneKeeps(orig, Remove(live, parent), source, path, depth - 1, place, v);
    }
  }

  lemma {:induction false} PruneIsPart(live: Json, source: Json, path: seq<string>, depth: nat)
    requires depth <= |path|
    ensures PartOf(Prune(live, source, path, depth), live)
    decreases depth
  {
    PartOfSelf(live);
    if depth > 0 && Nested(live, path[..depth]) == Some(EMPTY) && !Sets(source, path[..depth]) {
      var less := Remove(live, path[..depth]);
      RemoveIsPart(live, path[..depth]);
      PruneIsPart(less, source, path, depth - 1);
      PartOfTransitive(Prune(less, source, path, depth - 1), less, live);
    }
  }

  lemma DefaultFieldKeeps(live: Json, source: Json, path: seq<string>, value: Json, place: seq<Step>, v: Json)
    requires path != [] && value != Null && HasLeaf(live, place, v)
    ensures HasLeaf(DefaultField(live, source, path, value), place, v) || IsDefault(source, path, value, place, v)
    ensures PartOf(DefaultField(live, source, path, value), live)
  {
    PartOfSelf(live);
    if !Sets(source, path) && NestedOrNull(live, path) == value {
      NestedLookup(live, path);
      if Steps(path) <= place {
        assert place == Steps(path) + place[|path|..];
        LookupSplit(live, Steps(path), place[|path|..]);
      } else {
        RemoveKeepsLeaf(live, path, place, v);
        PruneKeeps(live, Remove(live, path), source, path, |path| - 1, place, v);
      }
      RemoveIsPart(live, path);
      PruneIsPart(Remove(live, path), source, path, |path| - 1);
      PartOfTransitive(DefaultField(live, source, path, value), Remove(live, path), live);
    }
  }

  ghost predicate RealRules(rules: seq<Rule>) {
    forall i :: 0 <= i < |rules| ==> rules[i].value != Null && rules[i].path != []
  }

  /** For any table of non-null defaults: a value goes only if a rule of the table says what it is. */
  lemma {:induction false} DefaultFieldsKeep(live: Json, source: Json, prefix: seq<string>, rules: seq<Rule>, place: seq<Step>, v: Json)
    requires RealRules(rules) && HasLeaf(live, place, v)
    ensures HasLeaf(DefaultFields(live, source, prefix, rules), place, v) || FieldExcused(source, prefix, rules, place, v)
    decreases rules
  {
    if rules != [] {
      var path := prefix + rules[0].path;
      var next := DefaultField(live, source, path, rules[0].value);
      DefaultFieldKeeps(live, source, path, rules[0].value, place, v);
      if HasLeaf(next, place, v) {
        DefaultFieldsKeep(next, source, prefix, rules[1..], place, v);
        if FieldExcused(source, prefix, rules[1..], place, v) {
          var i :| 0 <= i < |rules[1..]| && IsDefault(source, prefix + rules[1..][i].path, rules[1..][i].value, place, v);
          assert rules[i + 1] == rules[1..][i];
        }
      }
    }
  }

  lemma {:induction false} DefaultFieldsArePart(live: Json, source: Json, prefix: seq<string>, rules: seq<Rule>)
    requires RealRules(rules)
    ensures PartOf(DefaultFields(live, source, prefix, rules), live)
    decreases rules
  {
    PartOfSelf(live);
    if rules != [] {
      var path := prefix + rules[0].path;
      var next := DefaultField(live, source, path, rules[0].value);
      RemoveIsPart(live, path);
      PruneIsPart(Remove(live, path), source, path, |path| - 1);
      PartOfTransitive(Prune(Remove(live, path), source, path, |path| - 1), Remove(live, path), live);
      DefaultFieldsArePart(next, source, prefix, rules[1..]);
      PartOfTransitive(DefaultFields(live, source, prefix, rules), next, live);
    }
  }

  // ---- what an edit leaves elsewhere ----

  lemma {:induction false} RemoveUnder(j: Json, parent: seq<string>, other: seq<string>)
    requires parent != [] && parent <= other
    ensures Nested(Remove(j, parent), other).None?
  {
    if j.Obj? && parent[0] in j.fields && |parent| > 1 {
      RemoveUnder(j.fields[parent[0]], parent[1..], other[1..]);
    }
  }

  lemma {:induction false} PruneElsewhere(live: Json, source: Json, path: seq<string>, depth: nat, other: seq<string>)
    requires depth <= |path| && !Comparable(path, other)
    ensures Nested(Prune(live, source, path, depth), other) == Nested(live, other)
    decreases depth
  {
    if depth > 0 && Nested(live, path[..depth]) == Some(EMPTY) && !Sets(source, path[..depth]) {
      var parent := path[..depth];
      if parent <= other {
        RemoveUnder(live, parent, other);
        if Nested(live, other).Some? { UnderEmpty(live, parent, other); }
      } else {
        RemoveElsewhere(live, parent, other);
      }
      PruneElsewhere(Remove(live, parent), source, path, depth - 1, other);
    }
  }

  lemma {:induction false} DefaultFieldsElsewhere(live: Json, source: Json, prefix: seq<string>, rules: seq<Rule>, other: seq<string>)
    requires RealRules(rules) && forall i :: 0 <= i < |rules| ==> !Comparable(prefix + rules[i].path, other)
    ensures Nested(DefaultFields(live, source, prefix, rules), other) == Nested(live, other)
    decreases rules
  {
    if rules != [] {
      var path := prefix + rules[0].path;
      RemoveElsewhere(live, path, other);
      PruneElsewhere(Remove(live, path), source, path, |path| - 1, other);
      DefaultFieldsElsewhere(DefaultField(live, source, path, rules[0].value), source, prefix, rules[1..], other);
    }
  }

  lemma {:induction false} ReplaceElsewhere(j: Json, path: seq<string>, w: Json, other: seq<string>)
    requires !Comparable(path, other)
    ensures Nested(Replace(j, path, w), other) == Nested(j, other)
  {
    if path != [] && other != [] && j.Obj? && path[0] in j.fields && other[0] == path[0] {
      assert path == [path[0]] + path[1..] && other == [other[0]] + other[1..];
      ReplaceElsewhere(j.fields[path[0]], path[1..], w, other[1..]);
    }
  }

  lemma {:induction false} ReplaceLookup(j: Json, path: seq<string>, w: Json, place: seq<Step>, v: Json)
    requires Nested(j, path).Some? && HasLeaf(j, place, v)
    requires Steps(path) <= place ==> HasLeaf(w, place[|path|..], v)
    ensures HasLeaf(Replace(j, path, w), place, v)
  {
    if path != [] {
      StepsPrefix(path, place);
      if place != [] && place[0] == Field(path[0]) {
        if Steps(path[1..]) <= place[1..] { assert place[|path|..] == place[1..][|path[1..]|..]; }
        ReplaceLookup(j.fields[path[0]], path[1..], w, place[1..], v);
      }
    }
  }

  lemma {:induction false} ReplaceIsPart(j: Json, path: seq<string>, w: Json)
    requires Nested(j, path).Some? && PartOf(w, Nested(j, path).value)
    ensures PartOf(Replace(j, path, w), j)
  {
    if path != [] {
      forall k | k in j.fields ensures PartOf(j.fields[k], j.fields[k]) { PartOfSelf(j.fields[k]); }
      ReplaceIsPart(j.fields[path[0]], path[1..], w);
    }
  }

  // ---- keyed lists ----

  lemma DefaultItemKeeps(item: Item, live: Json, source: Json, place: seq<Step>, v: Json)
    requires HasLeaf(live, place, v)
    ensures HasLeaf(DefaultItem(item, live, source), place, v) || ItemExcused(item, live, source, place, v)
    decreases Nesting(item), 0
  {
    match item
    case Port => DefaultFieldsKeep(live, source, [], PORT_DEFAULTS, place, v);
    case Volume => DefaultFieldsKeep(live, source, ["hostPath"], HOST_PATH_DEFAULTS, place, v);
    case Container =>
      ContainerElsewhere(live, source);
      var l1 := DefaultFields(live, source, [], CONTAINER_DEFAULTS);
      var l2 := DefaultPullPolicy(l1, source);
      DefaultFieldsKeep(live, source, [], CONTAINER_DEFAULTS, place, v);
      if HasLeaf(l1, place, v) {
        PullPolicyKeeps(l1, source, place, v);
        if HasLeaf(l2, place, v) {
          DefaultListKeeps(Port, l2, source, ["ports"], place, v);
          if ListExcused(Port, l2, source, ["ports"], place, v) {
            ListExcusedSame(Port, l2, live, source, ["ports"], place, v);
          }
        }
      }
  }

  lemma ListExcusedSame(item: Item, a: Json, b: Json, source: Json, path: seq<string>, place: seq<Step>, v: Json)
    requires Nested(a, path) == Nested(b, path)
    ensures ListExcused(item, a, source, path, place, v) == ListExcused(item, b, source, path, place, v)
  {
  }

  lemma PullPolicyKeeps(live: Json, source: Json, place: seq<Step>, v: Json)
    requires HasLeaf(live, place, v)
    ensures HasLeaf(DefaultPullPolicy(live, source), place, v)
         || (place == [Field("imagePullPolicy")] && !Sets(source, ["imagePullPolicy"]) && v == Str(ExpectedPolicy(ImageOf(live))))
    ensures PartOf(DefaultPullPolicy(live, source), live)
  {
    PartOfSelf(live);
    var path := ["imagePullPolicy"];
    RemoveIsPart(live, path);
    if DefaultPullPolicy(live, source) != live {
      NestedLookup(live, path);
      if Steps(path) <= place {
        assert place == Steps(path) + place[1..];
        LookupSplit(live, Steps(path), place[1..]);
        if place[1..] == [] { assert place == Steps(path); }
      } else {
        RemoveKeepsLeaf(live, path, place, v);
      }
    }
  }

  /** Neither the container defaults nor the pull policy touch the image or the ports. */
  lemma ContainerElsewhere(live: Json, source: Json)
    ensures var l1 := DefaultFields(live, source, [], CONTAINER_DEFAULTS);
      && ImageOf(l1) == ImageOf(live)
      && Nested(DefaultPullPolicy(l1, source), ["ports"]) == Nested(live, ["ports"])
  {
    var l1 := DefaultFields(live, source, [], CONTAINER_DEFAULTS);
    forall i, other | 0 <= i < |CONTAINER_DEFAULTS| && (other == ["image"] || other == ["ports"])
      ensures !Comparable([] + CONTAINER_DEFAULTS[i].path, other)
    {
      assert ([] + CONTAINER_DEFAULTS[i].path)[0] != other[0];
    }
    DefaultFieldsElsewhere(live, source, [], CONTAINER_DEFAULTS, ["image"]);
    DefaultFieldsElsewhere(live, source, [], CONTAINER_DEFAULTS, ["ports"]);
    assert ["imagePullPolicy"][0] != ["ports"][0];
    RemoveElsewhere(l1, ["imagePullPolicy"], ["ports"]);
  }

  lemma DefaultListKeeps(item: Item, live: Json, source: Json, path: seq<string>, place: seq<Step>, v: Json)
    requires HasLeaf(live, place, v)
    ensures HasLeaf(DefaultList(item, live, source, path), place, v) || ListExcused(item, live, source, path, place, v)
    decreases Nesting(item), 2
  {
    if Nested(live, path).Some? && Nested(live, path).value.List? {
      var list := Nested(live, path).value.elems;
      var w := List(DefaultElements(item, list, ElementsAt(source, path)));
      if Steps(path) <= place {
        var rest := place[|path|..];
        assert place == Steps(path) + rest;
        NestedLookup(live, path);
        LookupSplit(live, Steps(path), rest);
        DefaultElementsKeep(item, list, ElementsAt(source, path), rest, v);
        if HasLeaf(w, rest, v) {
          ReplaceLookup(live, path, w, place, v);
        } else {
          assert rest[1..] == place[|path| + 1..];
        }
      } else {
        ReplaceLookup(live, path, w, place, v);
      }
    }
  }

  lemma DefaultElementsKeep(item: Item, list: seq<Json>, counterparts: seq<Json>, rest: seq<Step>, v: Json)
    requires HasLeaf(List(list), rest, v)
    ensures || HasLeaf(List(DefaultElements(item, list, counterparts)), rest, v)
            || (rest != [] && rest[0].At? && rest[0].index < |list| && list[rest[0].index].Obj? &&
                ItemExcused(item, list[rest[0].index],
                            Counterpart(counterparts, KeyOf(item), NestedOrNull(list[rest[0].index], [KeyOf(item)])), rest[1..], v))
    decreases Nesting(item), 1
  {
    if rest == [] {
      assert list == [] && DefaultElements(item, list, counterparts) == [];
    } else {
      var e := list[rest[0].index];
      if e.Obj? {
        DefaultItemKeeps(item, e, Counterpart(counterparts, KeyOf(item), NestedOrNull(e, [KeyOf(item)])), rest[1..], v);
      }
    }
  }

  lemma DefaultItemIsPart(item: Item, live: Json, source: Json)
    ensures PartOf(DefaultItem(item, live, source), live)
    decreases Nesting(item), 0
  {
    match item
    case Port => DefaultFieldsArePart(live, source, [], PORT_DEFAULTS);
    case Volume => DefaultFieldsArePart(live, source, ["hostPath"], HOST_PATH_DEFAULTS);
    case Container =>
      var l1 := DefaultFields(live, source, [], CONTAINER_DEFAULTS);
      var l2 := DefaultPullPolicy(l1, source);
      DefaultFieldsArePart(live, source, [], CONTAINER_DEFAULTS);
      RemoveIsPart(l1, ["imagePullPolicy"]);
      PartOfSelf(l1);
      PartOfTransitive(l2, l1, live);
      DefaultListIsPart(Port, l2, source, ["ports"]);
      PartOfTransitive(DefaultList(Port, l2, source, ["ports"]), l2, live);
  }

  lemma DefaultListIsPart(item: Item, live: Json, source: Json, path: seq<string>)
    ensures PartOf(DefaultList(item, live, source, path), live)
    decreases Nesting(item), 1
  {
    PartOfSelf(live);
    if Nested(live, path).Some? && Nested(live, path).value.List? {
      var list := Nested(live, path).value.elems;
      var counterparts := ElementsAt(source, path);
      forall i | 0 <= i < |list| ensures PartOf(DefaultElements(item, list, counterparts)[i], list[i]) {
        PartOfSelf(list[i]);
        if list[i].Obj? {
          DefaultItemIsPart(item, list[i], Counterpart(counterparts, KeyOf(item), NestedOrNull(list[i], [KeyOf(item)])));
        }
      }
      ReplaceIsPart(live, path, List(DefaultElements(item, list, counterparts)));
    }
  }

  // ---- the defaults of a Deployment ----

  lemma TablesAreReal()
    ensures RealRules(DEPLOYMENT_DEFAULTS) && RealRules(POD_SPEC_DEFAULTS) && RealRules(CONTAINER_DEFAULTS)
    ensures RealRules(PORT_DEFAULTS) && RealRules(HOST_PATH_DEFAULTS)
  {
  }

  const POD_LISTS := ["containers", "initContainers", "volumes"]

  lemma PodRulesElsewhere(field: string)
    requires field in POD_LISTS
    ensures forall i :: 0 <= i < |DEPLOYMENT_DEFAULTS| ==> !Comparable([] + DEPLOYMENT_DEFAULTS[i].path, POD_SPEC + [field])
    ensures forall i :: 0 <= i < |POD_SPEC_DEFAULTS| ==> !Comparable(POD_SPEC + POD_SPEC_DEFAULTS[i].path, POD_SPEC + [field])
  {
    var other := POD_SPEC + [field];
    forall i | 0 <= i < |DEPLOYMENT_DEFAULTS| ensures !Comparable([] + DEPLOYMENT_DEFAULTS[i].path, other) {
      assert ([] + DEPLOYMENT_DEFAULTS[i].path)[1] != other[1];
    }
    forall i | 0 <= i < |POD_SPEC_DEFAULTS| ensures !Comparable(POD_SPEC + POD_SPEC_DEFAULTS[i].path, other) {
      assert (POD_SPEC + POD_SPEC_DEFAULTS[i].path)[3] != other[3];
    }
  }

  /** The rule tables do not touch the lists of the pod spec. */
  lemma TablesElsewhere(live: Json, source: Json, field: string)
    requires field in POD_LISTS
    ensures var l1 := DefaultFields(live, source, [], DEPLOYMENT_DEFAULTS);
      Nested(DefaultFields(l1, source, POD_SPEC, POD_SPEC_DEFAULTS), POD_SPEC + [field]) == Nested(live, POD_SPEC + [field])
  {
    hide DefaultFields, Nested;
    TablesAreReal();
    PodRulesElsewhere(field);
    var other := POD_SPEC + [field];
    DefaultFieldsElsewhere(live, source, [], DEPLOYMENT_DEFAULTS, other);
    DefaultFieldsElsewhere(DefaultFields(live, source, [], DEPLOYMENT_DEFAULTS), source, POD_SPEC, POD_SPEC_DEFAULTS, other);
  }

  lemma ListElsewhere(item: Item, live: Json, source: Json, field: string, other: string)
    requires field != other
    ensures Nested(DefaultList(item, live, source, POD_SPEC + [field]), POD_SPEC + [other]) == Nested(live, POD_SPEC + [other])
  {
    var path := POD_SPEC + [field];
    assert path[3] != (POD_SPEC + [other])[3];
    if Nested(live, path).Some? && Nested(live, path).value.List? {
      ReplaceElsewhere(live, path, List(DefaultElements(item, Nested(live, path).value.elems, ElementsAt(source, path))), POD_SPEC + [other]);
    }
  }

  lemma {:induction false} ApplyDefaultsKeeps(live: Json, source: Json, place: seq<Step>, v: Json)
    requires HasLeaf(live, place, v)
    ensures HasLeaf(ApplyDefaults(live, source), place, v) || DefaultExcused(live, source, place, v)
  {
    if KindOf(live) == "Deployment" {
      TablesAreReal();
      var l1 := DefaultFields(live, source, [], DEPLOYMENT_DEFAULTS);
      DefaultFieldsKeep(live, source, [], DEPLOYMENT_DEFAULTS, place, v);
      if HasLeaf(l1, place, v) {
        DefaultFieldsKeep(l1, source, POD_SPEC, POD_SPEC_DEFAULTS, place, v);
        var l2 := DefaultFields(l1, source, POD_SPEC, POD_SPEC_DEFAULTS);
        if HasLeaf(l2, place, v) { PodListsKeep(live, l2, source, place, v); }
      }
    }
  }

  lemma PodListsKeep(live: Json, l2: Json, source: Json, place: seq<Step>, v: Json)
    requires l2 == DefaultFields(DefaultFields(live, source, [], DEPLOYMENT_DEFAULTS), source, POD_SPEC, POD_SPEC_DEFAULTS)
    requires HasLeaf(l2, place, v)
    ensures var l3 := DefaultList(Container, l2, source, POD_SPEC + ["containers"]);
      var l4 := DefaultList(Container, l3, source, POD_SPEC + ["initContainers"]);
      || HasLeaf(DefaultList(Volume, l4, source, POD_SPEC + ["volumes"]), place, v)
      || ListExcused(Container, live, source, POD_SPEC + ["containers"], place, v)
      || ListExcused(Container, live, source, POD_SPEC + ["initContainers"], place, v)
      || ListExcused(Volume, live, source, POD_SPEC + ["volumes"], place, v)
  {
    hide DefaultFields, DefaultList;
    var l3 := DefaultList(Container, l2, source, POD_SPEC + ["containers"]);
    var l4 := DefaultList(Container, l3, source, POD_SPEC + ["initContainers"]);
    TablesElsewhere(live, source, "containers");
    TablesElsewhere(live, source, "initContainers");
    TablesElsewhere(live, source, "volumes");
    ListElsewhere(Container, l2, source, "containers", "initContainers");
    ListElsewhere(Container, l2, source, "containers", "volumes");
    ListElsewhere(Container, l3, source, "initContainers", "volumes");
    DefaultListKeeps(Container, l2, source, POD_SPEC + ["containers"], place, v);
    ListExcusedSame(Container, l2, live, source, POD_SPEC + ["containers"], place, v);
    ListExcusedSame(Container, l3, live, source, POD_SPEC + ["initContainers"], place, v);
    ListExcusedSame(Volume, l4, live, source, POD_SPEC + ["volumes"], place, v);
    if HasLeaf(l3, place, v) {
      DefaultListKeeps(Container, l3, source, POD_SPEC + ["initContainers"], place, v);
      if HasLeaf(l4, place, v) {
        DefaultListKeeps(Volume, l4, source, POD_SPEC + ["volumes"], place, v);
      }
    }
  }

  lemma ApplyDefaultsIsPart(live: Json, source: Json)
    ensures PartOf(ApplyDefaults(live, source), live)
  {
    hide DefaultFields, DefaultList;
    PartOfSelf(live);
    TablesAreReal();
    var l1 := DefaultFields(live, source, [], DEPLOYMENT_DEFAULTS);
    var l2 := DefaultFields(l1, source, POD_SPEC, POD_SPEC_DEFAULTS);
    var l3 := DefaultList(Container, l2, source, POD_SPEC + ["containers"]);
    var l4 := DefaultList(Container, l3, source, POD_SPEC + ["initContainers"]);
    var l5 := DefaultList(Volume, l4, source, POD_SPEC + ["volumes"]);
    DefaultFieldsArePart(live, source, [], DEPLOYMENT_DEFAULTS);
    DefaultFieldsArePart(l1, source, POD_SPEC, POD_SPEC_DEFAULTS);
    DefaultListIsPart(Container, l2, source, POD_SPEC + ["containers"]);
    DefaultListIsPart(Container, l3, source, POD_SPEC + ["initContainers"]);
    DefaultListIsPart(Volume, l4, source, POD_SPEC + ["volumes"]);
    PartOfTransitive(l2, l1, live);
    PartOfTransitive(l3, l2, live);
    PartOfTransitive(l4, l3, live);
    PartOfTransitive(l5, l4, live);
  }

  // ---- the whole pass over the live object ----

  lemma DropEmptyKeeps(live: Json, source: Json, path: seq<string>, place: seq<Step>, v: Json)
    requires path != [] && HasLeaf(live, place, v)
    ensures HasLeaf(DropEmpty(live, source, path), place, v) || (v == EMPTY && !Sets(source, path) && place == Steps(path))
    ensures PartOf(DropEmpty(live, source, path), live)
  {
    PartOfSelf(live);
    RemoveIsPart(live, path);
    if Nested(live, path) == Some(EMPTY) && !Sets(source, path) {
      NestedLookup(live, path);
      if Steps(path) <= place {
        var rest := place[|path|..];
        assert place == Steps(path) + rest;
        LookupSplit(live, Steps(path), rest);
        NoLeafInside(EMPTY, rest, v);
        assert place == Steps(path);
      } else {
        RemoveKeepsLeaf(live, path, place, v);
      }
    }
  }

  lemma StrippedKeeps(live: Json, source: Json, place: seq<Step>, v: Json)
    requires HasLeaf(live, place, v)
    ensures HasLeaf(Stripped(live, source), place, v) || StripExcused(source, place, v)
  {
    var paths := BOOKKEEPING + TOOL_ANNOTATIONS;
    var l1 := RemoveAll(live, paths);
    var l2 := if Sets(source, NAMESPACE) then l1 else Remove(l1, NAMESPACE);
    RemoveAllKeeps(live, paths, place, v);
    if HasLeaf(l1, place, v) && !(!Sets(source, NAMESPACE) && Steps(NAMESPACE) <= place) {
      if !Sets(source, NAMESPACE) { RemoveKeepsLeaf(l1, NAMESPACE, place, v); }
      DropKeeps(l2, place, v);
      if HasLeaf(Drop(l2), place, v) {
        DropEmptyKeeps(Drop(l2), source, ANNOTATIONS, place, v);
        if HasLeaf(DropEmpty(Drop(l2), source, ANNOTATIONS), place, v) {
          DropEmptyKeeps(DropEmpty(Drop(l2), source, ANNOTATIONS), source, LABELS, place, v);
        }
      }
    }
  }

  lemma StrippedIsPart(live: Json, source: Json)
    ensures PartOf(Stripped(live, source), live)
  {
    var l1 := RemoveAll(live, BOOKKEEPING + TOOL_ANNOTATIONS);
    var l2 := if Sets(source, NAMESPACE) then l1 else Remove(l1, NAMESPACE);
    var l3, l4 := Drop(l2), DropEmpty(Drop(l2), source, ANNOTATIONS);
    var l5 := DropEmpty(l4, source, LABELS);
    RemoveAllIsPart(live, BOOKKEEPING + TOOL_ANNOTATIONS);
    PartOfSelf(l1);
    RemoveIsPart(l1, NAMESPACE);
    DropIsPart(l2);
    PartOfSelf(l3);
    RemoveIsPart(l3, ANNOTATIONS);
    PartOfSelf(l4);
    RemoveIsPart(l4, LABELS);
    PartOfTransitive(l2, l1, live);
    PartOfTransitive(l3, l2, live);
    PartOfTransitive(l4, l3, live);
    PartOfTransitive(l5, l4, live);
  }

  /** Every value of the live object is in what is compared, at its own place, unless it is excused. */
  lemma {:induction false} NothingElseVanishes(live: Json, source: Json, place: seq<Step>, v: Json)
    requires HasLeaf(live, place, v)
    ensures HasLeaf(NormalLive(live, source), place, v) || Excused(live, source, place, v)
  {
    StrippedKeeps(live, source, place, v);
    if HasLeaf(Stripped(live, source), place, v) {
      ApplyDefaultsKeeps(Stripped(live, source), source, place, v);
    }
  }

  /** Normalisation only takes object fields away from the live object; it never adds or alters a value. */
  lemma NormalLiveIsPart(live: Json, source: Json)
    ensures PartOf(NormalLive(live, source), live)
  {
    StrippedIsPart(live, source);
    ApplyDefaultsIsPart(Stripped(live, source), source);
    PartOfTransitive(NormalLive(live, source), Stripped(live, source), live);
  }

  /** Nothing but excused values is inside: the object is empty once those are gone. */
  ghost predicate HollowLive(live: Json, source: Json, place: seq<Step>) {
    && ObjectAt(live, place)
    && forall rest, v :: HasLeaf(live, place + rest, v) ==> (rest == [] && v == EMPTY) || Excused(live, source, place + rest, v)
  }

  lemma {:induction false} PartOfObject(part: Json, whole: Json, place: seq<Step>)
    requires PartOf(part, whole) && ObjectAt(part, place)
    ensures ObjectAt(whole, place)
    decreases whole
  {
    if place != [] {
      PartOfObject(Child(part, place[0]).value, Child(whole, place[0]).value, place[1..]);
    }
  }

  /** What lies below an empty object. */
  lemma BelowEmptyObject(j: Json, place: seq<Step>, rest: seq<Step>, v: Json)
    requires HasLeaf(j, place, EMPTY) && HasLeaf(j, place + rest, v)
    ensures rest == [] && v == EMPTY
  {
    LookupSplit(j, place, rest);
  }

  /** Every value compared for the live object is in the live object, at the same place; where an empty object
      is compared, the live object holds an object with nothing but excused values in it. */
  lemma LiveNothingNew(live: Json, source: Json, place: seq<Step>, v: Json)
    requires HasLeaf(NormalLive(live, source), place, v)
    ensures if v == EMPTY then HollowLive(live, source, place) else HasLeaf(live, place, v)
  {
    var l := NormalLive(live, source);
    NormalLiveIsPart(live, source);
    hide NormalLive, Excused;
    if v != EMPTY {
      PartOfLeaf(l, live, place, v);
    } else {
      PartOfObject(l, live, place);
      forall rest, w | HasLeaf(live, place + rest, w) ensures (rest == [] && w == EMPTY) || Excused(live, source, place + rest, w) {
        NothingElseVanishes(live, source, place + rest, w);
        if HasLeaf(l, place + rest, w) { BelowEmptyObject(l, place, rest, w); }
      }
    }
  }

  // ---- the source ----

  /** A map compared key by key is opened in the source: it is silent there, and the live object holds one. */
  predicate Opened(live: Json, source: Json, path: seq<string>) {
    !Sets(source, path) && Nested(live, path).Some? && Nested(live, path).value.Obj?
  }

  ghost predicate OpenedBelow(live: Json, source: Json, paths: seq<seq<string>>, place: seq<Step>) {
    exists i :: 0 <= i < |paths| && place < Steps(paths[i]) && Opened(live, source, paths[i])
  }

  ghost predicate OpenedHere(live: Json, source: Json, paths: seq<seq<string>>, place: seq<Step>) {
    exists i :: 0 <= i < |paths| && place == Steps(paths[i]) && Opened(live, source, paths[i])
  }

  /** What normalisation takes out of the source: bookkeeping and null timestamps; and an empty object stops
      being empty where a map is opened inside it. */
  ghost predicate SourceExcused(live: Json, source: Json, place: seq<Step>, v: Json) {
    BelowAny(BOOKKEEPING, place) || StampAt(place, v) || (v == EMPTY && OpenedBelow(live, source, PER_KEY, place))
  }

  lemma {:induction false} PerKeyLeaves(live: Json, source: Json, paths: seq<seq<string>>, place: seq<Step>, v: Json)
    requires Leaf(v) && v != EMPTY && forall i :: 0 <= i < |paths| ==> paths[i] != []
    ensures HasLeaf(PerKey(live, source, paths), place, v) <==> HasLeaf(source, place, v)
    decreases paths
  {
    if paths != [] {
      if !Sets(source, paths[0]) { SetEmptyLeaves(source, paths[0], place, v); }
      var bare := !Sets(source, paths[0]) && Sets(live, paths[0]) && Nested(live, paths[0]).value.Obj?;
      PerKeyLeaves(live, if bare then SetEmpty(source, paths[0]) else source, paths[1..], place, v);
    }
  }

  function Opening(live: Json, source: Json, path: seq<string>): Json {
    if Opened(live, source, path) then SetEmpty(source, path) else source
  }

  lemma PerKeyFirst(live: Json, source: Json, paths: seq<seq<string>>)
    requires paths != []
    ensures PerKey(live, source, paths) == PerKey(live, Opening(live, source, paths[0]), paths[1..])
  {
  }

  /** A map that is opened later was not set to begin with. */
  lemma OpenedStill(live: Json, source: Json, path: seq<string>, other: seq<string>)
    requires path != [] && Opened(live, Opening(live, source, path), other)
    ensures Opened(live, source, other)
  {
    if Opened(live, source, path) && Sets(source, other) { SetEmptyUnsets(source, path, other); }
  }

  lemma {:induction false} PerKeyKeepsEmpty(live: Json, source: Json, paths: seq<seq<string>>, place: seq<Step>)
    requires HasLeaf(source, place, EMPTY) && forall i :: 0 <= i < |paths| ==> paths[i] != []
    ensures HasLeaf(PerKey(live, source, paths), place, EMPTY) || OpenedBelow(live, source, paths, place)
    decreases paths
  {
    if paths != [] {
      var next := Opening(live, source, paths[0]);
      PerKeyFirst(live, source, paths);
      hide PerKey;
      if Opened(live, source, paths[0]) { SetEmptyKeeps(source, paths[0], place); }
      if HasLeaf(next, place, EMPTY) {
        PerKeyKeepsEmpty(live, next, paths[1..], place);
        if OpenedBelow(live, next, paths[1..], place) {
          var i :| 0 <= i < |paths[1..]| && place < Steps(paths[1..][i]) && Opened(live, next, paths[1..][i]);
          OpenedStill(live, source, paths[0], paths[i + 1]);
          assert place < Steps(paths[i + 1]) && Opened(live, source, paths[i + 1]);
        }
      } else {
        assert place < Steps(paths[0]) && Opened(live, source, paths[0]);
      }
    }
  }

  /** An object compared for the source is one of its own, or is on the way to a map that was opened. */
  lemma {:induction false} PerKeyObjects(live: Json, source: Json, paths: seq<seq<string>>, place: seq<Step>) returns (i: nat)
    requires ObjectAt(PerKey(live, source, paths), place) && forall i :: 0 <= i < |paths| ==> paths[i] != []
    requires forall i, j :: 0 <= i < j < |paths| ==> !(Steps(paths[i]) < Steps(paths[j]))
    ensures ObjectAt(source, place) ||
            (i < |paths| && place <= Steps(paths[i]) && Opened(live, source, paths[i]) && HasLeaf(PerKey(live, source, paths), Steps(paths[i]), EMPTY))
    decreases paths
  {
    i := 0;
    if paths != [] {
      var next, rest := Opening(live, source, paths[0]), paths[1..];
      PerKeyFirst(live, source, paths);
      hide PerKey;
      i := PerKeyObjects(live, next, rest, place);
      if ObjectAt(next, place) {
        i := 0;
        if Opened(live, source, paths[0]) && !ObjectAt(source, place) {
          SetEmptyObjects(source, paths[0], place);
          SetEmptySets(source, paths[0]);
          assert forall k :: 0 <= k < |rest| ==> rest[k] == paths[k + 1];
          PerKeyKeepsEmpty(live, next, rest, Steps(paths[0]));
        }
      } else {
        OpenedStill(live, source, paths[0], rest[i]);
        i := i + 1;
      }
    }
  }

  /** Every value of the source is in what is compared, at its own place, unless it is excused. */
  lemma SourceKept(live: Json, source: Json, place: seq<Step>, v: Json)
    requires HasLeaf(source, place, v)
    ensures HasLeaf(NormalSource(live, source), place, v) || SourceExcused(live, source, place, v)
  {
    var s1 := PerKey(live, source, PER_KEY);
    if v == EMPTY { PerKeyKeepsEmpty(live, source, PER_KEY, place); } else { PerKeyLeaves(live, source, PER_KEY, place, v); }
    if HasLeaf(s1, place, v) {
      RemoveAllKeeps(s1, BOOKKEEPING, place, v);
      if HasLeaf(RemoveAll(s1, BOOKKEEPING), place, v) {
        DropKeeps(RemoveAll(s1, BOOKKEEPING), place, v);
      }
    }
  }

  /** Nothing but excused values is inside, or the source is silent and the map was opened for comparison. */
  ghost predicate HollowSource(live: Json, source: Json, place: seq<Step>) {
    || OpenedHere(live, source, PER_KEY, place)
    || (&& ObjectAt(source, place)
        && forall rest, v :: HasLeaf(source, place + rest, v) ==> (rest == [] && v == EMPTY) || SourceExcused(live, source, place + rest, v))
  }

  lemma NormalSourceIsPart(live: Json, source: Json)
    ensures PartOf(NormalSource(live, source), PerKey(live, source, PER_KEY))
  {
    var s1 := PerKey(live, source, PER_KEY);
    RemoveAllIsPart(s1, BOOKKEEPING);
    DropIsPart(RemoveAll(s1, BOOKKEEPING));
    PartOfTransitive(Drop(RemoveAll(s1, BOOKKEEPING)), RemoveAll(s1, BOOKKEEPING), s1);
  }

  lemma {:induction false} StepsTell(a: seq<string>, b: seq<string>)
    requires Steps(a) <= Steps(b)
    ensures a <= b
  {
    forall i | 0 <= i < |a| ensures a[i] == b[i] {
      assert Steps(a)[i] == Steps(b)[i];
    }
  }

  /** The first two fields of a path tell it from another. */
  predicate Differ(a: seq<string>, b: seq<string>) {
    a != [] && b != [] && (a[0] != b[0] || (|a| > 1 && |b| > 1 && a[1] != b[1]))
  }

  lemma DifferingSteps(a: seq<string>, b: seq<string>)
    requires Differ(a, b)
    ensures !(Steps(a) <= Steps(b))
  {
    if Steps(a) <= Steps(b) { StepsTell(a, b); }
  }

  /** The maps opened in the source are not bookkeeping, and none is inside another. */
  lemma PerKeyPathsApart()
    ensures forall i :: 0 <= i < |PER_KEY| ==> PER_KEY[i] != [] && !BelowAny(BOOKKEEPING, Steps(PER_KEY[i]))
    ensures forall i, j :: 0 <= i < j < |PER_KEY| ==> !(Steps(PER_KEY[i]) < Steps(PER_KEY[j]))
  {
    assert PER_KEY[2] == ["spec", "template", "metadata", "annotations"] && PER_KEY[3] == ["spec", "template", "metadata", "labels"];
    forall i | 0 <= i < |PER_KEY| ensures !BelowAny(BOOKKEEPING, Steps(PER_KEY[i])) {
      forall k | 0 <= k < |BOOKKEEPING| ensures !(Steps(BOOKKEEPING[k]) <= Steps(PER_KEY[i])) {
        assert Differ(BOOKKEEPING[k], PER_KEY[i]);
        DifferingSteps(BOOKKEEPING[k], PER_KEY[i]);
      }
    }
    forall i, j | 0 <= i < j < |PER_KEY| ensures !(Steps(PER_KEY[i]) < Steps(PER_KEY[j])) {
      if |PER_KEY[i]| != |PER_KEY[j]| { DifferingSteps(PER_KEY[i], PER_KEY[j]); }
    }
  }

  lemma OpenedSurvives(live: Json, source: Json, i: nat)
    requires i < |PER_KEY| && HasLeaf(PerKey(live, source, PER_KEY), Steps(PER_KEY[i]), EMPTY)
    ensures HasLeaf(NormalSource(live, source), Steps(PER_KEY[i]), EMPTY)
  {
    var s1 := PerKey(live, source, PER_KEY);
    PerKeyPathsApart();
    hide PerKey, Drop;
    RemoveAllKeeps(s1, BOOKKEEPING, Steps(PER_KEY[i]), EMPTY);
    DropKeeps(RemoveAll(s1, BOOKKEEPING), Steps(PER_KEY[i]), EMPTY);
  }

  /** Every value compared for the source is in the source, at the same place; where an empty object is
      compared, the source holds an object with nothing but excused values in it, or a map was opened. */
  lemma SourceNothingNew(live: Json, source: Json, place: seq<Step>, v: Json)
    requires HasLeaf(NormalSource(live, source), place, v)
    ensures if v == EMPTY then HollowSource(live, source, place) else HasLeaf(source, place, v)
  {
    var s, s1 := NormalSource(live, source), PerKey(live, source, PER_KEY);
    NormalSourceIsPart(live, source);
    PerKeyPathsApart();
    hide NormalSource, PerKey;
    if v != EMPTY {
      PartOfLeaf(s, s1, place, v);
      PerKeyLeaves(live, source, PER_KEY, place, v);
    } else {
      PartOfObject(s, s1, place);
      var i := PerKeyObjects(live, source, PER_KEY, place);
      if ObjectAt(source, place) {
        forall rest, w | HasLeaf(source, place + rest, w) ensures (rest == [] && w == EMPTY) || SourceExcused(live, source, place + rest, w) {
          SourceKept(live, source, place + rest, w);
          if HasLeaf(s, place + rest, w) { BelowEmptyObject(s, place, rest, w); }
        }
      } else {
        OpenedSurvives(live, source, i);
        var rest := Steps(PER_KEY[i])[|place|..];
        assert place + rest == Steps(PER_KEY[i]);
        BelowEmptyObject(s, place, rest, EMPTY);
        assert place == Steps(PER_KEY[i]);
      }
    }
  }
}
