/** A comparison that finds nothing is sound: when it reports no row for the normalised objects, every value
    of the live object is a value of the source, under the same names, unless it is excused; and every value
    of the source is a value of the live object. */
module EqualIsSound {
  import opened Order
  import opened Json
  import opened TreeDiff
  import opened Meaning
  import opened WalkLaws
  import opened Pruning
  import opened Normalise
  import opened NothingHidden

  // ---- places and names ----

  function SegOf(rules: Rules, path: Path, j: Json, step: Step): Seg {
    match step
    case Field(k) => Key(k)
    case At(i) =>
      if j.List? && i < |j.elems| then
        match PairKey(rules, path, j.elems, j.elems)
        case Some(key) => Elem(key, NameOf(j.elems[i], key))
        case None => Index(i)
      else Index(i)
  }

  /** A place by names: elements of key-identified lists by their identity instead of their position. */
  function Named(rules: Rules, path: Path, j: Json, place: seq<Step>): Path
    decreases place
  {
    if place == [] || Child(j, place[0]).None? then []
    else
      var seg := SegOf(rules, path, j, place[0]);
      [seg] + Named(rules, path + [seg], Child(j, place[0]).value, place[1..])
  }

  function MeaningAt(m: Meaning, names: Path): Option<Meaning>
    decreases names
  {
    if names == [] then Some(m)
    else if m.Node? && names[0] in m.subs then MeaningAt(m.subs[names[0]], names[1..])
    else None
  }

  function LeafMeaning(v: Json): Meaning {
    match v
    case Obj(_) => Node(AnObject, map[])
    case List(_) => Node(Ordered, map[])
    case _ => Plain(v)
  }

  lemma SaysLeaf(rules: Rules, path: Path, j: Json, v: Json)
    requires Leaf(v)
    ensures Says(rules, path, j) == LeafMeaning(v) <==> j == v
  {
    if j.Obj? {
      forall k ensures Key(k) in Says(rules, path, j).subs <==> k in j.fields { SaysField(rules, path, j, k); }
      forall seg ensures seg in Says(rules, path, j).subs ==> seg.Key? && seg.key in j.fields { SaysSub(rules, path, j, seg); }
      if v.Obj? && j == v { assert Says(rules, path, j).subs == map[]; }
      if v.Obj? && Says(rules, path, j) == LeafMeaning(v) {
        var subs: map<Seg, Meaning> := map[];
        forall k ensures k !in j.fields { assert Key(k) !in subs; }
      }
    } else if j.List? {
      EmptyListSays(rules, path, j);
    }
  }

  lemma {:induction false} NoKeyForEmpty(keys: seq<string>)
    ensures FirstKey(keys, [], []).None?
  {
    if keys != [] { NoKeyForEmpty(keys[1..]); }
  }

  lemma EmptyListSays(rules: Rules, path: Path, j: Json)
    requires j.List?
    ensures Says(rules, path, j) == Node(Ordered, map[]) <==> j == List([])
  {
    NoKeyForEmpty(rules.keysAt(path));
    SaysSub(rules, path, j, Index(0));
    forall seg ensures seg in Says(rules, path, j).subs <==> Visits(rules, path, j, j, seg) { SaysSub(rules, path, j, seg); }
    if j == List([]) {
      assert Says(rules, path, j).subs == map[];
    }
  }

  /** Where a step leads is what its segment leads to. */
  lemma StepSub(rules: Rules, path: Path, j: Json, step: Step)
    requires Child(j, step).Some?
    ensures Visits(rules, path, j, j, SegOf(rules, path, j, step))
    ensures Sub(j, SegOf(rules, path, j, step)) == Child(j, step)
  {
    if j.List? {
      match PairKey(rules, path, j.elems, j.elems)
      case Some(key) => FindSelf(j.elems, key, step.index);
      case None =>
    }
  }

  lemma SubStep(rules: Rules, path: Path, j: Json, seg: Seg) returns (step: Step)
    requires Descends(j, j) && Visits(rules, path, j, j, seg)
    ensures Child(j, step) == Sub(j, seg) && SegOf(rules, path, j, step) == seg
  {
    if j.Obj? {
      step := Field(seg.key);
    } else {
      match PairKey(rules, path, j.elems, j.elems)
      case Some(key) =>
        var i :| 0 <= i < |j.elems| && Name(j.elems[i], key) == Some(seg.name);
        FindSelf(j.elems, key, i);
        step := At(i);
      case None => step := At(seg.i);
    }
  }

  /** A value of a tree is in its meaning, under its name. */
  lemma {:induction false} LeafIsSaid(rules: Rules, path: Path, j: Json, place: seq<Step>, v: Json)
    requires HasLeaf(j, place, v)
    ensures MeaningAt(Says(rules, path, j), Named(rules, path, j, place)) == Some(LeafMeaning(v))
    decreases place
  {
    if place == [] {
      SaysLeaf(rules, path, j, v);
    } else {
      var seg := SegOf(rules, path, j, place[0]);
      StepSub(rules, path, j, place[0]);
      SaysSub(rules, path, j, seg);
      LeafIsSaid(rules, path + [seg], Child(j, place[0]).value, place[1..], v);
    }
  }

  lemma NodesDescend(rules: Rules, path: Path, j: Json)
    ensures Says(rules, path, j).Node? <==> Descends(j, j)
  {
  }

  lemma MeaningInside(m: Meaning, names: Path)
    requires names != [] && MeaningAt(m, names).Some?
    ensures m.Node? && names[0] in m.subs && MeaningAt(m.subs[names[0]], names[1..]) == MeaningAt(m, names)
  {
  }

  lemma InsideLeaf(rules: Rules, path: Path, j: Json, step: Step, rest: seq<Step>, v: Json)
    requires Child(j, step).Some? && HasLeaf(Child(j, step).value, rest, v)
    ensures HasLeaf(j, [step] + rest, v)
    ensures
      var seg := SegOf(rules, path, j, step);
      Named(rules, path, j, [step] + rest) == [seg] + Named(rules, path + [seg], Child(j, step).value, rest)
  {
    hide SegOf;
    assert ([step] + rest)[1..] == rest;
  }

  /** A value in the meaning of a tree is in the tree. */
  lemma {:induction false} SaidIsLeaf(rules: Rules, path: Path, j: Json, names: Path, v: Json) returns (place: seq<Step>)
    requires Leaf(v) && MeaningAt(Says(rules, path, j), names) == Some(LeafMeaning(v))
    ensures HasLeaf(j, place, v) && Named(rules, path, j, place) == names
    decreases names
  {
    if names == [] {
      SaysLeaf(rules, path, j, v);
      place := [];
    } else {
      var seg := names[0];
      MeaningInside(Says(rules, path, j), names);
      NodesDescend(rules, path, j);
      hide *;
      SaysSub(rules, path, j, seg);
      var step := SubStep(rules, path, j, seg);
      var rest := SaidIsLeaf(rules, path + [seg], Sub(j, seg).value, names[1..], v);
      InsideLeaf(rules, path, j, step, rest, v);
      place := [step] + rest;
      assert [seg] + names[1..] == names;
    }
  }

  // ---- the theorem ----

  /** The comparison of the two objects, from their decoded form to the list of rows. */
  ghost function CompareAgainst(source: Fields, live: Fields, secret: bool): seq<Difference>
  {
    var l := NormalLive(Obj(live), Obj(source));
    var s := NormalSource(l, Obj(source));
    if l.Obj? && s.Obj? then Compare(s.fields, l.fields, secret) else []
  }

  lemma {:induction false} PerKeyIsObject(live: Json, source: Json, paths: seq<seq<string>>)
    requires source.Obj?
    ensures PerKey(live, source, paths).Obj?
    decreases paths
  {
    if paths != [] && paths[0] != [] {
      var bare := !Sets(source, paths[0]) && Sets(live, paths[0]) && Nested(live, paths[0]).value.Obj?;
      PerKeyIsObject(live, if bare then SetEmpty(source, paths[0]) else source, paths[1..]);
    } else if paths != [] {
      PerKeyIsObject(live, source, paths[1..]);
    }
  }

  lemma BothAreObjects(source: Fields, live: Fields)
    ensures var l := NormalLive(Obj(live), Obj(source)); l.Obj? && NormalSource(l, Obj(source)).Obj?
  {
    var l := NormalLive(Obj(live), Obj(source));
    NormalLiveIsPart(Obj(live), Obj(source));
    PerKeyIsObject(l, Obj(source), PER_KEY);
    var s1 := PerKey(l, Obj(source), PER_KEY);
    RemoveAllIsPart(s1, BOOKKEEPING);
    DropIsPart(RemoveAll(s1, BOOKKEEPING));
  }

  /** Trees that say the same hold the same values under the same names. */
  lemma {:induction false} SameMeaningSameLeaf(rules: Rules, a: Json, b: Json, place: seq<Step>, v: Json)
    requires Says(rules, [], a) == Says(rules, [], b) && HasLeaf(a, place, v)
    ensures exists q :: HasLeaf(b, q, v) && Named(rules, [], b, q) == Named(rules, [], a, place)
  {
    LeafIsSaid(rules, [], a, place, v);
    var q := SaidIsLeaf(rules, [], b, Named(rules, [], a, place), v);
  }

  /** The source holds a value of the live object, at a place with the same names as they are compared. An empty
      object may hold, in the source, bookkeeping and nothing else, or be a map opened for comparison. */
  ghost predicate InSource(rules: Rules, l: Json, s: Json, source: Json, place: seq<Step>, v: Json, q: seq<Step>) {
    && HasLeaf(s, q, v) && Named(rules, [], s, q) == Named(rules, [], l, place)
    && if v == EMPTY then HollowSource(l, source, q) else HasLeaf(source, q, v)
  }

  /** The live object holds a value of the source, at a place with the same names as they are compared. An empty
      object may hold, in the live object, excused values and nothing else. */
  ghost predicate InLive(rules: Rules, l: Json, s: Json, live: Json, source: Json, place: seq<Step>, v: Json, q: seq<Step>) {
    && HasLeaf(l, q, v) && Named(rules, [], l, q) == Named(rules, [], s, place)
    && if v == EMPTY then HollowLive(live, source, q) else HasLeaf(live, q, v)
  }

  lemma SameWhenEqual(source: Fields, live: Fields, secret: bool)
    requires CompareAgainst(source, live, secret) == []
    ensures
      var l := NormalLive(Obj(live), Obj(source));
      Says(KubeRules(secret), [], l) == Says(KubeRules(secret), [], NormalSource(l, Obj(source)))
  {
    BothAreObjects(source, live);
    var l := NormalLive(Obj(live), Obj(source));
    var s := NormalSource(l, Obj(source));
    hide NormalLive, NormalSource, Compare, Says;
    CompareFindsNothing(s.fields, l.fields, secret);
  }

  /** Equal is sound for the live object: every value it holds is excused, or the source holds it. */
  lemma {:induction false} EqualExplainsLive(source: Fields, live: Fields, secret: bool, place: seq<Step>, v: Json)
    requires CompareAgainst(source, live, secret) == []
    requires HasLeaf(Obj(live), place, v)
    ensures
      var l := NormalLive(Obj(live), Obj(source));
      || Excused(Obj(live), Obj(source), place, v)
      || exists q :: InSource(KubeRules(secret), l, NormalSource(l, Obj(source)), Obj(source), place, v, q)
  {
    var rules, l := KubeRules(secret), NormalLive(Obj(live), Obj(source));
    var s := NormalSource(l, Obj(source));
    SameWhenEqual(source, live, secret);
    NothingElseVanishes(Obj(live), Obj(source), place, v);
    hide *;
    if HasLeaf(l, place, v) {
      SameMeaningSameLeaf(rules, l, s, place, v);
      var q :| HasLeaf(s, q, v) && Named(rules, [], s, q) == Named(rules, [], l, place);
      SourceNothingNew(l, Obj(source), q, v);
      FoundInSource(rules, l, s, Obj(source), place, v, q);
    }
  }

  lemma FoundInSource(rules: Rules, l: Json, s: Json, source: Json, place: seq<Step>, v: Json, q: seq<Step>)
    requires HasLeaf(s, q, v) && Named(rules, [], s, q) == Named(rules, [], l, place)
    requires if v == EMPTY then HollowSource(l, source, q) else HasLeaf(source, q, v)
    ensures InSource(rules, l, s, source, place, v, q)
  {
  }

  /** Equal is sound for the source: every value it holds, empty objects included, is excused, or the live object
      holds it. */
  lemma {:induction false} EqualExplainsSource(source: Fields, live: Fields, secret: bool, place: seq<Step>, v: Json)
    requires CompareAgainst(source, live, secret) == []
    requires HasLeaf(Obj(source), place, v)
    ensures
      var l := NormalLive(Obj(live), Obj(source));
      || SourceExcused(l, Obj(source), place, v)
      || exists q :: InLive(KubeRules(secret), l, NormalSource(l, Obj(source)), Obj(live), Obj(source), place, v, q)
  {
    var rules, l := KubeRules(secret), NormalLive(Obj(live), Obj(source));
    var s := NormalSource(l, Obj(source));
    SameWhenEqual(source, live, secret);
    SourceKept(l, Obj(source), place, v);
    hide *;
    if HasLeaf(s, place, v) {
      SameMeaningSameLeaf(rules, s, l, place, v);
      var q :| HasLeaf(l, q, v) && Named(rules, [], l, q) == Named(rules, [], s, place);
      LiveNothingNew(Obj(live), Obj(source), q, v);
      FoundInLive(rules, l, s, Obj(live), Obj(source), place, v, q);
    }
  }

  lemma FoundInLive(rules: Rules, l: Json, s: Json, live: Json, source: Json, place: seq<Step>, v: Json, q: seq<Step>)
    requires HasLeaf(l, q, v) && Named(rules, [], l, q) == Named(rules, [], s, place)
    requires if v == EMPTY then HollowLive(live, source, q) else HasLeaf(live, q, v)
    ensures InLive(rules, l, s, live, source, place, v, q)
  {
  }
}
