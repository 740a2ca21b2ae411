/** What a tree says once the order of its key-identified lists is forgotten, and the theorem that the
    walk reports nothing exactly when two trees say the same. */
module Meaning {
  import opened Order
  import opened Json
  import opened TreeDiff

  datatype Shape = AnObject | Keyed(key: string) | Ordered

  datatype Meaning = Plain(value: Json) | Node(shape: Shape, subs: map<Seg, Meaning>)

  function ShapeOf(rules: Rules, path: Path, j: Json): Shape
    requires Descends(j, j)
  {
    if j.Obj? then AnObject
    else match PairKey(rules, path, j.elems, j.elems)
      case Some(key) => Keyed(key)
      case None => Ordered
  }

  /** A list whose key identifies every element denotes a map from those identities; any other list
      denotes its positions. */
  ghost function Says(rules: Rules, path: Path, j: Json): Meaning
    decreases j
  {
    if Descends(j, j) then
      SegsMembers(rules, path, j, j);
      var segs := Segs(rules, path, j, j);
      Node(ShapeOf(rules, path, j), map seg | seg in segs :: Says(rules, path + [seg], Sub(j, seg).value))
    else Plain(j)
  }

  // ---- which segments a walk visits ----

  predicate Visits(rules: Rules, path: Path, source: Json, live: Json, seg: Seg)
    requires Descends(source, live)
  {
    if source.Obj? then Sub(source, seg).Some? || Sub(live, seg).Some?
    else Listed(PairKey(rules, path, source.elems, live.elems), source, live, seg)
  }

  /** A segment naming an element of either list, by the pairing key if there is one and else by position. */
  predicate Listed(pairing: Option<string>, source: Json, live: Json, seg: Seg) {
    && (Sub(source, seg).Some? || Sub(live, seg).Some?)
    && (match pairing case Some(key) => seg.Elem? && seg.on == key case None => seg.Index?)
  }

  lemma {:induction false} OthersMembers(names: seq<string>, known: seq<string>)
    ensures forall n :: n in Others(names, known) <==> n in names && n !in known
  {
    if names != [] { OthersMembers(names[1..], known); }
  }

  lemma NameMembers(list: seq<Json>, key: string, n: string)
    requires Identifies(list, key) || list == []
    ensures n in NamesOf(list, key) <==> HasName(list, key, n)
  {
    if n in NamesOf(list, key) {
      var i :| 0 <= i < |list| && NamesOf(list, key)[i] == n;
      assert Name(list[i], key).Some?;
      assert Name(list[i], key) == Some(n);
    }
    if HasName(list, key, n) {
      var i :| 0 <= i < |list| && Name(list[i], key) == Some(n);
      assert NamesOf(list, key)[i] == n;
    }
  }

  lemma SegsMembers(rules: Rules, path: Path, source: Json, live: Json)
    requires Descends(source, live)
    ensures forall seg :: seg in Segs(rules, path, source, live) <==> Visits(rules, path, source, live, seg)
  {
    forall seg ensures seg in Segs(rules, path, source, live) <==> Visits(rules, path, source, live, seg) {
      if source.Obj? {
        ObjectSegs(rules, path, source, live, seg);
      } else {
        match PairKey(rules, path, source.elems, live.elems)
        case Some(key) => KeyedSegs(rules, path, source, live, key, seg);
        case None => PlacedSegs(rules, path, source, live, seg);
      }
    }
  }

  lemma KeySegsMember(keys: seq<string>, seg: Seg)
    ensures seg in KeySegs(keys) <==> seg.Key? && seg.key in keys
  {
    if seg.Key? && seg.key in keys {
      var i :| 0 <= i < |keys| && keys[i] == seg.key;
      assert KeySegs(keys)[i] == seg;
    }
  }

  lemma ElemSegsMember(key: string, names: seq<string>, seg: Seg)
    ensures seg in ElemSegs(key, names) <==> seg.Elem? && seg.on == key && seg.name in names
  {
    if seg.Elem? && seg.on == key && seg.name in names {
      var i :| 0 <= i < |names| && names[i] == seg.name;
      assert ElemSegs(key, names)[i] == seg;
    }
  }

  lemma ObjectSegs(rules: Rules, path: Path, source: Json, live: Json, seg: Seg)
    requires source.Obj? && live.Obj?
    ensures seg in Segs(rules, path, source, live) <==> Visits(rules, path, source, live, seg)
  {
    var mine, theirs := SortedKeys(source.fields.Keys), SortedKeys(live.fields.Keys);
    KeySegsMember(mine + Others(theirs, mine), seg);
    OthersMembers(theirs, mine);
  }

  lemma KeyedSegs(rules: Rules, path: Path, source: Json, live: Json, key: string, seg: Seg)
    requires source.List? && live.List? && PairKey(rules, path, source.elems, live.elems) == Some(key)
    ensures seg in Segs(rules, path, source, live) <==> Visits(rules, path, source, live, seg)
  {
    var mine, theirs := NamesOf(source.elems, key), NamesOf(live.elems, key);
    ElemSegsMember(key, mine + Others(theirs, mine), seg);
    OthersMembers(theirs, mine);
    if seg.Elem? {
      NameMembers(source.elems, key, seg.name);
      NameMembers(live.elems, key, seg.name);
    }
  }

  lemma PlacedSegs(rules: Rules, path: Path, source: Json, live: Json, seg: Seg)
    requires source.List? && live.List? && PairKey(rules, path, source.elems, live.elems).None?
    ensures seg in Segs(rules, path, source, live) <==> Visits(rules, path, source, live, seg)
  {
    if Visits(rules, path, source, live, seg) {
      assert Segs(rules, path, source, live)[seg.i] == seg;
    }
  }

  // ---- identities are part of the meaning ----

  ghost predicate SameNames(a: Json, b: Json) {
    forall key :: Name(a, key) == Name(b, key)
  }

  lemma SaysField(rules: Rules, path: Path, a: Json, key: string)
    requires a.Obj?
    ensures Says(rules, path, a).Node? && Says(rules, path, a).shape == AnObject
    ensures Key(key) in Says(rules, path, a).subs <==> key in a.fields
    ensures key in a.fields ==> Says(rules, path, a).subs[Key(key)] == Says(rules, path + [Key(key)], a.fields[key])
  {
    SegsMembers(rules, path, a, a);
    assert Visits(rules, path, a, a, Key(key)) <==> key in a.fields;
  }

  lemma SaysKind(rules: Rules, path: Path, a: Json, b: Json)
    requires Says(rules, path, a) == Says(rules, path, b)
    ensures a.Obj? == b.Obj? && a.List? == b.List?
    ensures a == b || (a.Obj? && b.Obj?) || (a.List? && b.List?)
    ensures Scalar(a) == Scalar(b)
  {
  }

  lemma SaysNames(rules: Rules, path: Path, a: Json, b: Json)
    requires Says(rules, path, a) == Says(rules, path, b)
    ensures SameNames(a, b)
  {
    SaysKind(rules, path, a, b);
    if a.Obj? {
      forall key ensures Name(a, key) == Name(b, key) {
        SaysField(rules, path, a, key);
        SaysField(rules, path, b, key);
        if key in a.fields {
          SaysKind(rules, path + [Key(key)], a.fields[key], b.fields[key]);
        }
      }
    }
  }

  lemma FindSelf(list: seq<Json>, key: string, i: nat)
    requires Identifies(list, key) && i < |list|
    ensures Find(list, key, Name(list[i], key).value) == Some(list[i])
  {
    var name := Name(list[i], key).value;
    assert HasName(list, key, name);
    var e := Find(list, key, name).value;
    var j :| 0 <= j < |list| && list[j] == e;
  }

  /** Two lists paired element by element under one key, with matching identities. */
  ghost predicate PairedBy(key: string, from: seq<Json>, to: seq<Json>) {
    && Identifies(from, key) && Identifies(to, key)
    && forall n :: HasName(from, key, n) ==>
         Find(from, key, n).Some? && Find(to, key, n).Some? && SameNames(Find(from, key, n).value, Find(to, key, n).value)
  }

  lemma PairedIdentify(key: string, from: seq<Json>, to: seq<Json>, other: string)
    requires PairedBy(key, from, to) && Identifies(to, other)
    ensures Identifies(from, other)
  {
    forall i | 0 <= i < |from| ensures Name(from[i], other).Some? {
      var _ := Partner(key, from, to, i);
    }
    forall i, j | 0 <= i < j < |from| ensures Name(from[i], other) != Name(from[j], other) {
      var p := Partner(key, from, to, i);
      var q := Partner(key, from, to, j);
      assert Name(from[i], key) != Name(from[j], key);
      if p < q { assert Name(to[p], other) != Name(to[q], other); }
      else if q < p { assert Name(to[q], other) != Name(to[p], other); }
    }
  }

  lemma Partner(key: string, from: seq<Json>, to: seq<Json>, i: nat) returns (p: nat)
    requires PairedBy(key, from, to) && i < |from|
    ensures p < |to| && SameNames(from[i], to[p])
  {
    var n := Name(from[i], key).value;
    assert HasName(from, key, n);
    FindSelf(from, key, i);
    var e := Find(to, key, n).value;
    p :| 0 <= p < |to| && to[p] == e;
  }

  lemma {:induction false} FirstKeyAgrees(keys: seq<string>, a: seq<Json>, b: seq<Json>)
    requires forall key :: Identifies(a, key) <==> Identifies(b, key)
    ensures FirstKey(keys, a, a) == FirstKey(keys, b, b) == FirstKey(keys, a, b)
  {
    if keys != [] {
      assert Identifies(a, keys[0]) <==> Identifies(b, keys[0]);
      FirstKeyAgrees(keys[1..], a, b);
    }
  }

  /** Lists that say the same, either way of reading them, are identified by the same keys. */
  lemma SameKeys(rules: Rules, path: Path, a: seq<Json>, b: seq<Json>, pairing: Option<string>)
    requires pairing.Some? ==> PairedBy(pairing.value, a, b) && PairedBy(pairing.value, b, a)
    requires pairing.None? ==> |a| == |b| && forall i :: 0 <= i < |a| ==> SameNames(a[i], b[i])
    ensures PairKey(rules, path, a, a) == PairKey(rules, path, b, b) == PairKey(rules, path, a, b)
  {
    forall key ensures Identifies(a, key) <==> Identifies(b, key) {
      if pairing.Some? {
        if Identifies(a, key) { PairedIdentify(pairing.value, b, a, key); }
        if Identifies(b, key) { PairedIdentify(pairing.value, a, b, key); }
      } else {
        assert forall i :: 0 <= i < |a| ==> Name(a[i], key) == Name(b[i], key);
      }
    }
    FirstKeyAgrees(rules.keysAt(path), a, b);
  }

  // ---- the walk reports nothing exactly when both sides say the same ----

  /** Both sides have every visited segment and say the same there. */
  ghost predicate SubsAgree(rules: Rules, path: Path, s: Json, l: Json)
    requires Descends(s, l)
  {
    forall seg :: Visits(rules, path, s, l, seg) ==>
      && Sub(s, seg).Some? && Sub(l, seg).Some?
      && Says(rules, path + [seg], Sub(s, seg).value) == Says(rules, path + [seg], Sub(l, seg).value)
  }

  lemma AgreeingLists(rules: Rules, path: Path, s: Json, l: Json, pairing: Option<string>)
    requires s.List? && l.List?
    requires pairing.Some? ==> Identifies(s.elems, pairing.value) && Identifies(l.elems, pairing.value)
    requires forall seg :: Listed(pairing, s, l, seg) ==>
               Sub(s, seg).Some? && Sub(l, seg).Some? && SameNames(Sub(s, seg).value, Sub(l, seg).value)
    ensures PairKey(rules, path, s.elems, s.elems) == PairKey(rules, path, l.elems, l.elems) == PairKey(rules, path, s.elems, l.elems)
  {
    if pairing.Some? {
      var k := pairing.value;
      forall n | HasName(s.elems, k, n) || HasName(l.elems, k, n)
        ensures Find(s.elems, k, n).Some? && Find(l.elems, k, n).Some? &&
                SameNames(Find(s.elems, k, n).value, Find(l.elems, k, n).value)
      {
        assert Listed(pairing, s, l, Elem(k, n));
        assert Sub(s, Elem(k, n)) == Find(s.elems, k, n) && Sub(l, Elem(k, n)) == Find(l.elems, k, n);
      }
    } else {
      var n, m := |s.elems|, |l.elems|;
      assert n < m ==> Listed(pairing, s, l, Index(n)) && Sub(s, Index(n)).None?;
      assert m < n ==> Listed(pairing, s, l, Index(m)) && Sub(l, Index(m)).None?;
      forall i | 0 <= i < |s.elems| ensures SameNames(s.elems[i], l.elems[i]) {
        assert Listed(pairing, s, l, Index(i));
        assert Sub(s, Index(i)) == Some(s.elems[i]);
      }
    }
    SameKeys(rules, path, s.elems, l.elems, pairing);
  }

  lemma SubsAgreeKeys(rules: Rules, path: Path, s: Json, l: Json)
    requires s.List? && l.List? && SubsAgree(rules, path, s, l)
    ensures PairKey(rules, path, s.elems, s.elems) == PairKey(rules, path, l.elems, l.elems) == PairKey(rules, path, s.elems, l.elems)
  {
    var pairing := PairKey(rules, path, s.elems, l.elems);
    forall seg | Listed(pairing, s, l, seg)
      ensures Sub(s, seg).Some? && Sub(l, seg).Some? && SameNames(Sub(s, seg).value, Sub(l, seg).value)
    {
      assert Visits(rules, path, s, l, seg);
      SaysNames(rules, path + [seg], Sub(s, seg).value, Sub(l, seg).value);
    }
    AgreeingLists(rules, path, s, l, pairing);
  }

  lemma {:induction false} SaysSub(rules: Rules, path: Path, j: Json, seg: Seg)
    requires Descends(j, j)
    ensures Says(rules, path, j).Node? && Says(rules, path, j).shape == ShapeOf(rules, path, j)
    ensures seg in Says(rules, path, j).subs <==> Visits(rules, path, j, j, seg)
    ensures seg in Says(rules, path, j).subs ==> Says(rules, path, j).subs[seg] == Says(rules, path + [seg], Sub(j, seg).value)
  {
    SegsMembers(rules, path, j, j);
  }

  lemma {:induction false} SubsAgreeSays(rules: Rules, path: Path, s: Json, l: Json)
    requires Descends(s, l) && SubsAgree(rules, path, s, l)
    ensures Says(rules, path, s) == Says(rules, path, l)
  {
    if s.List? { SubsAgreeKeys(rules, path, s, l); }
    var a, b := Says(rules, path, s), Says(rules, path, l);
    SaysSub(rules, path, s, Index(0));
    SaysSub(rules, path, l, Index(0));
    forall seg ensures seg in a.subs <==> seg in b.subs {
      SaysSub(rules, path, s, seg);
      SaysSub(rules, path, l, seg);
      assert Visits(rules, path, s, l, seg) || (!Visits(rules, path, s, s, seg) && !Visits(rules, path, l, l, seg));
    }
    forall seg | seg in a.subs ensures a.subs[seg] == b.subs[seg] {
      SaysSub(rules, path, s, seg);
      SaysSub(rules, path, l, seg);
      assert Visits(rules, path, s, l, seg);
    }
    assert a.subs == b.subs;
  }

  lemma SaysSubsAgree(rules: Rules, path: Path, s: Json, l: Json)
    requires Descends(s, l) && Says(rules, path, s) == Says(rules, path, l)
    ensures SubsAgree(rules, path, s, l)
  {
    SaysSub(rules, path, s, Index(0));
    SaysSub(rules, path, l, Index(0));
    forall seg | Visits(rules, path, s, s, seg) || Visits(rules, path, l, l, seg)
      ensures Sub(s, seg).Some? && Sub(l, seg).Some? && Visits(rules, path, s, s, seg)
      ensures Says(rules, path + [seg], Sub(s, seg).value) == Says(rules, path + [seg], Sub(l, seg).value)
    {
      SaysSub(rules, path, s, seg);
      SaysSub(rules, path, l, seg);
    }
    if s.List? {
      var pairing := PairKey(rules, path, s.elems, s.elems);
      forall seg | Listed(pairing, s, l, seg)
        ensures Sub(s, seg).Some? && Sub(l, seg).Some? && SameNames(Sub(s, seg).value, Sub(l, seg).value)
      {
        if Sub(s, seg).Some? { assert Visits(rules, path, s, s, seg); } else { assert Visits(rules, path, l, l, seg); }
        SaysNames(rules, path + [seg], Sub(s, seg).value, Sub(l, seg).value);
      }
      AgreeingLists(rules, path, s, l, pairing);
    }
    forall seg | Visits(rules, path, s, l, seg) ensures Visits(rules, path, s, s, seg) || Visits(rules, path, l, l, seg) {
    }
  }

  ghost predicate Silent(rules: Rules, path: Path, s: Json, l: Json, seg: Seg) {
    Sub(s, seg).Some? && Sub(l, seg).Some? && Walk(rules, path + [seg], Sub(s, seg).value, Sub(l, seg).value) == []
  }

  lemma EmptyVisit(rules: Rules, path: Path, s: Json, l: Json, seg: Seg)
    requires Descends(s, l) && Visits(rules, path, s, l, seg)
    ensures Visit(rules, path, s, l, seg) == [] <==> Silent(rules, path, s, l, seg)
  {
  }

  lemma EmptyWalk(rules: Rules, path: Path, s: Json, l: Json)
    requires Descends(s, l)
    ensures Walk(rules, path, s, l) == [] <==>
            forall seg :: Visits(rules, path, s, l, seg) ==> Silent(rules, path, s, l, seg)
  {
    SegsMembers(rules, path, s, l);
    var segs, parts := Segs(rules, path, s, l), Parts(rules, path, s, l);
    FlattenEmpty(parts);
    forall i | 0 <= i < |segs|
      ensures Visits(rules, path, s, l, segs[i]) && (parts[i] == [] <==> Silent(rules, path, s, l, segs[i]))
    {
      assert segs[i] in segs;
      EmptyVisit(rules, path, s, l, segs[i]);
    }
    forall seg | Visits(rules, path, s, l, seg) ensures exists i :: 0 <= i < |segs| && segs[i] == seg {
      assert seg in segs;
    }
  }

  /** The walk is sound and complete: it reports nothing exactly when the two trees are equal up to the
      order of the lists whose key identifies every element on both sides. */
  lemma {:induction false} WalkFindsNothing(rules: Rules, path: Path, s: Json, l: Json)
    ensures Walk(rules, path, s, l) == [] <==> Says(rules, path, s) == Says(rules, path, l)
    decreases s
  {
    if Descends(s, l) {
      EmptyWalk(rules, path, s, l);
      forall seg | Sub(s, seg).Some? && Sub(l, seg).Some?
        ensures Silent(rules, path, s, l, seg) <==>
                Says(rules, path + [seg], Sub(s, seg).value) == Says(rules, path + [seg], Sub(l, seg).value)
      {
        WalkFindsNothing(rules, path + [seg], Sub(s, seg).value, Sub(l, seg).value);
      }
      assert Walk(rules, path, s, l) == [] <==> SubsAgree(rules, path, s, l);
      if SubsAgree(rules, path, s, l) { SubsAgreeSays(rules, path, s, l); }
      if Says(rules, path, s) == Says(rules, path, l) { SaysSubsAgree(rules, path, s, l); }
    } else if Says(rules, path, s) == Says(rules, path, l) {
      SaysKind(rules, path, s, l);
    }
  }
}
