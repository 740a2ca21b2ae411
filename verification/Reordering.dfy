/** Permuting the lists that are paired by key, at any depth and on either side, is invisible to the walk. */
module Reordering {
  import opened Order
  import opened Json
  import opened TreeDiff
  import opened Meaning
  import opened WalkLaws

  // ---- the structural relation ----

  /** (s2, l2) is (s, l) with the elements of lists that are paired by key put in any orders, at any depth.
      What the walk does not go inside, and what only one side has, is as it was. */
  ghost predicate Permuted(rules: Rules, path: Path, s: Json, l: Json, s2: Json, l2: Json)
    decreases s, 1
  {
    if s.Obj? && l.Obj? then s2.Obj? && l2.Obj? && FieldsPermuted(rules, path, s, l, s2, l2)
    else if s.List? && l.List? then
      && s2.List? && l2.List?
      && match PairKey(rules, path, s.elems, l.elems)
         case None => PlacesPermuted(rules, path, s, l, s2.elems, l2.elems)
         case Some(key) =>
           exists a, b :: NamesPermuted(rules, path, key, s, l, a, b) && multiset(a) == multiset(s2.elems) && multiset(b) == multiset(l2.elems)
    else s2 == s && l2 == l
  }

  ghost predicate FieldsPermuted(rules: Rules, path: Path, s: Json, l: Json, s2: Json, l2: Json)
    requires s.Obj? && l.Obj? && s2.Obj? && l2.Obj?
    decreases s, 0
  {
    && s2.fields.Keys == s.fields.Keys && l2.fields.Keys == l.fields.Keys
    && (forall k :: k in s.fields && k !in l.fields ==> s2.fields[k] == s.fields[k])
    && (forall k :: k in l.fields && k !in s.fields ==> l2.fields[k] == l.fields[k])
    && (forall k :: k in s.fields && k in l.fields ==>
          Permuted(rules, path + [Key(k)], s.fields[k], l.fields[k], s2.fields[k], l2.fields[k]))
  }

  /** Elements of one name are again so related; the others are as they were. */
  ghost predicate NamesPermuted(rules: Rules, path: Path, key: string, s: Json, l: Json, a: seq<Json>, b: seq<Json>)
    requires s.List? && l.List?
    decreases s, 0
  {
    && |a| == |s.elems| && |b| == |l.elems|
    && (forall i :: 0 <= i < |a| && !HasName(l.elems, key, NameOf(s.elems[i], key)) ==> a[i] == s.elems[i])
    && (forall j :: 0 <= j < |b| && !HasName(s.elems, key, NameOf(l.elems[j], key)) ==> b[j] == l.elems[j])
    && (forall i, j :: 0 <= i < |a| && 0 <= j < |b| && NameOf(s.elems[i], key) == NameOf(l.elems[j], key) ==>
          Permuted(rules, path + [Elem(key, NameOf(s.elems[i], key))], s.elems[i], l.elems[j], a[i], b[j]))
  }

  ghost predicate PlacesPermuted(rules: Rules, path: Path, s: Json, l: Json, a: seq<Json>, b: seq<Json>)
    requires s.List? && l.List?
    decreases s, 0
  {
    && |a| == |s.elems| && |b| == |l.elems|
    && (forall i :: |b| <= i < |a| ==> a[i] == s.elems[i])
    && (forall i :: |a| <= i < |b| ==> b[i] == l.elems[i])
    && (forall i :: 0 <= i < |a| && i < |b| ==> Permuted(rules, path + [Index(i)], s.elems[i], l.elems[i], a[i], b[i]))
  }

  // ---- names survive ----

  lemma PermutedScalars(rules: Rules, path: Path, s: Json, l: Json, s2: Json, l2: Json)
    requires Permuted(rules, path, s, l, s2, l2)
    ensures Scalar(s2) == Scalar(s) && Scalar(l2) == Scalar(l)
    ensures s2.Obj? == s.Obj? && l2.Obj? == l.Obj? && s2.List? == s.List? && l2.List? == l.List?
  {
  }

  lemma PermutedNames(rules: Rules, path: Path, s: Json, l: Json, s2: Json, l2: Json)
    requires Permuted(rules, path, s, l, s2, l2)
    ensures SameNames(s, s2) && SameNames(l, l2)
  {
    PermutedScalars(rules, path, s, l, s2, l2);
    if s.Obj? && l.Obj? {
      forall k ensures Name(s, k) == Name(s2, k) && Name(l, k) == Name(l2, k) {
        if k in s.fields && k in l.fields {
          PermutedScalars(rules, path + [Key(k)], s.fields[k], l.fields[k], s2.fields[k], l2.fields[k]);
        }
      }
    }
  }

  ghost predicate SameNamesEach(a: seq<Json>, b: seq<Json>) {
    |a| == |b| && forall i :: 0 <= i < |a| ==> SameNames(a[i], b[i])
  }

  lemma {:induction false} SameNamesFirstKey(keys: seq<string>, s: seq<Json>, l: seq<Json>, a: seq<Json>, b: seq<Json>)
    requires SameNamesEach(s, a) && SameNamesEach(l, b)
    ensures FirstKey(keys, a, b) == FirstKey(keys, s, l)
  {
    if keys != [] {
      assert forall i :: 0 <= i < |s| ==> Name(s[i], keys[0]) == Name(a[i], keys[0]);
      assert forall i :: 0 <= i < |l| ==> Name(l[i], keys[0]) == Name(b[i], keys[0]);
      SameNamesFirstKey(keys[1..], s, l, a, b);
    }
  }

  lemma NamedElementsKeepNames(rules: Rules, path: Path, key: string, s: Json, l: Json, a: seq<Json>, b: seq<Json>)
    requires s.List? && l.List? && Identifies(s.elems, key) && Identifies(l.elems, key)
    requires NamesPermuted(rules, path, key, s, l, a, b)
    ensures SameNamesEach(s.elems, a) && SameNamesEach(l.elems, b)
  {
    forall i | 0 <= i < |a| ensures SameNames(s.elems[i], a[i]) {
      var n := NameOf(s.elems[i], key);
      if HasName(l.elems, key, n) {
        var j :| 0 <= j < |b| && Name(l.elems[j], key) == Some(n);
        PermutedNames(rules, path + [Elem(key, n)], s.elems[i], l.elems[j], a[i], b[j]);
      }
    }
    forall j | 0 <= j < |b| ensures SameNames(l.elems[j], b[j]) {
      var n := NameOf(l.elems[j], key);
      if HasName(s.elems, key, n) {
        var i :| 0 <= i < |a| && Name(s.elems[i], key) == Some(n);
        PermutedNames(rules, path + [Elem(key, n)], s.elems[i], l.elems[j], a[i], b[j]);
      }
    }
  }

  lemma PlacedElementsKeepNames(rules: Rules, path: Path, s: Json, l: Json, a: seq<Json>, b: seq<Json>)
    requires s.List? && l.List? && PlacesPermuted(rules, path, s, l, a, b)
    ensures SameNamesEach(s.elems, a) && SameNamesEach(l.elems, b)
  {
    forall i | 0 <= i < |a| && i < |b| ensures SameNames(s.elems[i], a[i]) && SameNames(l.elems[i], b[i]) {
      PermutedNames(rules, path + [Index(i)], s.elems[i], l.elems[i], a[i], b[i]);
    }
  }

  /** The same names give the same element, or none. */
  lemma FindRenamed(a: seq<Json>, b: seq<Json>, key: string, n: string)
    requires SameNamesEach(a, b) && Identifies(a, key)
    ensures Identifies(b, key)
    ensures Find(a, key, n).Some? <==> Find(b, key, n).Some?
    ensures Find(a, key, n).Some? ==> exists i :: 0 <= i < |a| && NameOf(a[i], key) == n && Find(a, key, n) == Some(a[i]) && Find(b, key, n) == Some(b[i])
  {
    assert forall i :: 0 <= i < |a| ==> Name(a[i], key) == Name(b[i], key);
    if HasName(b, key, n) {
      var i :| 0 <= i < |b| && Name(b[i], key) == Some(n);
      assert Name(a[i], key) == Some(n);
    }
    if HasName(a, key, n) {
      var i :| 0 <= i < |a| && Name(a[i], key) == Some(n);
      FindSelf(a, key, i);
      FindSelf(b, key, i);
      assert NameOf(a[i], key) == n && Find(a, key, n) == Some(a[i]) && Find(b, key, n) == Some(b[i]);
    }
  }

  // ---- a permuted pair is a reordered one ----

  lemma {:induction false} PermutedIsReordered(rules: Rules, path: Path, s: Json, l: Json, s2: Json, l2: Json)
    requires Permuted(rules, path, s, l, s2, l2)
    ensures Reordered(rules, path, s, l, s2, l2)
    decreases s, 1
  {
    hide FieldsPermuted, NamesPermuted, PlacesPermuted, PairKey;
    if s.Obj? && l.Obj? {
      FieldsAreReordered(rules, path, s, l, s2, l2);
    } else if s.List? && l.List? {
      match PairKey(rules, path, s.elems, l.elems)
      case None => PlacesAreReordered(rules, path, s, l, s2, l2);
      case Some(key) =>
        var a, b :| NamesPermuted(rules, path, key, s, l, a, b) && multiset(a) == multiset(s2.elems) && multiset(b) == multiset(l2.elems);
        NamesAreReordered(rules, path, key, s, l, a, b, s2, l2);
    }
  }

  lemma FieldsAreReordered(rules: Rules, path: Path, s: Json, l: Json, s2: Json, l2: Json)
    requires s.Obj? && l.Obj? && s2.Obj? && l2.Obj? && FieldsPermuted(rules, path, s, l, s2, l2)
    ensures Reordered(rules, path, s, l, s2, l2)
    decreases s, 0
  {
    hide Permuted;
    forall seg | Sub(s, seg).Some? && Sub(l, seg).Some? && Sub(s2, seg).Some? && Sub(l2, seg).Some?
      ensures Reordered(rules, path + [seg], Sub(s, seg).value, Sub(l, seg).value, Sub(s2, seg).value, Sub(l2, seg).value)
    {
      PermutedIsReordered(rules, path + [seg], Sub(s, seg).value, Sub(l, seg).value, Sub(s2, seg).value, Sub(l2, seg).value);
    }
  }

  lemma PlacesAreReordered(rules: Rules, path: Path, s: Json, l: Json, s2: Json, l2: Json)
    requires s.List? && l.List? && s2.List? && l2.List? && PairKey(rules, path, s.elems, l.elems).None?
    requires PlacesPermuted(rules, path, s, l, s2.elems, l2.elems)
    ensures Reordered(rules, path, s, l, s2, l2)
    decreases s, 0
  {
    PlacedElementsKeepNames(rules, path, s, l, s2.elems, l2.elems);
    SameNamesFirstKey(rules.keysAt(path), s.elems, l.elems, s2.elems, l2.elems);
    forall seg | Listed(None, s, l, seg) && Sub(s, seg).Some? && Sub(l, seg).Some?
      ensures Reordered(rules, path + [seg], Sub(s, seg).value, Sub(l, seg).value, Sub(s2, seg).value, Sub(l2, seg).value)
    {
      PermutedIsReordered(rules, path + [seg], Sub(s, seg).value, Sub(l, seg).value, Sub(s2, seg).value, Sub(l2, seg).value);
    }
  }

  /** One name, on both sides, before and after. */
  ghost predicate NameReordered(rules: Rules, path: Path, key: string, n: string, s: seq<Json>, l: seq<Json>, s2: seq<Json>, l2: seq<Json>) {
    && (Find(s, key, n).Some? <==> Find(s2, key, n).Some?)
    && (Find(l, key, n).Some? <==> Find(l2, key, n).Some?)
    && (Find(s, key, n).Some? && Find(l, key, n).Some? ==>
          Reordered(rules, path + [Elem(key, n)], Find(s, key, n).value, Find(l, key, n).value, Find(s2, key, n).value, Find(l2, key, n).value))
  }

  lemma NamesAreReordered(rules: Rules, path: Path, key: string, s: Json, l: Json, a: seq<Json>, b: seq<Json>, s2: Json, l2: Json)
    requires s.List? && l.List? && s2.List? && l2.List? && PairKey(rules, path, s.elems, l.elems) == Some(key)
    requires NamesPermuted(rules, path, key, s, l, a, b) && multiset(a) == multiset(s2.elems) && multiset(b) == multiset(l2.elems)
    ensures Reordered(rules, path, s, l, s2, l2)
    decreases s, 0
  {
    NamedElementsKeepNames(rules, path, key, s, l, a, b);
    SameNamesFirstKey(rules.keysAt(path), s.elems, l.elems, a, b);
    ShuffleFirstKey(rules.keysAt(path), a, s2.elems, b, l2.elems);
    hide Reordered;
    forall n: string ensures NameReordered(rules, path, key, n, s.elems, l.elems, s2.elems, l2.elems) {
      FindRenamed(s.elems, a, key, n);
      FindRenamed(l.elems, b, key, n);
      ShuffleFind(a, s2.elems, key, n);
      ShuffleFind(b, l2.elems, key, n);
      if Find(s.elems, key, n).Some? && Find(l.elems, key, n).Some? {
        var i :| 0 <= i < |a| && NameOf(s.elems[i], key) == n && Find(s.elems, key, n) == Some(s.elems[i]) && Find(a, key, n) == Some(a[i]);
        var j :| 0 <= j < |b| && NameOf(l.elems[j], key) == n && Find(l.elems, key, n) == Some(l.elems[j]) && Find(b, key, n) == Some(b[j]);
        PermutedIsReordered(rules, path + [Elem(key, n)], s.elems[i], l.elems[j], a[i], b[j]);
      }
    }
    hide NamesPermuted, SameNamesEach;
    EachNameReordered(rules, path, key, s, l, s2, l2);
  }

  lemma EachNameReordered(rules: Rules, path: Path, key: string, s: Json, l: Json, s2: Json, l2: Json)
    requires s.List? && l.List? && s2.List? && l2.List?
    requires PairKey(rules, path, s.elems, l.elems) == PairKey(rules, path, s2.elems, l2.elems) == Some(key)
    requires forall n :: NameReordered(rules, path, key, n, s.elems, l.elems, s2.elems, l2.elems)
    ensures Reordered(rules, path, s, l, s2, l2)
  {
    hide Find;
    forall n: string
      ensures NameReordered(rules, path, key, n, s.elems, l.elems, s2.elems, l2.elems)
      ensures Sub(s, Elem(key, n)) == Find(s.elems, key, n) && Sub(l, Elem(key, n)) == Find(l.elems, key, n)
      ensures Sub(s2, Elem(key, n)) == Find(s2.elems, key, n) && Sub(l2, Elem(key, n)) == Find(l2.elems, key, n)
    {
    }
  }

  // ---- permutations anywhere ----

  lemma {:induction false} PermutedSelf(rules: Rules, path: Path, s: Json, l: Json)
    ensures Permuted(rules, path, s, l, s, l)
    decreases s, 1
  {
    if s.Obj? && l.Obj? {
      forall k | k in s.fields && k in l.fields
        ensures Permuted(rules, path + [Key(k)], s.fields[k], l.fields[k], s.fields[k], l.fields[k])
      {
        PermutedSelf(rules, path + [Key(k)], s.fields[k], l.fields[k]);
      }
    } else if s.List? && l.List? {
      match PairKey(rules, path, s.elems, l.elems)
      case None =>
        forall i | 0 <= i < |s.elems| && i < |l.elems|
          ensures Permuted(rules, path + [Index(i)], s.elems[i], l.elems[i], s.elems[i], l.elems[i])
        {
          PermutedSelf(rules, path + [Index(i)], s.elems[i], l.elems[i]);
        }
        assert PlacesPermuted(rules, path, s, l, s.elems, l.elems);
      case Some(key) =>
        NamesSelf(rules, path, key, s, l);
    }
  }

  lemma NamesSelf(rules: Rules, path: Path, key: string, s: Json, l: Json)
    requires s.List? && l.List?
    ensures NamesPermuted(rules, path, key, s, l, s.elems, l.elems)
    decreases s, 0
  {
    forall i, j | 0 <= i < |s.elems| && 0 <= j < |l.elems| && NameOf(s.elems[i], key) == NameOf(l.elems[j], key)
      ensures Permuted(rules, path + [Elem(key, NameOf(s.elems[i], key))], s.elems[i], l.elems[j], s.elems[i], l.elems[j])
    {
      PermutedSelf(rules, path + [Elem(key, NameOf(s.elems[i], key))], s.elems[i], l.elems[j]);
    }
  }

  /** Any permutation of two lists that are paired by key. */
  lemma ShuffledLists(rules: Rules, path: Path, s: seq<Json>, l: seq<Json>, s2: seq<Json>, l2: seq<Json>)
    requires PairKey(rules, path, s, l).Some? && multiset(s) == multiset(s2) && multiset(l) == multiset(l2)
    ensures Permuted(rules, path, List(s), List(l), List(s2), List(l2))
  {
    NamesSelf(rules, path, PairKey(rules, path, s, l).value, List(s), List(l));
  }

  /** The list with the first element of a name replaced. */
  function PutNamed(list: seq<Json>, key: string, name: string, v: Json): seq<Json> {
    if list == [] then []
    else if Name(list[0], key) == Some(name) then [v] + list[1..]
    else [list[0]] + PutNamed(list[1..], key, name, v)
  }

  /** A tree with what a segment leads to replaced. */
  function Put(j: Json, seg: Seg, v: Json): Json {
    match seg
    case Key(k) => if j.Obj? then Obj(j.fields[k := v]) else j
    case Elem(key, name) => if j.List? then List(PutNamed(j.elems, key, name, v)) else j
    case Index(i) => if j.List? && i < |j.elems| then List(j.elems[i := v]) else j
  }

  function PutAt(j: Json, place: Path, v: Json): Json
    decreases place
  {
    if place == [] then v
    else match Sub(j, place[0])
      case None => j
      case Some(inner) => Put(j, place[0], PutAt(inner, place[1..], v))
  }

  /** The walk goes into both trees along a place, and there finds these two values. */
  ghost predicate Reaches(rules: Rules, path: Path, place: Path, s: Json, l: Json, x: Json, y: Json)
    decreases place
  {
    if place == [] then x == s && y == l
    else
      && Descends(s, l) && Visits(rules, path, s, l, place[0])
      && Sub(s, place[0]).Some? && Sub(l, place[0]).Some?
      && Reaches(rules, path + [place[0]], place[1..], Sub(s, place[0]).value, Sub(l, place[0]).value, x, y)
  }

  lemma {:induction false} PutNamedAt(list: seq<Json>, key: string, name: string, v: Json) returns (i: nat)
    requires HasName(list, key, name)
    ensures i < |list| && Name(list[i], key) == Some(name) && PutNamed(list, key, name, v) == list[i := v] && Find(list, key, name) == Some(list[i])
  {
    if Name(list[0], key) == Some(name) {
      i := 0;
    } else {
      var k :| 0 <= k < |list| && Name(list[k], key) == Some(name);
      assert list[1..][k - 1] == list[k];
      i := PutNamedAt(list[1..], key, name, v);
      i := i + 1;
    }
  }

  lemma PutFieldPermuted(rules: Rules, path: Path, s: Json, l: Json, k: string, x: Json, y: Json)
    requires s.Obj? && l.Obj? && k in s.fields && k in l.fields
    requires Permuted(rules, path + [Key(k)], s.fields[k], l.fields[k], x, y)
    ensures Permuted(rules, path, s, l, Put(s, Key(k), x), Put(l, Key(k), y))
  {
    forall f | f in s.fields && f in l.fields && f != k
      ensures Permuted(rules, path + [Key(f)], s.fields[f], l.fields[f], s.fields[f], l.fields[f])
    {
      PermutedSelf(rules, path + [Key(f)], s.fields[f], l.fields[f]);
    }
  }

  lemma OnlyNamed(list: seq<Json>, key: string, n: string, p: nat, i: nat)
    requires Identifies(list, key) && p < |list| && i < |list| && Name(list[p], key) == Some(n)
    ensures NameOf(list[i], key) == n <==> i == p
  {
    assert Name(list[i], key).Some?;
    if i < p { assert Name(list[i], key) != Name(list[p], key); }
    if p < i { assert Name(list[p], key) != Name(list[i], key); }
  }

  lemma PutElementPermuted(rules: Rules, path: Path, s: Json, l: Json, key: string, n: string, x: Json, y: Json)
    requires s.List? && l.List? && PairKey(rules, path, s.elems, l.elems) == Some(key)
    requires Find(s.elems, key, n).Some? && Find(l.elems, key, n).Some?
    requires Permuted(rules, path + [Elem(key, n)], Find(s.elems, key, n).value, Find(l.elems, key, n).value, x, y)
    ensures Permuted(rules, path, s, l, Put(s, Elem(key, n), x), Put(l, Elem(key, n), y))
  {
    hide Permuted, Find, PutNamed, Identifies, PairKey;
    var p := PutNamedAt(s.elems, key, n, x);
    var q := PutNamedAt(l.elems, key, n, y);
    NamesSelf(rules, path, key, s, l);
    OneNamePermuted(rules, path, key, n, s, l, p, q, x, y);
    PermutedLists(rules, path, key, s, l, s.elems[p := x], l.elems[q := y]);
  }

  lemma OneNamePermuted(rules: Rules, path: Path, key: string, n: string, s: Json, l: Json, p: nat, q: nat, x: Json, y: Json)
    requires s.List? && l.List? && Identifies(s.elems, key) && Identifies(l.elems, key)
    requires p < |s.elems| && q < |l.elems| && Name(s.elems[p], key) == Name(l.elems[q], key) == Some(n)
    requires Permuted(rules, path + [Elem(key, n)], s.elems[p], l.elems[q], x, y)
    requires NamesPermuted(rules, path, key, s, l, s.elems, l.elems)
    ensures NamesPermuted(rules, path, key, s, l, s.elems[p := x], l.elems[q := y])
  {
    hide Permuted;
    assert HasName(s.elems, key, n) && HasName(l.elems, key, n);
    forall i | 0 <= i < |s.elems| ensures NameOf(s.elems[i], key) == n <==> i == p { OnlyNamed(s.elems, key, n, p, i); }
    forall j | 0 <= j < |l.elems| ensures NameOf(l.elems[j], key) == n <==> j == q { OnlyNamed(l.elems, key, n, q, j); }
    hide Identifies, HasName, NameOf, Name;
  }

  lemma PermutedLists(rules: Rules, path: Path, key: string, s: Json, l: Json, a: seq<Json>, b: seq<Json>)
    requires s.List? && l.List? && PairKey(rules, path, s.elems, l.elems) == Some(key) && NamesPermuted(rules, path, key, s, l, a, b)
    ensures Permuted(rules, path, s, l, List(a), List(b))
  {
    assert multiset(a) == multiset(List(a).elems) && multiset(b) == multiset(List(b).elems);
  }

  lemma PutPlacePermuted(rules: Rules, path: Path, s: Json, l: Json, i: nat, x: Json, y: Json)
    requires s.List? && l.List? && PairKey(rules, path, s.elems, l.elems).None? && i < |s.elems| && i < |l.elems|
    requires Permuted(rules, path + [Index(i)], s.elems[i], l.elems[i], x, y)
    ensures Permuted(rules, path, s, l, Put(s, Index(i), x), Put(l, Index(i), y))
  {
    forall k | 0 <= k < |s.elems| && k < |l.elems| && k != i
      ensures Permuted(rules, path + [Index(k)], s.elems[k], l.elems[k], s.elems[k], l.elems[k])
    {
      PermutedSelf(rules, path + [Index(k)], s.elems[k], l.elems[k]);
    }
    assert PlacesPermuted(rules, path, s, l, s.elems[i := x], l.elems[i := y]);
  }

  /** What is permuted at any place the walk reaches is permuted in the whole. */
  lemma {:induction false} PermutedBelow(rules: Rules, path: Path, place: Path, s: Json, l: Json, x: Json, y: Json, x2: Json, y2: Json)
    requires Reaches(rules, path, place, s, l, x, y) && Permuted(rules, path + place, x, y, x2, y2)
    ensures Permuted(rules, path, s, l, PutAt(s, place, x2), PutAt(l, place, y2))
    decreases place
  {
    if place == [] {
      assert path + place == path;
    } else {
      var seg, rest := place[0], place[1..];
      var a, b := Sub(s, seg).value, Sub(l, seg).value;
      assert path + [seg] + rest == path + place;
      PermutedBelow(rules, path + [seg], rest, a, b, x, y, x2, y2);
      var c, d := PutAt(a, rest, x2), PutAt(b, rest, y2);
      hide Permuted, PutAt;
      match seg
      case Key(k) => PutFieldPermuted(rules, path, s, l, k, c, d);
      case Elem(key, n) => PutElementPermuted(rules, path, s, l, key, n, c, d);
      case Index(i) => PutPlacePermuted(rules, path, s, l, i, c, d);
      PutOnce(s, seg, rest, x2);
      PutOnce(l, seg, rest, y2);
      assert [seg] + rest == place;
    }
  }

  lemma PutOnce(j: Json, seg: Seg, rest: Path, v: Json)
    requires Sub(j, seg).Some?
    ensures PutAt(j, [seg] + rest, v) == Put(j, seg, PutAt(Sub(j, seg).value, rest, v))
  {
    assert ([seg] + rest)[1..] == rest;
  }

  lemma {:induction false} AfterDot(front: string, k: string)
    ensures AfterLastDot(front + "." + k) == AfterLastDot(k)
    decreases front
  {
    var s := front + "." + k;
    if front == [] {
      assert s[1..] == k;
      NoDots(k);
    } else {
      assert s[1..] == front[1..] + "." + k;
      assert s[1..][|front| - 1] == '.';
      AfterDot(front[1..], k);
    }
  }

  lemma {:induction false} NoDots(k: string)
    ensures if '.' in k then |AfterLastDot(k)| < |k| else AfterLastDot(k) == k
  {
    if k != [] { NoDots(k[1..]); }
  }

  lemma {:induction false} NoBracket(k: string)
    ensures BeforeBracket(k) == k <==> '[' !in k
    ensures |BeforeBracket(k)| <= |k|
  {
    if k != [] { NoBracket(k[1..]); }
  }

  /** Wherever a path starts, the comparison's own table is asked for its last field: for what stands after the last dot
      and before the first bracket in the field's name, which is the name itself exactly when it holds neither. */
  lemma FieldsHaveTheirKeys(path: Path, k: string, secret: bool)
    ensures KubeRules(secret).keysAt(path + [Key(k)]) == MergeKeys(FieldOf(k))
    ensures FieldOf(k) == k <==> '.' !in k && '[' !in k
  {
    assert (path + [Key(k)])[..|path|] == path;
    assert Render(path + [Key(k)]) == Join(Render(path), k);
    AfterDot(Render(path), k);
    NameStandsAlone(k);
    hide Render, AfterLastDot, MergeKeys;
  }

  lemma NameStandsAlone(k: string)
    ensures FieldOf(k) == k <==> '.' !in k && '[' !in k
  {
    NoDots(k);
    NoBracket(k);
    NoBracket(AfterLastDot(k));
    hide AfterLastDot, BeforeBracket;
  }

  // ---- the comparison does not see it ----

  ghost predicate Shows(rows: seq<Difference>, path: Path, kind: Kind) {
    exists d :: d in rows && d.path == path && d.kind == kind
  }

  /** Permuting the lists that are paired by key, at any depth and on either side, leaves the number of
      differences as it was, and the paths and kinds the comparison lists, as long as it lists them all. */
  lemma PermutingIsInvisible(source: Fields, live: Fields, source2: Fields, live2: Fields, secret: bool)
    requires Permuted(KubeRules(secret), [], Obj(source), Obj(live), Obj(source2), Obj(live2))
    ensures
      var all, all2 := Walk(KubeRules(secret), [], Obj(source), Obj(live)), Walk(KubeRules(secret), [], Obj(source2), Obj(live2));
      && |all| == |all2| && (forall path, kind :: Shows(all, path, kind) <==> Shows(all2, path, kind))
      && (|all| <= DIFFERENCE_LIMIT ==>
            forall path, kind :: Shows(Compare(source, live, secret), path, kind) <==> Shows(Compare(source2, live2, secret), path, kind))
  {
    var rules := KubeRules(secret);
    var all, all2 := Walk(rules, [], Obj(source), Obj(live)), Walk(rules, [], Obj(source2), Obj(live2));
    hide *;
    PermutedIsReordered(rules, [], Obj(source), Obj(live), Obj(source2), Obj(live2));
    forall path, kind ensures Shows(all, path, kind) <==> Shows(all2, path, kind) {
      ReorderingIsInvisible(rules, Obj(source), Obj(live), Obj(source2), Obj(live2), path, kind);
      ShowsIsReports(rules, Obj(source), Obj(live), path, kind);
      ShowsIsReports(rules, Obj(source2), Obj(live2), path, kind);
    }
    RowsApart(rules, [], Obj(source), Obj(live));
    RowsApart(rules, [], Obj(source2), Obj(live2));
    SameShowsSamePaths(all, all2);
    SamePathsSameCount(all, all2);
    UncappedCompare(source, live, secret);
    UncappedCompare(source2, live2, secret);
    if |all| <= DIFFERENCE_LIMIT {
      forall path, kind ensures Shows(Compare(source, live, secret), path, kind) <==> Shows(Compare(source2, live2, secret), path, kind) {
        SameRowsShow(all, Compare(source, live, secret), path, kind);
        SameRowsShow(all2, Compare(source2, live2, secret), path, kind);
      }
    }
  }

  lemma ShowsIsReports(rules: Rules, s: Json, l: Json, path: Path, kind: Kind)
    ensures Shows(Walk(rules, [], s, l), path, kind) <==> Reports(rules, s, l, path, kind)
  {
    hide Walk;
  }

  lemma SameRowsShow(a: seq<Difference>, b: seq<Difference>, path: Path, kind: Kind)
    requires forall d :: d in b <==> d in a
    ensures Shows(a, path, kind) <==> Shows(b, path, kind)
  {
  }

  lemma SameShowsSamePaths(a: seq<Difference>, b: seq<Difference>)
    requires forall path, kind :: Shows(a, path, kind) <==> Shows(b, path, kind)
    ensures forall path :: HasPath(a, path) <==> HasPath(b, path)
  {
    forall path ensures HasPath(a, path) <==> HasPath(b, path) {
      if HasPath(a, path) {
        var d :| d in a && d.path == path;
        assert Shows(a, path, d.kind);
      }
      if HasPath(b, path) {
        var d :| d in b && d.path == path;
        assert Shows(b, path, d.kind);
      }
    }
  }

  /** In particular: two lists the walk pairs by key, at whatever place it finds them, may be put in any orders. */
  lemma ShufflingIsInvisible(source: Fields, live: Fields, secret: bool, place: Path, s: seq<Json>, l: seq<Json>, s2: seq<Json>, l2: seq<Json>)
    requires Reaches(KubeRules(secret), [], place, Obj(source), Obj(live), List(s), List(l))
    requires PairKey(KubeRules(secret), place, s, l).Some? && multiset(s) == multiset(s2) && multiset(l) == multiset(l2)
    ensures
      var a, b := PutAt(Obj(source), place, List(s2)), PutAt(Obj(live), place, List(l2));
      && a.Obj? && b.Obj?
      && var all, all2 := Walk(KubeRules(secret), [], Obj(source), Obj(live)), Walk(KubeRules(secret), [], a, b);
         && |all| == |all2| && (forall path, kind :: Shows(all, path, kind) <==> Shows(all2, path, kind))
         && (|all| <= DIFFERENCE_LIMIT ==>
               forall path, kind :: Shows(Compare(source, live, secret), path, kind) <==> Shows(Compare(a.fields, b.fields, secret), path, kind))
  {
    var rules := KubeRules(secret);
    hide *;
    var a, b := PutAt(Obj(source), place, List(s2)), PutAt(Obj(live), place, List(l2));
    assert [] + place == place;
    ShuffledLists(rules, place, s, l, s2, l2);
    PermutedBelow(rules, [], place, Obj(source), Obj(live), List(s), List(l), List(s2), List(l2));
    PermutedScalars(rules, [], Obj(source), Obj(live), a, b);
    PermutingIsInvisible(source, live, a.fields, b.fields, secret);
  }
}
