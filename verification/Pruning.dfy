/** Editing a decoded object in place: reading, removing and setting nested fields, and what each edit
    leaves untouched. */
module Pruning {
  import opened Order
  import opened Json

  function Steps(path: seq<string>): seq<Step> {
    seq(|path|, i requires 0 <= i < |path| => Field(path[i]))
  }

  /** unstructured.NestedFieldNoCopy, with a missing field and a non-object on the way both read as absent. */
  function Nested(j: Json, path: seq<string>): Option<Json> {
    if path == [] then Some(j)
    else if j.Obj? && path[0] in j.fields then Nested(j.fields[path[0]], path[1..])
    else None
  }

  predicate Sets(j: Json, path: seq<string>) {
    Nested(j, path).Some?
  }

  /** The value as the code reads it, where absent and null are one. */
  function NestedOrNull(j: Json, path: seq<string>): Json {
    Nested(j, path).GetOr(Null)
  }

  /** unstructured.RemoveNestedField. */
  function Remove(j: Json, path: seq<string>): Json {
    if path == [] || !j.Obj? || path[0] !in j.fields then j
    else if |path| == 1 then Obj(j.fields - {path[0]})
    else Obj(j.fields[path[0] := Remove(j.fields[path[0]], path[1..])])
  }

  function RemoveAll(j: Json, paths: seq<seq<string>>): Json
    decreases paths
  {
    if paths == [] then j else RemoveAll(Remove(j, paths[0]), paths[1..])
  }

  /** unstructured.SetNestedMap with an empty map: intermediate objects are created, and a value in the
      way that is not an object leaves everything as it was. */
  function SetEmpty(j: Json, path: seq<string>): Json
    decreases path
  {
    if path == [] || !j.Obj? then j
    else if |path| == 1 then Obj(j.fields[path[0] := Obj(map[])])
    else Obj(j.fields[path[0] := SetEmpty(if path[0] in j.fields then j.fields[path[0]] else Obj(map[]), path[1..])])
  }

  // ---- what a removal leaves ----

  lemma StepsTail(path: seq<string>)
    requires path != []
    ensures Steps(path) == [Field(path[0])] + Steps(path[1..])
  {
  }

  lemma StepsPrefix(path: seq<string>, place: seq<Step>)
    requires path != []
    ensures Steps(path) <= place <==> place != [] && place[0] == Field(path[0]) && Steps(path[1..]) <= place[1..]
  {
    StepsTail(path);
    if place != [] { assert place == [place[0]] + place[1..]; }
  }

  lemma {:induction false} NestedLookup(j: Json, path: seq<string>)
    ensures Nested(j, path) == Lookup(j, Steps(path))
  {
    if path != [] {
      StepsTail(path);
      if j.Obj? && path[0] in j.fields { NestedLookup(j.fields[path[0]], path[1..]); }
    }
  }

  lemma {:induction false} RemoveIsPart(j: Json, path: seq<string>)
    requires path != []
    ensures PartOf(Remove(j, path), j)
  {
    PartOfSelf(j);
    if j.Obj? && path[0] in j.fields && |path| > 1 {
      RemoveIsPart(j.fields[path[0]], path[1..]);
    }
  }

  /** A removal takes only the leaves at or below the removed field. */
  lemma {:induction false} RemoveKeepsLeaf(j: Json, path: seq<string>, place: seq<Step>, v: Json)
    requires path != [] && HasLeaf(j, place, v) && !(Steps(path) <= place)
    ensures HasLeaf(Remove(j, path), place, v)
  {
    StepsPrefix(path, place);
    if place != [] && j.Obj? && path[0] in j.fields && place[0] == Field(path[0]) && |path| > 1 {
      RemoveKeepsLeaf(j.fields[path[0]], path[1..], place[1..], v);
    }
  }

  predicate Comparable(a: seq<string>, b: seq<string>) {
    a <= b || b <= a
  }

  /** A removal changes nothing at a field that is neither above nor below it. */
  lemma {:induction false} RemoveElsewhere(j: Json, path: seq<string>, other: seq<string>)
    requires path != [] && !Comparable(path, other)
    ensures Nested(Remove(j, path), other) == Nested(j, other)
  {
    if other != [] && j.Obj? && path[0] in j.fields && other[0] == path[0] && |path| > 1 {
      assert path == [path[0]] + path[1..] && other == [other[0]] + other[1..];
      RemoveElsewhere(j.fields[path[0]], path[1..], other[1..]);
    } else if |path| == 1 && other != [] {
      assert other[0] == path[0] ==> path <= other;
    }
  }

  // ---- what setting an empty map changes ----

  /** Setting an empty map neither adds nor takes a value other than an empty object. */
  lemma {:induction false} SetEmptyLeaves(j: Json, path: seq<string>, place: seq<Step>, v: Json)
    requires path != [] && Leaf(v) && v != Obj(map[]) && Nested(j, path).None?
    ensures HasLeaf(SetEmpty(j, path), place, v) <==> HasLeaf(j, place, v)
    decreases path
  {
    if place != [] && j.Obj? && place[0] == Field(path[0]) {
      if |path| == 1 {
        assert Lookup(Obj(map[]), place[1..]) == if place[1..] == [] then Some(Obj(map[])) else None;
      } else {
        var inner := if path[0] in j.fields then j.fields[path[0]] else Obj(map[]);
        SetEmptyLeaves(inner, path[1..], place[1..], v);
      }
    }
  }

  /** An empty object stays one unless the new map is put inside it. */
  lemma {:induction false} SetEmptyKeeps(j: Json, path: seq<string>, place: seq<Step>)
    requires path != [] && HasLeaf(j, place, Obj(map[])) && Nested(j, path).None?
    ensures HasLeaf(SetEmpty(j, path), place, Obj(map[])) || place < Steps(path)
    decreases path
  {
    StepsTail(path);
    if place != [] && j.Obj? && place[0] == Field(path[0]) && |path| > 1 {
      SetEmptyKeeps(j.fields[path[0]], path[1..], place[1..]);
      assert place == [place[0]] + place[1..];
    }
  }

  predicate ObjectAt(j: Json, place: seq<Step>) {
    Lookup(j, place).Some? && Lookup(j, place).value.Obj?
  }

  /** Objects appear only on the way to the new map. */
  lemma {:induction false} SetEmptyObjects(j: Json, path: seq<string>, place: seq<Step>)
    requires path != [] && ObjectAt(SetEmpty(j, path), place)
    ensures ObjectAt(j, place) || place <= Steps(path)
    decreases path
  {
    StepsTail(path);
    if place != [] && j.Obj? && place[0] == Field(path[0]) {
      assert place == [place[0]] + place[1..];
      if |path| > 1 {
        var inner := if path[0] in j.fields then j.fields[path[0]] else Obj(map[]);
        SetEmptyObjects(inner, path[1..], place[1..]);
        if path[0] !in j.fields && ObjectAt(inner, place[1..]) { assert place[1..] == []; }
        if place[1..] <= Steps(path[1..]) { assert place <= [place[0]] + Steps(path[1..]); }
      } else {
        assert Lookup(Obj(map[]), place[1..]) == if place[1..] == [] then Some(Obj(map[])) else None;
      }
    }
  }

  /** The map is set, unless something that is not an object is in the way and all stays as it was. */
  lemma {:induction false} SetEmptySets(j: Json, path: seq<string>)
    requires path != []
    ensures SetEmpty(j, path) == j || HasLeaf(SetEmpty(j, path), Steps(path), Obj(map[]))
    decreases path
  {
    StepsTail(path);
    assert Steps(path)[1..] == Steps(path[1..]);
    if j.Obj? && |path| > 1 {
      var inner := if path[0] in j.fields then j.fields[path[0]] else Obj(map[]);
      SetEmptySets(inner, path[1..]);
      if path[0] !in j.fields { NotAsEmpty(path[1..]); }
      if SetEmpty(inner, path[1..]) == inner {
        assert j.fields[path[0] := inner] == j.fields;
      } else {
        assert Child(SetEmpty(j, path), Steps(path)[0]) == Some(SetEmpty(inner, path[1..]));
      }
    } else if j.Obj? {
      var bare: Json := Obj(map[]);
      assert Child(SetEmpty(j, path), Steps(path)[0]) == Some(bare) && Steps(path)[1..] == [];
      assert Lookup(bare, Steps(path)[1..]) == Some(bare);
    }
  }

  lemma NotAsEmpty(path: seq<string>)
    requires path != []
    ensures SetEmpty(Obj(map[]), path) != Obj(map[])
  {
    assert path[0] in SetEmpty(Obj(map[]), path).fields;
  }

  /** What is set stays set. */
  lemma {:induction false} SetEmptyUnsets(j: Json, path: seq<string>, other: seq<string>)
    requires path != [] && Sets(j, other) && Nested(j, path).None?
    ensures Sets(SetEmpty(j, path), other)
    decreases path
  {
    if other != [] && j.Obj? && other[0] == path[0] && |path| > 1 {
      SetEmptyUnsets(j.fields[path[0]], path[1..], other[1..]);
    }
  }
}
