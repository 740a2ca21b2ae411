/** The code that edits the two objects in place before the comparison. Each method leaves what the function
    of the same purpose in Normalise says. */
module NormaliseCode {
  import opened Order
  import opened Json
  import opened Pruning
  import opened Normalise

  /** A decoded object that is edited in place. */
  class Document {
    var root: Json

    constructor (root: Json)
      ensures this.root == root
    {
      this.root := root;
    }

    method RemoveNestedField(path: seq<string>)
      modifies this
      ensures root == Remove(old(root), path)
    {
      root := Remove(root, path);
    }

    method SetNestedMap(path: seq<string>)
      modifies this
      ensures root == SetEmpty(old(root), path)
    {
      root := SetEmpty(root, path);
    }

    method RemoveFields(paths: seq<seq<string>>)
      modifies this
      ensures root == RemoveAll(old(root), paths)
    {
      for i := 0 to |paths|
        invariant RemoveAll(root, paths[i..]) == RemoveAll(old(root), paths)
      {
        assert paths[i..][0] == paths[i] && paths[i..][1..] == paths[i + 1..];
        RemoveNestedField(paths[i]);
      }
    }

    /** Removes the objects a removal left empty. */
    method PruneUp(source: Json, path: seq<string>)
      requires path != []
      modifies this
      ensures root == Prune(old(root), source, path, |path| - 1)
    {
      var depth := |path| - 1;
      while depth > 0
        invariant 0 <= depth < |path|
        invariant Prune(root, source, path, depth) == Prune(old(root), source, path, |path| - 1)
      {
        var parent := path[..depth];
        if Nested(root, parent) != Some(EMPTY) || Sets(source, parent) { return; }
        RemoveNestedField(parent);
        depth := depth - 1;
      }
    }

    method ApplyRules(source: Json, prefix: seq<string>, rules: seq<Rule>)
      modifies this
      ensures root == DefaultFields(old(root), source, prefix, rules)
    {
      for i := 0 to |rules|
        invariant DefaultFields(root, source, prefix, rules[i..]) == DefaultFields(old(root), source, prefix, rules)
      {
        var applies := rules[i];
        assert rules[i..][0] == applies && rules[i..][1..] == rules[i + 1..];
        var path := prefix + applies.path;
        if path == [] || Sets(source, path) { continue; }
        if NestedOrNull(root, path) != applies.value { continue; }
        RemoveNestedField(path);
        PruneUp(source, path);
      }
    }

    method ApplyPullPolicy(source: Json)
      modifies this
      ensures root == DefaultPullPolicy(old(root), source)
    {
      if Sets(source, ["imagePullPolicy"]) { return; }
      var expected := "IfNotPresent";
      var tag := AfterLastSlash(ImageOf(root));
      if ':' !in tag || HasSuffix(tag, ":latest") { expected := "Always"; }
      if Nested(root, ["imagePullPolicy"]) == Some(Str(expected)) {
        RemoveNestedField(["imagePullPolicy"]);
      }
    }

    method ApplyItem(item: Item, source: Json)
      modifies this
      ensures root == DefaultItem(item, old(root), source)
      decreases Nesting(item), 0
    {
      match item {
        case Port => ApplyRules(source, [], PORT_DEFAULTS);
        case Volume => ApplyRules(source, ["hostPath"], HOST_PATH_DEFAULTS);
        case Container =>
          ApplyRules(source, [], CONTAINER_DEFAULTS);
          ApplyPullPolicy(source);
          ApplyList(Port, source, ["ports"]);
      }
    }

    /** Applies a normaliser to each element of a keyed list, beside its counterpart in the source. */
    method ApplyList(item: Item, source: Json, path: seq<string>)
      modifies this
      ensures root == DefaultList(item, old(root), source, path)
      decreases Nesting(item), 1
    {
      var found := Nested(root, path);
      if found.None? || !found.value.List? { return; }
      var list, counterparts := found.value.elems, ElementsAt(source, path);
      var done := [];
      for i := 0 to |list|
        invariant root == old(root)
        invariant |done| == i && done == DefaultElements(item, list, counterparts)[..i]
      {
        if !list[i].Obj? {
          done := done + [list[i]];
          continue;
        }
        var beside := FindCounterpart(counterparts, KeyOf(item), NestedOrNull(list[i], [KeyOf(item)]));
        var element := new Document(list[i]);
        element.ApplyItem(item, beside);
        done := done + [element.root];
      }
      assert done == DefaultElements(item, list, counterparts);
      root := Replace(root, path, List(done));
    }

    method ApplyPodSpec(source: Json, prefix: seq<string>)
      modifies this
      ensures root == DefaultPodSpec(old(root), source, prefix)
    {
      ApplyRules(source, prefix, POD_SPEC_DEFAULTS);
      ApplyList(Container, source, prefix + ["containers"]);
      ApplyList(Container, source, prefix + ["initContainers"]);
      ApplyList(Volume, source, prefix + ["volumes"]);
    }

    method ApplyKindDefaults(source: Json)
      modifies this
      ensures root == ApplyDefaults(old(root), source)
    {
      if KindOf(root) == "Deployment" {
        ApplyRules(source, [], DEPLOYMENT_DEFAULTS);
        ApplyPodSpec(source, POD_SPEC);
      }
    }

    method DropTimestamps()
      modifies this
      ensures root == Drop(old(root))
    {
      var emptied;
      root, emptied := DropNullTimestamps(root);
    }

    method DropEmptyMaps(source: Json)
      modifies this
      ensures root == DropEmpty(DropEmpty(old(root), source, ANNOTATIONS), source, LABELS)
    {
      if Nested(root, ANNOTATIONS) == Some(EMPTY) && !Sets(source, ANNOTATIONS) { RemoveNestedField(ANNOTATIONS); }
      if Nested(root, LABELS) == Some(EMPTY) && !Sets(source, LABELS) { RemoveNestedField(LABELS); }
    }

    /** Gives this source an empty map wherever the live object has one of the string maps. */
    method ComparePerKey(live: Json)
      modifies this
      ensures root == PerKey(live, old(root), PER_KEY)
    {
      for i := 0 to |PER_KEY|
        invariant PerKey(live, root, PER_KEY[i..]) == PerKey(live, old(root), PER_KEY)
      {
        var field := PER_KEY[i];
        assert PER_KEY[i..][0] == field && PER_KEY[i..][1..] == PER_KEY[i + 1..];
        if Sets(root, field) || !Sets(live, field) { continue; }
        if !Nested(live, field).value.Obj? { continue; }
        SetNestedMap(field);
      }
    }
  }

  method FindCounterpart(list: seq<Json>, key: string, value: Json) returns (item: Json)
    ensures item == Counterpart(list, key, value)
  {
    for i := 0 to |list|
      invariant Counterpart(list[i..], key, value) == Counterpart(list, key, value)
    {
      if list[i].Obj? && NestedOrNull(list[i], [key]) == value { return list[i]; }
    }
    return EMPTY;
  }

  /** Removes every null creationTimestamp and reports whether that left this value an empty object. */
  method DropNullTimestamps(value: Json) returns (out: Json, emptied: bool)
    ensures out == Drop(value) && emptied == Emptied(value)
    decreases value
  {
    if !value.Obj? {
      if value.List? {
        var list := [];
        for i := 0 to |value.elems|
          invariant list == Drop(value).elems[..i]
        {
          var nested, _ := DropNullTimestamps(value.elems[i]);
          list := list + [nested];
        }
        return List(list), false;
      }
      return value, false;
    }
    var removed := Get(value.fields, STAMP) == Some(Null);
    var left := if removed then value.fields - {STAMP} else value.fields;
    var rest := left.Keys;
    while rest != {}
      invariant rest <= left.Keys <= value.fields.Keys
      invariant forall k :: k in rest ==> left[k] == value.fields[k] && !NullStamp(k, value.fields[k])
      invariant forall k :: k in left && k !in rest ==> !NullStamp(k, value.fields[k]) && !Emptied(value.fields[k]) && left[k] == Drop(value.fields[k])
      invariant forall k :: k in value.fields && k !in left ==> NullStamp(k, value.fields[k]) || Emptied(value.fields[k])
      decreases rest
    {
      var k :| k in rest;
      var nested, gone := DropNullTimestamps(left[k]);
      left := if gone then left - {k} else left[k := nested];
      rest := rest - {k};
    }
    assert left == Drop(value).fields;
    emptied := removed && left == map[];
    out := Obj(left);
  }

  /** normalise: the live object and the source, each into the form that is compared. */
  method NormaliseBoth(live: Document, source: Document)
    requires live != source
    modifies live, source
    ensures live.root == NormalLive(old(live.root), old(source.root))
    ensures source.root == NormalSource(live.root, old(source.root))
  {
    live.RemoveFields(BOOKKEEPING + TOOL_ANNOTATIONS);
    if !Sets(source.root, NAMESPACE) { live.RemoveNestedField(NAMESPACE); }
    live.DropTimestamps();
    live.DropEmptyMaps(source.root);
    live.ApplyKindDefaults(source.root);
    source.ComparePerKey(live.root);
    source.RemoveFields(BOOKKEEPING);
    source.DropTimestamps();
  }
}
