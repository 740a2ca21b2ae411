/** What one row of a comparison says (internal/gitops/diff.go): where it is, what each side holds there, which kind of
    difference it is, and whether its values are kept back. */
module RowLaws {
  import opened Order
  import opened Json
  import opened TreeDiff
  import opened Meaning
  import opened WalkLaws
  import opened Reordering
  import opened PathText

  // ---- what the two sides hold ----

  /** What a tree holds along a path. */
  function Along(j: Json, path: Path): Option<Json>
    decreases path
  {
    if path == [] then Some(j)
    else match Sub(j, path[0])
      case None => None
      case Some(x) => Along(x, path[1..])
  }

  lemma {:induction false} ReportedSays(rules: Rules, path: Path, s: Json, l: Json, rest: Path)
    requires Reported(rules, path, s, l, rest).Some?
    ensures
      var d := Reported(rules, path, s, l, rest).value;
      && d.path == path + rest
      && d.redacted == rules.secretAt(path + rest)
      && d.source == (if d.redacted then None else Along(s, rest))
      && d.live == (if d.redacted then None else Along(l, rest))
      && d.kind == (if Along(s, rest).None? then AddedInLive else if Along(l, rest).None? then MissingInLive else Changed)
    decreases rest
  {
    if rest == [] {
      assert path + rest == path;
    } else {
      var here := path + [rest[0]];
      assert here + rest[1..] == path + rest;
      if Sub(s, rest[0]).Some? && Sub(l, rest[0]).Some? {
        ReportedSays(rules, here, Sub(s, rest[0]).value, Sub(l, rest[0]).value, rest[1..]);
      } else {
        assert rest == [rest[0]] && here == path + rest;
        assert Along(s, rest) == Sub(s, rest[0]) && Along(l, rest) == Sub(l, rest[0]);
      }
    }
  }

  /** A row carries what the source holds along its path as the source's value and what the live object holds there as
      the live one, unless it is kept back; and its kind says which side holds something there. */
  lemma RowSaysWhatIsThere(rules: Rules, path: Path, s: Json, l: Json, d: Difference)
    requires d in Walk(rules, path, s, l)
    ensures path <= d.path
    ensures
      var rest := d.path[|path|..];
      && d.redacted == rules.secretAt(d.path)
      && d.source == (if d.redacted then None else Along(s, rest))
      && d.live == (if d.redacted then None else Along(l, rest))
      && d.kind == (if Along(s, rest).None? then AddedInLive else if Along(l, rest).None? then MissingInLive else Changed)
      && Along(s, rest) != Along(l, rest)
  {
    WalkReports(rules, path, s, l, d);
    var rest := d.path[|path|..];
    assert path + rest == d.path;
    ReportedSays(rules, path, s, l, rest);
    ReportedDiffers(rules, path, s, l, rest);
    hide Reported, Walk;
  }

  lemma {:induction false} ReportedDiffers(rules: Rules, path: Path, s: Json, l: Json, rest: Path)
    requires Reported(rules, path, s, l, rest).Some?
    ensures Along(s, rest) != Along(l, rest)
    decreases rest
  {
    if rest != [] && Sub(s, rest[0]).Some? && Sub(l, rest[0]).Some? {
      ReportedDiffers(rules, path + [rest[0]], Sub(s, rest[0]).value, Sub(l, rest[0]).value, rest[1..]);
    }
  }

  lemma ComparedIsWalked(source: Fields, live: Fields, secret: bool, d: Difference)
    requires d in Compare(source, live, secret)
    ensures d in Walk(KubeRules(secret), [], Obj(source), Obj(live))
  {
    CompareIsCappedWalk(source, live, secret);
    var rows, all := Compare(source, live, secret), Walk(KubeRules(secret), [], Obj(source), Obj(live));
    hide *;
    assert d in multiset(rows);
    assert d in multiset(Capped(all));
  }

  /** The same of every row a comparison lists; and a value is kept back exactly in a Secret, at its data or stringData
      and at what is directly inside them by name. */
  lemma ComparedRowSays(source: Fields, live: Fields, secret: bool, d: Difference, k: string, rest: Path)
    requires d in Compare(source, live, secret) && d.path == [Key(k)] + rest && k != "" && '.' !in k
    ensures d.redacted <==> secret && k in {"data", "stringData"} && (rest == [] || rest[0].Key?)
    ensures d.redacted ==> d.source == None && d.live == None
    ensures !d.redacted ==> d.source == Along(Obj(source), d.path) && d.live == Along(Obj(live), d.path)
    ensures d.kind == (if Along(Obj(source), d.path).None? then AddedInLive
                       else if Along(Obj(live), d.path).None? then MissingInLive else Changed)
  {
    ComparedIsWalked(source, live, secret, d);
    RowSaysWhatIsThere(KubeRules(secret), [], Obj(source), Obj(live), d);
    assert d.path[0..] == d.path;
    SecretTexts(k, rest);
    hide Compare, Walk, SecretPath, Render;
  }

  /** The rows are listed by the text of their paths, in ascending order. */
  lemma ComparedInOrder(source: Fields, live: Fields, secret: bool, i: nat, j: nat)
    requires i < j < |Compare(source, live, secret)|
    ensures !Less(Render(Compare(source, live, secret)[j].path), Render(Compare(source, live, secret)[i].path))
  {
    CompareIsCappedWalk(source, live, secret);
    hide Compare, Walk, Less, Render;
    assert PathLeq(Compare(source, live, secret)[i], Compare(source, live, secret)[j]);
  }

  // ---- which texts are kept back ----

  lemma {:induction false} RenderBegins(path: Path)
    requires |path| >= 2 && path[0].Key? && path[0].key != ""
    ensures path[0].key + (if path[1].Key? then "." else "[") <= Render(path)
    decreases path
  {
    RenderLast(path);
    var front := path[..|path| - 1];
    if |path| == 2 {
      assert front == [] + [path[0]];
      RenderKey([], path[0].key);
    } else {
      RenderBegins(front);
    }
    hide Render, InBrackets;
  }

  lemma SecretTexts(k: string, rest: Path)
    requires k != "" && '.' !in k
    ensures SecretPath(Render([Key(k)] + rest)) <==> k in {"data", "stringData"} && (rest == [] || rest[0].Key?)
  {
    var path := [Key(k)] + rest;
    if rest == [] {
      assert path == [] + [Key(k)];
      RenderKey([], k);
      assert Render(path) == k;
      NotBelow(k, "data");
      NotBelow(k, "stringData");
    } else {
      RenderBegins(path);
      Begins(Render(path), k, if rest[0].Key? then '.' else '[', "data");
      Begins(Render(path), k, if rest[0].Key? then '.' else '[', "stringData");
    }
  }

  lemma BeginsWith(text: string, front: string, i: nat)
    requires front <= text && i < |front|
    ensures text[i] == front[i] && front[i] in text
  {
  }

  lemma NotBelow(k: string, name: string)
    requires '.' !in k
    ensures !(name + "." <= k)
  {
    if name + "." <= k { BeginsWith(k, name + ".", |name|); }
  }

  lemma SameLength(text: string, k: string, c: char, name: string)
    requires k + [c] <= text && name + "." <= text && c !in name && '.' !in k
    ensures |k| == |name|
  {
    assert text[|k|] == c && text[|name|] == '.';
    assert forall j :: 0 <= j < |name| ==> text[j] == name[j];
    assert forall j :: 0 <= j < |k| ==> text[j] == k[j];
  }

  lemma Begins(text: string, k: string, c: char, name: string)
    requires k + [c] <= text && '.' !in k && '.' !in name && '[' !in name && c in {'.', '['}
    ensures text != name
    ensures name + "." <= text <==> k == name && c == '.'
  {
    BeginsWith(text, k + [c], |k|);
    if name + "." <= text {
      SameLength(text, k, c, name);
      BeginsWith(text, name + ".", |name|);
      assert k == text[..|k|] && name == text[..|name|];
    }
  }

  // ---- what elements are paired by ----

  function NameIn(number: bool, name: string): Json {
    if number then Num(name) else Str(name)
  }

  /** The elements have these names in that field, no two the same. */
  ghost predicate Named(list: seq<Json>, key: string, number: bool, names: seq<string>) {
    && |names| == |list| > 0
    && (forall i, j :: 0 <= i < j < |names| ==> names[i] != names[j])
    && (forall i :: 0 <= i < |list| ==> names[i] != "" && list[i].Obj? && Get(list[i].fields, key) == Some(NameIn(number, names[i])))
  }

  lemma NamesIdentify(list: seq<Json>, key: string, number: bool, names: seq<string>)
    requires Named(list, key, number, names)
    ensures Identifies(list, key)
  {
    assert forall i :: 0 <= i < |list| ==> Name(list[i], key) == Some(names[i]);
  }

  lemma KeysOf(path: Path, field: string, source: seq<Json>, live: seq<Json>, secret: bool)
    requires '.' !in field && '[' !in field
    ensures PairKey(KubeRules(secret), path + [Key(field)], source, live) == FirstKey(MergeKeys(field), source, live)
  {
    FieldsHaveTheirKeys(path, field, secret);
    hide Render, FieldOf, MergeKeys, FirstKey;
  }

  lemma FirstOrNext(keys: seq<string>, source: seq<Json>, live: seq<Json>)
    requires keys != []
    ensures FirstKey(keys, source, live) ==
      if Identifies(source, keys[0]) && Identifies(live, keys[0]) then Some(keys[0]) else FirstKey(keys[1..], source, live)
  {
  }

  predicate Plain(s: string) {
    forall i :: 0 <= i < |s| ==> s[i] != '.' && s[i] != '['
  }

  lemma PlainFields(field: string)
    requires field in {"containers", "initContainers", "ephemeralContainers", "env", "volumes", "imagePullSecrets"}
    ensures '.' !in field && '[' !in field
  {
    assert Plain("containers") && Plain("initContainers") && Plain("ephemeralContainers");
    assert Plain("env") && Plain("volumes") && Plain("imagePullSecrets");
    assert Plain(field);
    hide *;
  }

  /** Containers, environment variables and volumes whose names are all different are paired by name. */
  lemma NamedElementsPair(path: Path, field: string, source: seq<Json>, live: seq<Json>, secret: bool, names: seq<string>, others: seq<string>)
    requires field in {"containers", "initContainers", "ephemeralContainers", "env", "volumes", "imagePullSecrets"}
    requires Named(source, "name", false, names) && Named(live, "name", false, others)
    ensures PairKey(KubeRules(secret), path + [Key(field)], source, live) == Some("name")
  {
    NamesIdentify(source, "name", false, names);
    NamesIdentify(live, "name", false, others);
    PlainFields(field);
    assert MergeKeys(field) == ["name"];
    hide *;
    KeysOf(path, field, source, live, secret);
    FirstOrNext(["name"], source, live);
  }

  /** Ports of which one has no name are paired by their numbers, when those are all different. */
  lemma NumberedPortsPair(path: Path, source: seq<Json>, live: seq<Json>, secret: bool, i: nat, numbers: seq<string>, others: seq<string>)
    requires Named(source, "containerPort", true, numbers) && Named(live, "containerPort", true, others)
    requires i < |source| && "name" !in source[i].fields
    ensures PairKey(KubeRules(secret), path + [Key("ports")], source, live) == Some("containerPort")
  {
    NamesIdentify(source, "containerPort", true, numbers);
    NamesIdentify(live, "containerPort", true, others);
    NamelessDoesNot(source, i);
    var keys := MergeKeys("ports");
    assert keys[0] == "name" && keys[1..][0] == "containerPort" && '.' !in "ports" && '[' !in "ports";
    hide *;
    KeysOf(path, "ports", source, live, secret);
    FirstOrNext(keys, source, live);
    FirstOrNext(keys[1..], source, live);
  }

  /** Mounts whose paths are all different are paired by path. */
  lemma MountsPairByPath(path: Path, source: seq<Json>, live: seq<Json>, secret: bool, paths: seq<string>, others: seq<string>)
    requires Named(source, "mountPath", false, paths) && Named(live, "mountPath", false, others)
    ensures PairKey(KubeRules(secret), path + [Key("volumeMounts")], source, live) == Some("mountPath")
  {
    NamesIdentify(source, "mountPath", false, paths);
    NamesIdentify(live, "mountPath", false, others);
    assert MergeKeys("volumeMounts") == ["mountPath"] && '.' !in "volumeMounts" && '[' !in "volumeMounts";
    hide *;
    KeysOf(path, "volumeMounts", source, live, secret);
    FirstOrNext(["mountPath"], source, live);
  }

  lemma NamelessDoesNot(list: seq<Json>, i: nat)
    requires i < |list| && list[i].Obj? && "name" !in list[i].fields
    ensures !Identifies(list, "name")
  {
    assert Name(list[i], "name").None?;
  }
}
