/** What the defaults come to at the places they are about (internal/gitops/defaults.go and normalise.go): the pull
    policy an image implies, the container of the source a container is held against, and what is left where a default
    was taken out. */
module DefaultLaws {
  import opened Order
  import opened Json
  import opened Pruning
  import opened Normalise
  import opened NothingHidden
  import opened ExactlyExcused
  import PathText

  // ---- the pull policy an image implies ----

  /** A registry and a repository's path, as far as the last slash. */
  predicate Registry(p: string) {
    p == "" || p[|p| - 1] == '/'
  }

  lemma {:induction false} LastPart(p: string, part: string)
    requires Registry(p) && '/' !in part
    ensures AfterLastSlash(p + part) == part
    decreases |p|
  {
    if p == "" {
      assert p + part == part;
      NoSlash(part);
    } else {
      var s := p + part;
      assert s[|p| - 1] == '/';
      if |p| == 1 {
        assert s[1..] == part;
      } else {
        assert s[1..] == p[1..] + part && s[1..][|p| - 2] == '/';
        LastPart(p[1..], part);
      }
    }
  }

  lemma {:induction false} NoSlash(s: string)
    requires '/' !in s
    ensures AfterLastSlash(s) == s
  {
  }

  /** An image without a tag, or tagged latest, is always pulled; one with any other tag only when it is not there.
      The colon of a registry's port, or in any part before the last, is not a tag. */
  lemma PolicyOfImage(p: string, n: string, t: string)
    requires Registry(p) && '/' !in n && ':' !in n && '/' !in t && ':' !in t
    ensures ExpectedPolicy(p + n) == "Always"
    ensures ExpectedPolicy(p + (n + ":" + t)) == if t == "latest" then "Always" else "IfNotPresent"
  {
    LastPart(p, n);
    var part := n + ":" + t;
    LastPart(p, part);
    assert part[|n|] == ':';
    LatestTag(n, t);
    hide AfterLastSlash, HasSuffix;
  }

  lemma EndsWithTag(n: string, t: string, word: string)
    requires ':' !in t && ':' !in word
    ensures HasSuffix(n + ":" + t, ":" + word) <==> t == word
  {
    var s, suffix := n + ":" + t, ":" + word;
    if HasSuffix(s, suffix) {
      var front := s[..|s| - |suffix|];
      assert s == front + suffix;
      assert n + [':'] + t == front + [':'] + word;
      PathText.SplitAtLast(n, ':', t, front, word);
    } else {
      assert s[|n|..] == ":" + t;
    }
  }

  lemma LatestTag(n: string, t: string)
    requires ':' !in t
    ensures HasSuffix(n + ":" + t, ":latest") <==> t == "latest"
  {
    assert ":" + "latest" == ":latest" && ':' !in "latest";
    EndsWithTag(n, t, "latest");
    hide HasSuffix;
  }

  // ---- where a container is ----

  /** A container's place in a Deployment. */
  function ListPlace(field: string): seq<Step> {
    [Field("spec"), Field("template"), Field("spec"), Field(field)]
  }

  function Inside(field: string, i: nat, key: string): seq<Step> {
    ListPlace(field) + [At(i), Field(key)]
  }

  lemma ListSteps(field: string)
    ensures Steps(POD_SPEC + [field]) == ListPlace(field)
  {
  }

  function ElementAt(j: Json, field: string, i: nat): Option<Json> {
    if i < |ElementsAt(j, POD_SPEC + [field])| then Some(ElementsAt(j, POD_SPEC + [field])[i]) else None
  }

  lemma InsideElement(j: Json, field: string, i: nat, key: string)
    ensures Lookup(j, Inside(field, i, key)) ==
      match ElementAt(j, field, i) { case None => None case Some(e) => Nested(e, [key]) }
  {
    NestedLookup(j, POD_SPEC + [field]);
    ListSteps(field);
    LookupSplit(j, ListPlace(field), [At(i), Field(key)]);
    match Nested(j, POD_SPEC + [field])
    case None =>
    case Some(l) => LookupInto(l, i, key);
  }

  lemma LookupInto(l: Json, i: nat, key: string)
    ensures Lookup(l, [At(i), Field(key)]) ==
      if l.List? && i < |l.elems| then Nested(l.elems[i], [key]) else None
  {
    var place := [At(i), Field(key)];
    assert place[1..] == [Field(key)] && place[0] == At(i);
    if l.List? && i < |l.elems| {
      assert Lookup(l, place) == Lookup(l.elems[i], [Field(key)]);
      LookupField(l.elems[i], key);
    } else {
      assert Child(l, At(i)).None?;
    }
  }

  lemma LookupField(e: Json, key: string)
    ensures Lookup(e, [Field(key)]) == Nested(e, [key]) == (if e.Obj? && key in e.fields then Some(e.fields[key]) else None)
  {
    NestedLookup(e, [key]);
    assert Steps([key]) == [Field(key)];
    if e.Obj? && key in e.fields { assert Nested(e.fields[key], [key][1..]) == Some(e.fields[key]); }
  }

  // ---- the source's own container ----

  predicate IsNamed(source: Json, field: string, j: nat, name: string) {
    Lookup(source, Inside(field, j, "name")) == Some(Str(name))
  }

  /** The first container of that name in the source sets a policy of its own. */
  ghost predicate Declares(source: Json, field: string, name: string, key: string) {
    exists j: nat :: IsNamed(source, field, j, name) && (forall k: nat :: k < j ==> !IsNamed(source, field, k, name))
                     && Lookup(source, Inside(field, j, key)).Some?
  }

  /** The counterpart is the first element with that key, and nothing when there is none. */
  lemma {:induction false} CounterpartIsFirst(list: seq<Json>, key: string, name: string) returns (j: nat)
    ensures j <= |list| && forall k :: 0 <= k < j ==> Nested(list[k], [key]) != Some(Str(name))
    ensures if j < |list| then Nested(list[j], [key]) == Some(Str(name)) && Counterpart(list, key, Str(name)) == list[j]
            else Counterpart(list, key, Str(name)) == EMPTY
  {
    if list == [] {
      j := 0;
    } else if list[0].Obj? && NestedOrNull(list[0], [key]) == Str(name) {
      j := 0;
    } else {
      assert Nested(list[0], [key]) != Some(Str(name));
      j := CounterpartIsFirst(list[1..], key, name);
      j := j + 1;
    }
  }

  lemma CounterpartDeclares(source: Json, field: string, name: string, key: string)
    ensures
      var e := Counterpart(ElementsAt(source, POD_SPEC + [field]), "name", Str(name));
      Sets(e, [key]) <==> Declares(source, field, name, key)
  {
    var list := ElementsAt(source, POD_SPEC + [field]);
    var j := CounterpartIsFirst(list, "name", name);
    forall k: nat
      ensures IsNamed(source, field, k, name) <==> k < |list| && Nested(list[k], ["name"]) == Some(Str(name))
      ensures k < |list| ==> Lookup(source, Inside(field, k, key)) == Nested(list[k], [key])
    {
      InsideElement(source, field, k, "name");
      InsideElement(source, field, k, key);
    }
    assert Nested(EMPTY, [key]).None?;
    hide Lookup, Inside, Counterpart, ElementsAt, Nested;
  }

  // ---- the excuse of a pull policy ----

  predicate Apart(path: seq<string>, place: seq<Step>) {
    exists i :: 0 <= i < |path| && i < |place| && place[i] != Field(path[i])
  }

  lemma NotBelow(path: seq<string>, place: seq<Step>)
    requires Apart(path, place)
    ensures !(Steps(path) <= place)
  {
    var i :| 0 <= i < |path| && i < |place| && place[i] != Field(path[i]);
    assert Steps(path)[i] == Field(path[i]);
  }

  lemma NoFieldExcuse(source: Json, prefix: seq<string>, rules: seq<Rule>, place: seq<Step>, v: Json)
    requires forall i :: 0 <= i < |rules| ==> Apart(prefix + rules[i].path, place)
    ensures !FieldExcused(source, prefix, rules, place, v)
  {
    forall i | 0 <= i < |rules| ensures !(Steps(prefix + rules[i].path) <= place) { NotBelow(prefix + rules[i].path, place); }
  }

  lemma NotStripped(source: Json, field: string, i: nat, key: string, v: Json)
    requires key != STAMP
    ensures !StripExcused(source, Inside(field, i, key), v)
  {
    var place := Inside(field, i, key);
    var paths := BOOKKEEPING + TOOL_ANNOTATIONS;
    assert place[0] == Field("spec") && |place| == 6 && place[5] == Field(key);
    forall k | 0 <= k < |paths| ensures !(Steps(paths[k]) <= place) {
      assert paths[k] != [] && paths[k][0] != "spec";
      assert Apart(paths[k], place);
      NotBelow(paths[k], place);
    }
    assert Apart(NAMESPACE, place);
    NotBelow(NAMESPACE, place);
    assert Steps(ANNOTATIONS)[0] == Field("metadata") && Steps(LABELS)[0] == Field("metadata");
  }

  lemma OtherListsApart(item: Item, live: Json, source: Json, other: string, field: string, i: nat, key: string, v: Json)
    requires other != field
    ensures !ListExcused(item, live, source, POD_SPEC + [other], Inside(field, i, key), v)
  {
    ListSteps(other);
    assert ListPlace(other)[3] != Inside(field, i, key)[3];
    hide ItemExcused;
  }

  // ---- what a rule says ----

  /** With nothing inside the values of a table, a value is excused exactly at the place of a rule the source is silent
      about, when it is what the rule says. */
  lemma RuleMeans(source: Json, prefix: seq<string>, rules: seq<Rule>, place: seq<Step>, v: Json)
    requires LeafRules(rules)
    ensures FieldExcused(source, prefix, rules, place, v) <==>
      exists i :: 0 <= i < |rules| && place == Steps(prefix + rules[i].path) && v == rules[i].value && !Sets(source, prefix + rules[i].path)
  {
    forall i | 0 <= i < |rules|
      ensures IsDefault(source, prefix + rules[i].path, rules[i].value, place, v) <==>
        place == Steps(prefix + rules[i].path) && v == rules[i].value && !Sets(source, prefix + rules[i].path)
    {
      AtTheRule(source, prefix + rules[i].path, rules[i].value, place, v);
    }
  }

  lemma AtTheRule(source: Json, path: seq<string>, value: Json, place: seq<Step>, v: Json)
    requires Leaf(value)
    ensures IsDefault(source, path, value, place, v) <==> place == Steps(path) && v == value && !Sets(source, path)
  {
    if Steps(path) <= place {
      if HasLeaf(value, place[|path|..], v) { OnlyItself(value, place[|path|..], v); }
      assert place == Steps(path) + place[|path|..];
      assert place == Steps(path) ==> place[|path|..] == [];
    }
  }

  /** What a field of a container is when it is left out: the policy its image implies, or what Kubernetes documents. */
  function ContainerDefault(key: string, image: string): Option<Json> {
    if key == "imagePullPolicy" then Some(Str(ExpectedPolicy(image)))
    else if key == "terminationMessagePath" then Some(Str("/dev/termination-log"))
    else if key == "terminationMessagePolicy" then Some(Str("File"))
    else if key == "resources" then Some(Obj(map[]))
    else None
  }

  lemma OneStep(key: string, other: string)
    ensures Steps([] + [other]) == [Field(other)]
    ensures [Field(key)] == Steps([] + [other]) <==> key == other
  {
    assert Steps([] + [other])[0] == Field(other);
  }

  lemma ContainerExcuse(e: Json, counterpart: Json, key: string, v: Json)
    ensures ItemExcused(Container, e, counterpart, [Field(key)], v) <==>
      || FieldExcused(counterpart, [], CONTAINER_DEFAULTS, [Field(key)], v)
      || (key == "imagePullPolicy" && !Sets(counterpart, ["imagePullPolicy"]) && v == Str(ExpectedPolicy(ImageOf(e))))
  {
    hide FieldExcused, Sets, ExpectedPolicy, ImageOf;
    assert !ListExcused(Port, e, counterpart, ["ports"], [Field(key)], v);
  }

  /** Of one container: a field is excused exactly when the source's container is silent about it and it is what the field
      is when it is left out. */
  lemma FieldOfItem(e: Json, counterpart: Json, key: string, v: Json)
    ensures ItemExcused(Container, e, counterpart, [Field(key)], v) <==>
      !Sets(counterpart, [key]) && ContainerDefault(key, ImageOf(e)) == Some(v)
  {
    ContainerExcuse(e, counterpart, key, v);
    TablesHoldLeaves();
    RuleMeans(counterpart, [], CONTAINER_DEFAULTS, [Field(key)], v);
    ContainerRules(counterpart, key, v);
    hide ItemExcused, FieldExcused, ExpectedPolicy, ImageOf, Sets, LeafRules, Steps;
  }

  lemma ContainerRules(counterpart: Json, key: string, v: Json)
    ensures
      (exists i :: 0 <= i < |CONTAINER_DEFAULTS| && [Field(key)] == Steps([] + CONTAINER_DEFAULTS[i].path) && v == CONTAINER_DEFAULTS[i].value
                   && !Sets(counterpart, [] + CONTAINER_DEFAULTS[i].path))
      <==> key != "imagePullPolicy" && ContainerDefault(key, "") == Some(v) && !Sets(counterpart, [key])
  {
    var rules := CONTAINER_DEFAULTS;
    assert rules[0] == Rule(["terminationMessagePath"], Str("/dev/termination-log"));
    assert rules[1] == Rule(["terminationMessagePolicy"], Str("File"));
    assert rules[2] == Rule(["resources"], Obj(map[]));
    OneStep(key, "terminationMessagePath");
    OneStep(key, "terminationMessagePolicy");
    OneStep(key, "resources");
    assert [] + [key] == [key];
    hide Sets, Steps, ExpectedPolicy;
  }

  lemma ListField(live: Json, source: Json, field: string, i: nat, name: string, image: string, key: string, v: Json)
    requires HasLeaf(live, Inside(field, i, "name"), Str(name)) && HasLeaf(live, Inside(field, i, "image"), Str(image))
    ensures ListExcused(Container, live, source, POD_SPEC + [field], Inside(field, i, key), v) <==>
      ContainerDefault(key, image) == Some(v) && !Declares(source, field, name, key)
  {
    var path, place := POD_SPEC + [field], Inside(field, i, key);
    ListSteps(field);
    InsideElement(live, field, i, "name");
    InsideElement(live, field, i, "image");
    CounterpartDeclares(source, field, name, key);
    var e := ElementsAt(live, path)[i];
    assert e.Obj? && Nested(live, path).Some? && Nested(live, path).value.List?;
    assert place[|path|] == At(i) && place[|path| + 1..] == [Field(key)];
    FieldOfItem(e, Counterpart(ElementsAt(source, path), "name", Str(name)), key, v);
    assert ImageOf(e) == image && NestedOrNull(e, ["name"]) == Str(name);
    hide ItemExcused, Declares, Counterpart, ExpectedPolicy, HasLeaf, Lookup, Sets;
  }

  // ---- the documented defaults of a Deployment ----

  const SPEC := [Field("spec")]
  const STRATEGY := [Field("spec"), Field("strategy")]
  const ROLLING := [Field("spec"), Field("strategy"), Field("rollingUpdate")]
  const POD := [Field("spec"), Field("template"), Field("spec")]

  /** What a field of a Deployment is when it is left out. */
  predicate DocumentedAbove(place: seq<Step>, v: Json) {
    || (place == SPEC + [Field("replicas")] && v == Num("1"))
    || (place == SPEC + [Field("progressDeadlineSeconds")] && v == Num("600"))
    || (place == SPEC + [Field("revisionHistoryLimit")] && v == Num("10"))
    || (place == STRATEGY + [Field("type")] && v == Str("RollingUpdate"))
    || (place == ROLLING + [Field("maxSurge")] && v == Str("25%"))
    || (place == ROLLING + [Field("maxUnavailable")] && v == Str("25%"))
  }

  /** And of its pod template. */
  predicate DocumentedBelow(place: seq<Step>, v: Json) {
    || (place == POD + [Field("restartPolicy")] && v == Str("Always"))
    || (place == POD + [Field("dnsPolicy")] && v == Str("ClusterFirst"))
    || (place == POD + [Field("schedulerName")] && v == Str("default-scheduler"))
    || (place == POD + [Field("terminationGracePeriodSeconds")] && v == Num("30"))
    || (place == POD + [Field("securityContext")] && v == Obj(map[]))
    || (place == POD + [Field("serviceAccountName")] && v == Str("default"))
    || (place == POD + [Field("serviceAccount")] && v == Str("default"))
  }

  predicate Documented(place: seq<Step>, v: Json) {
    DocumentedAbove(place, v) || DocumentedBelow(place, v)
  }

  /** The rule of a table that a place belongs to. */
  ghost predicate Ruled(prefix: seq<string>, rules: seq<Rule>, place: seq<Step>, v: Json) {
    exists i :: 0 <= i < |rules| && place == Steps(prefix + rules[i].path) && v == rules[i].value
  }

  lemma RuledMeans(source: Json, prefix: seq<string>, rules: seq<Rule>, place: seq<Step>, v: Json)
    requires LeafRules(rules)
    ensures FieldExcused(source, prefix, rules, place, v) <==> Ruled(prefix, rules, place, v) && Lookup(source, place).None?
  {
    RuleMeans(source, prefix, rules, place, v);
    forall i | 0 <= i < |rules| && place == Steps(prefix + rules[i].path)
      ensures Sets(source, prefix + rules[i].path) <==> Lookup(source, place).Some?
    {
      NestedLookup(source, prefix + rules[i].path);
    }
    hide FieldExcused, Lookup, Sets, Steps, LeafRules;
  }

  predicate RuledBy(prefix: seq<string>, rule: Rule, place: seq<Step>, v: Json) {
    place == Steps(prefix + rule.path) && v == rule.value
  }

  lemma RuledBySome(prefix: seq<string>, rules: seq<Rule>, place: seq<Step>, v: Json)
    ensures rules == [] ==> !Ruled(prefix, rules, place, v)
    ensures rules != [] ==> (Ruled(prefix, rules, place, v) <==> RuledBy(prefix, rules[0], place, v) || Ruled(prefix, rules[1..], place, v))
  {
    if rules != [] && Ruled(prefix, rules, place, v) {
      var i :| 0 <= i < |rules| && place == Steps(prefix + rules[i].path) && v == rules[i].value;
      assert i > 0 ==> rules[1..][i - 1] == rules[i];
    }
    if rules != [] && Ruled(prefix, rules[1..], place, v) {
      var i :| 0 <= i < |rules[1..]| && place == Steps(prefix + rules[1..][i].path) && v == rules[1..][i].value;
      assert rules[i + 1] == rules[1..][i];
    }
  }

  lemma RuleSteps(prefix: seq<string>, front: seq<Step>, path: seq<string>, rest: seq<Step>, value: Json, place: seq<Step>, v: Json)
    requires Steps(prefix) == front && Steps(path) == rest
    ensures RuledBy(prefix, Rule(path, value), place, v) <==> place == front + rest && v == value
  {
    assert Steps(prefix + path) == Steps(prefix) + Steps(path);
  }

  lemma ThreeRules(prefix: seq<string>, a: Rule, b: Rule, c: Rule, rest: seq<Rule>, place: seq<Step>, v: Json)
    ensures Ruled(prefix, [a, b, c] + rest, place, v) <==>
      RuledBy(prefix, a, place, v) || RuledBy(prefix, b, place, v) || RuledBy(prefix, c, place, v) || Ruled(prefix, rest, place, v)
  {
    var rules := [a, b, c] + rest;
    assert rules[1..] == [b, c] + rest && ([b, c] + rest)[1..] == [c] + rest && ([c] + rest)[1..] == rest;
    RuledBySome(prefix, rules, place, v);
    RuledBySome(prefix, [b, c] + rest, place, v);
    RuledBySome(prefix, [c] + rest, place, v);
    hide Ruled, RuledBy;
  }

  lemma DeploymentRuled(place: seq<Step>, v: Json)
    ensures Ruled([], DEPLOYMENT_DEFAULTS, place, v) <==> DocumentedAbove(place, v)
  {
    var top := [Rule(["spec", "replicas"], Num("1")), Rule(["spec", "progressDeadlineSeconds"], Num("600")),
                Rule(["spec", "revisionHistoryLimit"], Num("10"))];
    var low := [Rule(["spec", "strategy", "type"], Str("RollingUpdate")),
                Rule(["spec", "strategy", "rollingUpdate", "maxSurge"], Str("25%")),
                Rule(["spec", "strategy", "rollingUpdate", "maxUnavailable"], Str("25%"))];
    assert DEPLOYMENT_DEFAULTS == top + low && low == low + [];
    ThreeRules([], top[0], top[1], top[2], low, place, v);
    ThreeRules([], low[0], low[1], low[2], [], place, v);
    RuledBySome([], [], place, v);
    RuleSteps([], [], top[0].path, SPEC + [Field("replicas")], top[0].value, place, v);
    RuleSteps([], [], top[1].path, SPEC + [Field("progressDeadlineSeconds")], top[1].value, place, v);
    RuleSteps([], [], top[2].path, SPEC + [Field("revisionHistoryLimit")], top[2].value, place, v);
    RuleSteps([], [], low[0].path, STRATEGY + [Field("type")], low[0].value, place, v);
    RuleSteps([], [], low[1].path, ROLLING + [Field("maxSurge")], low[1].value, place, v);
    RuleSteps([], [], low[2].path, ROLLING + [Field("maxUnavailable")], low[2].value, place, v);
    assert [] + place == place;
    hide Ruled, RuledBy, Steps;
  }

  lemma PodRuled(place: seq<Step>, v: Json)
    ensures Ruled(POD_SPEC, POD_SPEC_DEFAULTS, place, v) <==> DocumentedBelow(place, v)
  {
    var a := [Rule(["restartPolicy"], Str("Always")), Rule(["dnsPolicy"], Str("ClusterFirst")), Rule(["schedulerName"], Str("default-scheduler"))];
    var b := [Rule(["terminationGracePeriodSeconds"], Num("30")), Rule(["securityContext"], EMPTY), Rule(["serviceAccountName"], Str("default"))];
    var c := [Rule(["serviceAccount"], Str("default"))];
    assert POD_SPEC_DEFAULTS == a + (b + c) && Steps(POD_SPEC) == POD;
    ThreeRules(POD_SPEC, a[0], a[1], a[2], b + c, place, v);
    ThreeRules(POD_SPEC, b[0], b[1], b[2], c, place, v);
    RuledBySome(POD_SPEC, c, place, v);
    RuledBySome(POD_SPEC, [], place, v);
    RuleSteps(POD_SPEC, POD, a[0].path, [Field("restartPolicy")], a[0].value, place, v);
    RuleSteps(POD_SPEC, POD, a[1].path, [Field("dnsPolicy")], a[1].value, place, v);
    RuleSteps(POD_SPEC, POD, a[2].path, [Field("schedulerName")], a[2].value, place, v);
    RuleSteps(POD_SPEC, POD, b[0].path, [Field("terminationGracePeriodSeconds")], b[0].value, place, v);
    RuleSteps(POD_SPEC, POD, b[1].path, [Field("securityContext")], b[1].value, place, v);
    RuleSteps(POD_SPEC, POD, b[2].path, [Field("serviceAccountName")], b[2].value, place, v);
    RuleSteps(POD_SPEC, POD, c[0].path, [Field("serviceAccount")], c[0].value, place, v);
    assert c[1..] == [];
    hide Ruled, RuledBy, Steps;
  }

  predicate FieldsOnly(place: seq<Step>) {
    forall i :: 0 <= i < |place| ==> place[i].Field?
  }

  lemma NoListExcuse(item: Item, live: Json, source: Json, path: seq<string>, place: seq<Step>, v: Json)
    requires FieldsOnly(place)
    ensures !ListExcused(item, live, source, path, place, v)
  {
    hide ItemExcused;
  }

  /** At a place that leads through no list, a default is excused exactly when it is the documented one and the source holds
      nothing there; and of a Deployment alone. */
  lemma DocumentedExactly(live: Json, source: Json, place: seq<Step>, v: Json)
    requires FieldsOnly(place)
    ensures DefaultExcused(live, source, place, v) <==>
      KindOf(live) == "Deployment" && Documented(place, v) && Lookup(source, place).None?
  {
    TablesHoldLeaves();
    RuledMeans(source, [], DEPLOYMENT_DEFAULTS, place, v);
    RuledMeans(source, POD_SPEC, POD_SPEC_DEFAULTS, place, v);
    DeploymentRuled(place, v);
    PodRuled(place, v);
    NoListExcuse(Container, live, source, POD_SPEC + ["containers"], place, v);
    NoListExcuse(Container, live, source, POD_SPEC + ["initContainers"], place, v);
    NoListExcuse(Volume, live, source, POD_SPEC + ["volumes"], place, v);
    hide FieldExcused, ListExcused, DocumentedAbove, DocumentedBelow, Ruled, Lookup, LeafRules;
  }

  /** What may be left out of an object that is not a Deployment is no default, whatever it holds. */
  lemma OthersHaveNoDefaults(live: Json, source: Json, place: seq<Step>, v: Json)
    requires KindOf(Stripped(live, source)) != "Deployment"
    ensures Excused(live, source, place, v) <==> StripExcused(source, place, v)
  {
    hide Stripped, StripExcused;
  }

  lemma OneRule(source: Json, prefix: seq<string>, rule: Rule, place: seq<Step>, v: Json)
    requires LeafRules([rule])
    ensures FieldExcused(source, prefix, [rule], place, v) <==> RuledBy(prefix, rule, place, v) && Lookup(source, place).None?
  {
    RuledMeans(source, prefix, [rule], place, v);
    RuledBySome(prefix, [rule], place, v);
    RuledBySome(prefix, [], place, v);
    assert [rule][1..] == [];
    hide FieldExcused, Ruled, RuledBy, Lookup, LeafRules;
  }

  /** A port's and a volume's own defaults. */
  lemma PortAndVolumeDefaults(e: Json, counterpart: Json, place: seq<Step>, v: Json)
    ensures ItemExcused(Port, e, counterpart, place, v) <==>
      place == [Field("protocol")] && v == Str("TCP") && Lookup(counterpart, place).None?
    ensures ItemExcused(Volume, e, counterpart, place, v) <==>
      place == [Field("hostPath"), Field("type")] && v == Str("") && Lookup(counterpart, place).None?
  {
    TablesHoldLeaves();
    var port, volume := Rule(["protocol"], Str("TCP")), Rule(["type"], Str(""));
    assert PORT_DEFAULTS == [port] && HOST_PATH_DEFAULTS == [volume];
    OneRule(counterpart, [], port, place, v);
    OneRule(counterpart, ["hostPath"], volume, place, v);
    assert Steps([] + port.path) == [Field("protocol")];
    assert Steps(["hostPath"] + volume.path) == [Field("hostPath"), Field("type")];
    hide FieldExcused, Lookup, Steps, LeafRules;
  }

  /** Bookkeeping is what Kubernetes writes about an object, and two annotations that tools leave. */
  lemma BookkeepingMeans(place: seq<Step>)
    ensures BelowAny(BOOKKEEPING, place) <==>
      || (|place| >= 1 && place[0] == Field("status"))
      || (&& |place| >= 2 && place[0] == Field("metadata") && place[1].Field?
          && place[1].key in {"uid", "resourceVersion", "generation", "creationTimestamp", "managedFields", "selfLink"})
  {
    assert Steps(BOOKKEEPING[0]) == [Field("status")];
    assert Steps(BOOKKEEPING[1]) == [Field("metadata"), Field("uid")];
    assert Steps(BOOKKEEPING[2]) == [Field("metadata"), Field("resourceVersion")];
    assert Steps(BOOKKEEPING[3]) == [Field("metadata"), Field("generation")];
    assert Steps(BOOKKEEPING[4]) == [Field("metadata"), Field("creationTimestamp")];
    assert Steps(BOOKKEEPING[5]) == [Field("metadata"), Field("managedFields")];
    assert Steps(BOOKKEEPING[6]) == [Field("metadata"), Field("selfLink")];
    if BelowAny(BOOKKEEPING, place) {
      var i :| 0 <= i < |BOOKKEEPING| && Steps(BOOKKEEPING[i]) <= place;
      assert place[0] == Steps(BOOKKEEPING[i])[0];
      if i > 0 { assert place[1] == Steps(BOOKKEEPING[i])[1]; }
    }
    hide Steps;
  }

  /** Two annotations that tools leave are taken from the live object alone. */
  lemma ToolAnnotationsMean(place: seq<Step>)
    ensures BelowAny(TOOL_ANNOTATIONS, place) <==>
      && |place| >= 3 && place[0] == Field("metadata") && place[1] == Field("annotations") && place[2].Field?
      && place[2].key in {"kubectl.kubernetes.io/last-applied-configuration", "argocd.argoproj.io/tracking-id"}
  {
    var a := [Field("metadata"), Field("annotations"), Field("kubectl.kubernetes.io/last-applied-configuration")];
    var b := [Field("metadata"), Field("annotations"), Field("argocd.argoproj.io/tracking-id")];
    assert Steps(TOOL_ANNOTATIONS[0]) == a && Steps(TOOL_ANNOTATIONS[1]) == b;
    hide Steps;
    assert BelowAny(TOOL_ANNOTATIONS, place) <==> a <= place || b <= place;
  }

  lemma KindSurvives(live: Json, source: Json)
    requires HasLeaf(live, [Field("kind")], Str("Deployment"))
    ensures KindOf(Stripped(live, source)) == "Deployment"
  {
    var place := [Field("kind")];
    var paths := BOOKKEEPING + TOOL_ANNOTATIONS;
    forall k | 0 <= k < |paths| ensures !(Steps(paths[k]) <= place) {
      assert paths[k][0] != "kind";
      assert Apart(paths[k], place);
      NotBelow(paths[k], place);
    }
    assert Apart(NAMESPACE, place);
    NotBelow(NAMESPACE, place);
    StrippedKeeps(live, source, place, Str("Deployment"));
    NestedLookup(Stripped(live, source), ["kind"]);
    assert Steps(["kind"]) == place;
    hide Stripped, BelowAny;
  }

  lemma DefaultsInside(live: Json, source: Json, field: string, i: nat, key: string, v: Json)
    requires field in {"containers", "initContainers"} && KindOf(live) == "Deployment"
    ensures DefaultExcused(live, source, Inside(field, i, key), v) <==>
      ListExcused(Container, live, source, POD_SPEC + [field], Inside(field, i, key), v)
  {
    var place := Inside(field, i, key);
    TablesHoldLeaves();
    RuledMeans(source, [], DEPLOYMENT_DEFAULTS, place, v);
    RuledMeans(source, POD_SPEC, POD_SPEC_DEFAULTS, place, v);
    DeploymentRuled(place, v);
    PodRuled(place, v);
    assert |place| == 6 && place[4] == At(i) && !Documented(place, v);
    OtherListsApart(Volume, live, source, "volumes", field, i, key, v);
    OtherListsApart(Container, live, source, if field == "containers" then "initContainers" else "containers", field, i, key, v);
    hide FieldExcused, ListExcused, Inside, Ruled, LeafRules;
  }

  /** A field of a container or init container of a Deployment is left out of the comparison if and only if the first
      source container of that name is silent about it and it is what it is when left out: the pull policy its image
      implies, or one of three documented values. Any other value, and any the source sets, is compared. */
  lemma ContainerFieldGoesExactly(live: Json, source: Json, field: string, i: nat, name: string, image: string, key: string, v: Json)
    requires field in {"containers", "initContainers"} && key != STAMP
    requires HasLeaf(live, [Field("kind")], Str("Deployment"))
    requires HasLeaf(live, Inside(field, i, "name"), Str(name)) && HasLeaf(live, Inside(field, i, "image"), Str(image))
    requires HasLeaf(live, Inside(field, i, key), v)
    ensures !HasLeaf(NormalLive(live, source), Inside(field, i, key), v) <==>
      ContainerDefault(key, image) == Some(v) && !Declares(source, field, name, key)
  {
    var s := Stripped(live, source);
    assert "name" != STAMP && "image" != STAMP;
    hide *;
    VanishesExactly(live, source, Inside(field, i, key), v);
    NotStripped(source, field, i, key, v);
    ElementSurvives(live, source, field, i, "name", Str(name));
    ElementSurvives(live, source, field, i, "image", Str(image));
    KindSurvives(live, source);
    DefaultsInside(s, source, field, i, key, v);
    ListField(s, source, field, i, name, image, key, v);
    ExcusedMeans(live, source, Inside(field, i, key), v);
  }

  /** A field of a Deployment or of its pod template, outside lists and bookkeeping, is left out of the comparison if and
      only if it is the documented default and the source holds nothing there. */
  lemma DefaultGoesExactly(live: Json, source: Json, place: seq<Step>, v: Json)
    requires HasLeaf(live, [Field("kind")], Str("Deployment")) && HasLeaf(live, place, v)
    requires FieldsOnly(place) && !StripExcused(source, place, v)
    ensures !HasLeaf(NormalLive(live, source), place, v) <==> Documented(place, v) && Lookup(source, place).None?
  {
    var s := Stripped(live, source);
    hide *;
    VanishesExactly(live, source, place, v);
    KindSurvives(live, source);
    DocumentedExactly(s, source, place, v);
    ExcusedMeans(live, source, place, v);
  }

  lemma ExcusedMeans(live: Json, source: Json, place: seq<Step>, v: Json)
    ensures Excused(live, source, place, v) <==> StripExcused(source, place, v) || DefaultExcused(Stripped(live, source), source, place, v)
  {
  }

  lemma ElementSurvives(live: Json, source: Json, field: string, i: nat, key: string, v: Json)
    requires key != STAMP && HasLeaf(live, Inside(field, i, key), v)
    ensures HasLeaf(Stripped(live, source), Inside(field, i, key), v)
  {
    StrippedKeeps(live, source, Inside(field, i, key), v);
    NotStripped(source, field, i, key, v);
  }

  lemma ImpliedPolicy(image: string)
    ensures ContainerDefault("imagePullPolicy", image) == Some(Str(ExpectedPolicy(image)))
  {
  }

  /** So for an image of each written form, where the source is silent: without a tag or tagged latest exactly Always is
      left out, and with any other tag exactly IfNotPresent. */
  lemma PolicyByTag(live: Json, source: Json, field: string, i: nat, name: string, p: string, n: string, t: string, v: Json)
    requires field in {"containers", "initContainers"} && Registry(p) && '/' !in n && ':' !in n && '/' !in t && ':' !in t
    requires HasLeaf(live, [Field("kind")], Str("Deployment")) && HasLeaf(live, Inside(field, i, "name"), Str(name))
    requires HasLeaf(live, Inside(field, i, "imagePullPolicy"), v) && !Declares(source, field, name, "imagePullPolicy")
    ensures HasLeaf(live, Inside(field, i, "image"), Str(p + n)) ==>
      (!HasLeaf(NormalLive(live, source), Inside(field, i, "imagePullPolicy"), v) <==> v == Str("Always"))
    ensures HasLeaf(live, Inside(field, i, "image"), Str(p + (n + ":" + t))) ==>
      (!HasLeaf(NormalLive(live, source), Inside(field, i, "imagePullPolicy"), v) <==>
         v == Str(if t == "latest" then "Always" else "IfNotPresent"))
  {
    PolicyOfImage(p, n, t);
    assert "imagePullPolicy" != STAMP;
    hide *;
    if HasLeaf(live, Inside(field, i, "image"), Str(p + n)) {
      ContainerFieldGoesExactly(live, source, field, i, name, p + n, "imagePullPolicy", v);
      ImpliedPolicy(p + n);
    }
    if HasLeaf(live, Inside(field, i, "image"), Str(p + (n + ":" + t))) {
      ContainerFieldGoesExactly(live, source, field, i, name, p + (n + ":" + t), "imagePullPolicy", v);
      ImpliedPolicy(p + (n + ":" + t));
    }
  }

  // ---- nothing hollow is left behind ----

  lemma {:induction false} PrunedLeavesNoShell(live: Json, source: Json, path: seq<string>, depth: nat, d: nat)
    requires depth <= |path| && 0 < d <= depth && Sets(live, path[..depth]) && !Sets(source, path[..d])
    ensures Nested(Prune(live, source, path, depth), path[..d]) != Some(EMPTY)
    decreases depth
  {
    if Nested(live, path[..depth]) == Some(EMPTY) && !Sets(source, path[..depth]) {
      RemovedIsUnset(live, path[..depth]);
      var next := Remove(live, path[..depth]);
      PruneIsPart(next, source, path, depth - 1);
      if d == depth {
        StaysUnset(Prune(next, source, path, depth - 1), next, path[..d]);
      } else {
        assert path[..depth - 1] + [path[depth - 1]] == path[..depth];
        ParentStaysSet(live, path[..depth - 1], path[depth - 1]);
        PrunedLeavesNoShell(next, source, path, depth - 1, d);
      }
    } else if d < depth {
      HoldsSomething(live, path[..depth], d);
      assert path[..depth][..d] == path[..d];
    } else {
      assert d == depth;
    }
  }

  lemma {:induction false} RemovedIsUnset(j: Json, path: seq<string>)
    requires path != []
    ensures !Sets(Remove(j, path), path)
  {
    if j.Obj? && path[0] in j.fields && |path| > 1 { RemovedIsUnset(j.fields[path[0]], path[1..]); }
  }

  lemma StaysUnset(part: Json, whole: Json, path: seq<string>)
    requires PartOf(part, whole) && !Sets(whole, path)
    ensures !Sets(part, path)
  {
    NestedLookup(part, path);
    NestedLookup(whole, path);
    GoneFromPart(part, whole, Steps(path));
  }

  lemma {:induction false} ParentStaysSet(j: Json, parent: seq<string>, key: string)
    requires Sets(j, parent + [key])
    ensures Sets(Remove(j, parent + [key]), parent)
    ensures Nested(Remove(j, parent + [key]), parent).value.Obj?
  {
    var path := parent + [key];
    if parent != [] {
      assert path[1..] == parent[1..] + [key];
      ParentStaysSet(j.fields[path[0]], parent[1..], key);
    }
  }

  lemma {:induction false} HoldsSomething(j: Json, path: seq<string>, d: nat)
    requires d < |path| && Sets(j, path)
    ensures Nested(j, path[..d]) != Some(EMPTY)
  {
    PathSplit(j, path[..d], path[d..]);
    assert path == path[..d] + path[d..];
  }

  /** Where a default was taken out, no object is left that holds nothing and that the source is silent about. */
  lemma NoShellIsLeft(live: Json, source: Json, path: seq<string>, value: Json, d: nat)
    requires path != [] && 0 < d < |path| && !Sets(source, path[..d])
    requires Sets(live, path) && NestedOrNull(live, path) == value && !Sets(source, path)
    ensures Nested(DefaultField(live, source, path, value), path[..d]) != Some(EMPTY)
  {
    var parent, key := path[..|path| - 1], path[|path| - 1];
    assert path == parent + [key];
    ParentStaysSet(live, parent, key);
    PrunedLeavesNoShell(Remove(live, path), source, path, |path| - 1, d);
  }
}
