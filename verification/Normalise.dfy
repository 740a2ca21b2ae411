/** What is removed from the two objects before they are compared (internal/gitops/normalise.go and
    defaults.go), as functions of their values. NormaliseCode holds the code that edits in place. */
module Normalise {
  import opened Order
  import opened Json
  import opened Pruning

  // ---- null creation timestamps ----

  const STAMP := "creationTimestamp"

  predicate NullStamp(key: string, v: Json) { key == STAMP && v == Null }

  /** The value with every null creationTimestamp gone, and every object that held nothing else. */
  function Drop(v: Json): Json {
    match v
    case Obj(m) => Obj(map k | k in m && !NullStamp(k, m[k]) && !Emptied(m[k]) :: Drop(m[k]))
    case List(s) => List(seq(|s|, i requires 0 <= i < |s| => Drop(s[i])))
    case _ => v
  }

  /** Whether dropping took a null timestamp out of this object and left it empty. */
  predicate Emptied(v: Json) {
    v.Obj? && STAMP in v.fields && v.fields[STAMP] == Null &&
    forall k :: k in v.fields ==> NullStamp(k, v.fields[k]) || Emptied(v.fields[k])
  }

  // ---- default rules ----

  datatype Rule = Rule(path: seq<string>, value: Json)

  const EMPTY := Obj(map[])

  const DEPLOYMENT_DEFAULTS := [
    Rule(["spec", "replicas"], Num("1")),
    Rule(["spec", "progressDeadlineSeconds"], Num("600")),
    Rule(["spec", "revisionHistoryLimit"], Num("10")),
    Rule(["spec", "strategy", "type"], Str("RollingUpdate")),
    Rule(["spec", "strategy", "rollingUpdate", "maxSurge"], Str("25%")),
    Rule(["spec", "strategy", "rollingUpdate", "maxUnavailable"], Str("25%"))]

  const POD_SPEC_DEFAULTS := [
    Rule(["restartPolicy"], Str("Always")),
    Rule(["dnsPolicy"], Str("ClusterFirst")),
    Rule(["schedulerName"], Str("default-scheduler")),
    Rule(["terminationGracePeriodSeconds"], Num("30")),
    Rule(["securityContext"], EMPTY),
    Rule(["serviceAccountName"], Str("default")),
    Rule(["serviceAccount"], Str("default"))]

  const CONTAINER_DEFAULTS := [
    Rule(["terminationMessagePath"], Str("/dev/termination-log")),
    Rule(["terminationMessagePolicy"], Str("File")),
    Rule(["resources"], EMPTY)]

  const PORT_DEFAULTS := [Rule(["protocol"], Str("TCP"))]

  const HOST_PATH_DEFAULTS := [Rule(["type"], Str(""))]

  /** Removes the objects a removal left empty, from the inside out, stopping at the first that still
      holds something or that the source declares. */
  function Prune(live: Json, source: Json, path: seq<string>, depth: nat): Json
    requires depth <= |path|
    decreases depth
  {
    if depth == 0 then live
    else if Nested(live, path[..depth]) != Some(EMPTY) || Sets(source, path[..depth]) then live
    else Prune(Remove(live, path[..depth]), source, path, depth - 1)
  }

  function DefaultField(live: Json, source: Json, path: seq<string>, value: Json): Json
    requires path != []
  {
    if Sets(source, path) || NestedOrNull(live, path) != value then live
    else Prune(Remove(live, path), source, path, |path| - 1)
  }

  function DefaultFields(live: Json, source: Json, prefix: seq<string>, rules: seq<Rule>): Json
    decreases rules
  {
    if rules == [] then live
    else if prefix + rules[0].path == [] then DefaultFields(live, source, prefix, rules[1..])
    else DefaultFields(DefaultField(live, source, prefix + rules[0].path, rules[0].value), source, prefix, rules[1..])
  }

  // ---- the derived pull policy ----

  function AfterLastSlash(s: string): string {
    if s == [] then []
    else if '/' in s[1..] then AfterLastSlash(s[1..])
    else if s[0] == '/' then s[1..] else s
  }

  predicate HasSuffix(s: string, suffix: string) {
    |suffix| <= |s| && s[|s| - |suffix|..] == suffix
  }

  function ImageOf(item: Json): string {
    match Nested(item, ["image"])
    case Some(Str(s)) => s
    case _ => ""
  }

  function ExpectedPolicy(image: string): string {
    var tag := AfterLastSlash(image);
    if ':' !in tag || HasSuffix(tag, ":latest") then "Always" else "IfNotPresent"
  }

  function DefaultPullPolicy(live: Json, source: Json): Json {
    if Sets(source, ["imagePullPolicy"]) || Nested(live, ["imagePullPolicy"]) != Some(Str(ExpectedPolicy(ImageOf(live)))) then live
    else Remove(live, ["imagePullPolicy"])
  }

  // ---- keyed lists ----

  /** The first source element with the same key value, or an empty object. */
  function Counterpart(list: seq<Json>, key: string, value: Json): Json {
    if list == [] then EMPTY
    else if list[0].Obj? && NestedOrNull(list[0], [key]) == value then list[0]
    else Counterpart(list[1..], key, value)
  }

  function ElementsAt(j: Json, path: seq<string>): seq<Json> {
    match Nested(j, path)
    case Some(List(s)) => s
    case _ => []
  }

  /** What is done to one element of a list. */
  datatype Item = Port | Container | Volume

  function KeyOf(item: Item): string {
    if item == Port then "containerPort" else "name"
  }

  function Replace(j: Json, path: seq<string>, v: Json): Json
    decreases path
  {
    if path == [] then v
    else if j.Obj? && path[0] in j.fields then Obj(j.fields[path[0] := Replace(j.fields[path[0]], path[1..], v)])
    else j
  }

  function Nesting(item: Item): nat {
    if item == Container then 1 else 0
  }

  function DefaultItem(item: Item, live: Json, source: Json): Json
    decreases Nesting(item), 0
  {
    match item
    case Port => DefaultFields(live, source, [], PORT_DEFAULTS)
    case Volume => DefaultFields(live, source, ["hostPath"], HOST_PATH_DEFAULTS)
    case Container => DefaultList(Port, DefaultPullPolicy(DefaultFields(live, source, [], CONTAINER_DEFAULTS), source), source, ["ports"])
  }

  function DefaultElements(item: Item, list: seq<Json>, counterparts: seq<Json>): (r: seq<Json>)
    ensures |r| == |list|
    decreases Nesting(item), 1
  {
    seq(|list|, i requires 0 <= i < |list| =>
      if list[i].Obj? then DefaultItem(item, list[i], Counterpart(counterparts, KeyOf(item), NestedOrNull(list[i], [KeyOf(item)])))
      else list[i])
  }

  /** Applies an element normaliser to the list at a path, pairing by key with the source's list there. */
  function DefaultList(item: Item, live: Json, source: Json, path: seq<string>): Json
    decreases Nesting(item), 2
  {
    match Nested(live, path)
    case Some(List(list)) => Replace(live, path, List(DefaultElements(item, list, ElementsAt(source, path))))
    case _ => live
  }

  const POD_SPEC := ["spec", "template", "spec"]

  function DefaultPodSpec(live: Json, source: Json, prefix: seq<string>): Json {
    var l := DefaultFields(live, source, prefix, POD_SPEC_DEFAULTS);
    var l := DefaultList(Container, l, source, prefix + ["containers"]);
    var l := DefaultList(Container, l, source, prefix + ["initContainers"]);
    DefaultList(Volume, l, source, prefix + ["volumes"])
  }

  function KindOf(j: Json): string {
    match Nested(j, ["kind"])
    case Some(Str(s)) => s
    case _ => ""
  }

  function ApplyDefaults(live: Json, source: Json): Json {
    if KindOf(live) == "Deployment" then
      DefaultPodSpec(DefaultFields(live, source, [], DEPLOYMENT_DEFAULTS), source, POD_SPEC)
    else live
  }

  // ---- the whole pass ----

  const ANNOTATIONS := ["metadata", "annotations"]
  const LABELS := ["metadata", "labels"]
  const NAMESPACE := ["metadata", "namespace"]

  /** Fields the API server writes; they are removed from both sides. */
  const BOOKKEEPING := [
    ["status"], ["metadata", "uid"], ["metadata", "resourceVersion"], ["metadata", "generation"],
    ["metadata", "creationTimestamp"], ["metadata", "managedFields"], ["metadata", "selfLink"]]

  /** Annotations that tools leave on the live object; they are removed from it alone. */
  const TOOL_ANNOTATIONS := [
    ["metadata", "annotations", "kubectl.kubernetes.io/last-applied-configuration"],
    ["metadata", "annotations", "argocd.argoproj.io/tracking-id"]]

  function DropEmpty(live: Json, source: Json, path: seq<string>): Json {
    if Nested(live, path) == Some(EMPTY) && !Sets(source, path) then Remove(live, path) else live
  }

  /** The live object before defaults are looked at. */
  function Stripped(live: Json, source: Json): Json {
    var l := RemoveAll(live, BOOKKEEPING + TOOL_ANNOTATIONS);
    var l := if Sets(source, NAMESPACE) then l else Remove(l, NAMESPACE);
    DropEmpty(DropEmpty(Drop(l), source, ANNOTATIONS), source, LABELS)
  }

  function NormalLive(live: Json, source: Json): Json {
    ApplyDefaults(Stripped(live, source), source)
  }

  /** The string maps compared key by key. */
  const PER_KEY := [ANNOTATIONS, LABELS, ["spec", "template"] + ANNOTATIONS, ["spec", "template"] + LABELS]

  function PerKey(live: Json, source: Json, paths: seq<seq<string>>): Json
    decreases paths
  {
    if paths == [] then source
    else
      var bare := !Sets(source, paths[0]) && Sets(live, paths[0]) && Nested(live, paths[0]).value.Obj?;
      PerKey(live, if bare then SetEmpty(source, paths[0]) else source, paths[1..])
  }

  /** The source as it is compared, given the live object as it is compared. */
  function NormalSource(live: Json, source: Json): Json {
    Drop(RemoveAll(PerKey(live, source, PER_KEY), BOOKKEEPING))
  }
}
