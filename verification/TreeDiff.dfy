/** The comparison of a manifest with a live object (internal/gitops/diff.go), as a function of the two
    trees. TreeWalk holds the code that computes it. */
module TreeDiff {
  import opened Order
  import opened Json

  /** One segment of a reported path: a field, a list element named by its key, or a list position. */
  datatype Seg = Key(key: string) | Elem(on: string, name: string) | Index(i: nat)

  type Path = seq<Seg>

  datatype Kind = Changed | MissingInLive | AddedInLive

  /** One reported row. A redacted row carries no values. */
  datatype Difference = Difference(path: Path, kind: Kind, redacted: bool, source: Option<Json>, live: Option<Json>)

  const DIFFERENCE_LIMIT := 200

  // ---- paths as text ----

  function Digits(n: nat): string {
    if n < 10 then [['0', '1', '2', '3', '4', '5', '6', '7', '8', '9'][n]]
    else Digits(n / 10) + Digits(n % 10)
  }

  function Join(path: string, key: string): string {
    if path == "" then key else path + "." + key
  }

  function Render(path: Path): string {
    if path == [] then ""
    else
      var front := Render(path[..|path| - 1]);
      match path[|path| - 1]
      case Key(k) => Join(front, k)
      case Elem(on, name) => front + "[" + on + "=" + name + "]"
      case Index(i) => front + "[" + Digits(i) + "]"
  }

  function AfterLastDot(s: string): string {
    if s == [] then []
    else
      var rest := AfterLastDot(s[1..]);
      if '.' in s[1..] then rest
      else if s[0] == '.' then s[1..] else s
  }

  function BeforeBracket(s: string): string {
    if s == [] || s[0] == '[' then [] else [s[0]] + BeforeBracket(s[1..])
  }

  /** The last named segment of a path, which the merge-key table is keyed by. */
  function FieldOf(path: string): string {
    BeforeBracket(AfterLastDot(path))
  }

  function MergeKeys(field: string): seq<string> {
    if field in {"containers", "initContainers", "ephemeralContainers", "env", "volumes", "imagePullSecrets"} then ["name"]
    else if field == "volumeMounts" then ["mountPath"]
    else if field == "ports" then ["name", "containerPort", "port"]
    else []
  }

  predicate SecretPath(path: string) {
    path == "data" || "data." <= path || path == "stringData" || "stringData." <= path
  }

  /** What the walk consults: the candidate keys of the list at a path, and whether a path holds a secret. */
  datatype Rules = Rules(keysAt: Path -> seq<string>, secretAt: Path -> bool)

  /** The comparison's own table, with redaction for a Secret. */
  function KubeRules(secret: bool): Rules {
    Rules(path => MergeKeys(FieldOf(Render(path))), path => secret && SecretPath(Render(path)))
  }

  // ---- keyed lists ----

  /** A value usable as an identity; objects, lists, nulls and the empty string are not. */
  function Scalar(v: Json): Option<string> {
    match v
    case Str(s) => if s == "" then None else Some(s)
    case Num(t) => Some(t)
    case Bool(b) => Some(if b then "true" else "false")
    case _ => None
  }

  function Name(element: Json, key: string): Option<string> {
    if element.Obj? && key in element.fields then Scalar(element.fields[key]) else None
  }

  /** The key gives every element a name of its own; an empty list is not identified. */
  predicate Identifies(list: seq<Json>, key: string) {
    && list != []
    && (forall i :: 0 <= i < |list| ==> Name(list[i], key).Some?)
    && (forall i, j :: 0 <= i < j < |list| ==> Name(list[i], key) != Name(list[j], key))
  }

  /** The first candidate key that identifies every element on both sides. */
  function FirstKey(keys: seq<string>, source: seq<Json>, live: seq<Json>): (r: Option<string>)
    ensures r.Some? ==> Identifies(source, r.value) && Identifies(live, r.value)
  {
    if keys == [] then None
    else if Identifies(source, keys[0]) && Identifies(live, keys[0]) then Some(keys[0])
    else FirstKey(keys[1..], source, live)
  }

  function PairKey(rules: Rules, path: Path, source: seq<Json>, live: seq<Json>): (r: Option<string>)
    ensures r.Some? ==> Identifies(source, r.value) && Identifies(live, r.value)
  {
    FirstKey(rules.keysAt(path), source, live)
  }

  predicate HasName(list: seq<Json>, key: string, name: string) {
    exists i :: 0 <= i < |list| && Name(list[i], key) == Some(name)
  }

  function Find(list: seq<Json>, key: string, name: string): (r: Option<Json>)
    ensures r.Some? <==> HasName(list, key, name)
    ensures r.Some? ==> r.value in list && Name(r.value, key) == Some(name)
  {
    if list == [] then None
    else if Name(list[0], key) == Some(name) then Some(list[0])
    else
      assert forall i :: 1 <= i < |list| ==> list[i] == list[1..][i - 1];
      Find(list[1..], key, name)
  }

  // ---- the walk ----

  /** What one segment leads to inside a value. */
  function Sub(j: Json, seg: Seg): (r: Option<Json>)
    ensures r.Some? ==> r.value < j
  {
    match seg
    case Key(k) => if j.Obj? then Get(j.fields, k) else None
    case Elem(on, name) => if j.List? then Find(j.elems, on, name) else None
    case Index(i) => if j.List? && i < |j.elems| then Some(j.elems[i]) else None
  }

  /** Whether the walk goes inside: both sides are objects or both are lists. */
  predicate Descends(source: Json, live: Json) {
    (source.Obj? && live.Obj?) || (source.List? && live.List?)
  }

  function NameOf(element: Json, key: string): string {
    Name(element, key).GetOr("")
  }

  function NamesOf(list: seq<Json>, key: string): (r: seq<string>)
    ensures |r| == |list|
    ensures forall i :: 0 <= i < |r| ==> r[i] == NameOf(list[i], key)
  {
    seq(|list|, i requires 0 <= i < |list| => NameOf(list[i], key))
  }

  /** The members of `names` outside `known`, in their order. */
  function Others(names: seq<string>, known: seq<string>): seq<string> {
    if names == [] then []
    else (if names[0] in known then [] else [names[0]]) + Others(names[1..], known)
  }

  function KeySegs(keys: seq<string>): seq<Seg> {
    seq(|keys|, i requires 0 <= i < |keys| => Key(keys[i]))
  }

  function ElemSegs(key: string, names: seq<string>): seq<Seg> {
    seq(|names|, i requires 0 <= i < |names| => Elem(key, names[i]))
  }

  /** The segments the walk visits under a node, in order: source fields sorted and then the fields only
      live has; source elements and then the elements only live has; or positions. */
  ghost function Segs(rules: Rules, path: Path, source: Json, live: Json): seq<Seg>
    requires Descends(source, live)
  {
    if source.Obj? then
      var mine := SortedKeys(source.fields.Keys);
      KeySegs(mine + Others(SortedKeys(live.fields.Keys), mine))
    else
      match PairKey(rules, path, source.elems, live.elems)
      case Some(key) =>
        var mine := NamesOf(source.elems, key);
        ElemSegs(key, mine + Others(NamesOf(live.elems, key), mine))
      case None =>
        seq(if |source.elems| < |live.elems| then |live.elems| else |source.elems|, i requires 0 <= i => Index(i))
  }

  function Row(rules: Rules, path: Path, kind: Kind, source: Option<Json>, live: Option<Json>): Difference {
    if rules.secretAt(path) then Difference(path, kind, true, None, None)
    else Difference(path, kind, false, source, live)
  }

  /** Every difference between two trees, in the order the walk meets them and without the cap. */
  ghost function Walk(rules: Rules, path: Path, source: Json, live: Json): seq<Difference>
    decreases source, 2
  {
    if Descends(source, live) then Flatten(Parts(rules, path, source, live))
    else if source == live then []
    else [Row(rules, path, Changed, Some(source), Some(live))]
  }

  ghost function Parts(rules: Rules, path: Path, source: Json, live: Json): (r: seq<seq<Difference>>)
    requires Descends(source, live)
    decreases source, 1
  {
    var segs := Segs(rules, path, source, live);
    seq(|segs|, i requires 0 <= i < |segs| => Visit(rules, path, source, live, segs[i]))
  }

  /** What one visited segment contributes. */
  ghost function Visit(rules: Rules, path: Path, source: Json, live: Json, seg: Seg): seq<Difference>
    decreases source, 0
  {
    var here := path + [seg];
    match (Sub(source, seg), Sub(live, seg))
    case (Some(s), Some(l)) => Walk(rules, here, s, l)
    case (s, None) => [Row(rules, here, MissingInLive, s, None)]
    case (None, l) => [Row(rules, here, AddedInLive, None, l)]
  }

  /** The rows in path order, as the panel receives them. */
  predicate PathLeq(a: Difference, b: Difference) {
    !Less(Render(b.path), Render(a.path))
  }

  function Capped(rows: seq<Difference>): seq<Difference> {
    if |rows| <= DIFFERENCE_LIMIT then rows else rows[..DIFFERENCE_LIMIT]
  }

  ghost function Compare(source: Fields, live: Fields, secret: bool): seq<Difference> {
    StableSort(Capped(Walk(KubeRules(secret), [], Obj(source), Obj(live))), PathLeq)
  }
}
