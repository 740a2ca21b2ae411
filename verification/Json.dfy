/** Decoded Kubernetes objects. Both sides of a comparison go through one decoder, so a number is its
    JSON text and equal JSON encodings mean equal values. */
module Json {
  import opened Order

  datatype Json =
    | Null
    | Bool(b: bool)
    | Num(text: string)
    | Str(s: string)
    | List(elems: seq<Json>)
    | Obj(fields: map<string, Json>)

  type Fields = map<string, Json>

  function Get(m: Fields, key: string): Option<Json> {
    if key in m then Some(m[key]) else None
  }

  /** One step into a tree: a field of an object or an element of a list. */
  datatype Step = Field(key: string) | At(index: nat)

  function Child(j: Json, step: Step): (r: Option<Json>)
    ensures r.Some? ==> r.value < j
  {
    match step
    case Field(k) => if j.Obj? && k in j.fields then Some(j.fields[k]) else None
    case At(i) => if j.List? && i < |j.elems| then Some(j.elems[i]) else None
  }

  function Lookup(j: Json, place: seq<Step>): Option<Json> {
    if place == [] then Some(j)
    else match Child(j, place[0])
      case None => None
      case Some(c) => Lookup(c, place[1..])
  }

  /** A value with nothing inside it: a scalar, a null, an empty list or an empty object. */
  predicate Leaf(j: Json) {
    j != Obj(map[]) && j != List([]) ==> !j.Obj? && !j.List?
  }

  predicate HasLeaf(j: Json, place: seq<Step>, v: Json) {
    Leaf(v) && Lookup(j, place) == Some(v)
  }

  lemma {:induction false} LookupSplit(j: Json, a: seq<Step>, b: seq<Step>)
    ensures Lookup(j, a + b) ==
            match Lookup(j, a) { case None => None case Some(c) => Lookup(c, b) }
  {
    if a == [] {
      assert a + b == b;
    } else {
      assert (a + b)[1..] == a[1..] + b;
      match Child(j, a[0])
      case None =>
      case Some(c) => LookupSplit(c, a[1..], b);
    }
  }

  /** `part` is `whole` with some object fields taken out at any depth; lists keep their length. */
  predicate PartOf(part: Json, whole: Json)
    decreases whole
  {
    match (part, whole)
    case (Obj(p), Obj(w)) => p.Keys <= w.Keys && forall k :: k in p && k in w ==> PartOf(p[k], w[k])
    case (List(p), List(w)) => |p| == |w| && forall i :: 0 <= i < |p| && i < |w| ==> PartOf(p[i], w[i])
    case _ => part == whole
  }

  lemma {:induction false} PartOfSelf(j: Json)
    ensures PartOf(j, j)
  {
    match j
    case Obj(m) =>
      forall k | k in m ensures PartOf(m[k], m[k]) { PartOfSelf(m[k]); }
    case List(s) =>
      forall i | 0 <= i < |s| ensures PartOf(s[i], s[i]) { PartOfSelf(s[i]); }
    case _ =>
  }

  lemma {:induction false} PartOfTransitive(a: Json, b: Json, c: Json)
    requires PartOf(a, b) && PartOf(b, c)
    ensures PartOf(a, c)
    decreases c
  {
    match c
    case Obj(m) =>
      forall k | k in a.fields ensures PartOf(a.fields[k], m[k]) {
        PartOfTransitive(a.fields[k], b.fields[k], m[k]);
      }
    case List(s) =>
      forall i | 0 <= i < |s| ensures PartOf(a.elems[i], s[i]) {
        PartOfTransitive(a.elems[i], b.elems[i], s[i]);
      }
    case _ =>
  }

  /** A value of the part other than an emptied object is a value of the whole, at the same place. */
  lemma {:induction false} PartOfLeaf(part: Json, whole: Json, place: seq<Step>, v: Json)
    requires PartOf(part, whole) && HasLeaf(part, place, v) && v != Obj(map[])
    ensures HasLeaf(whole, place, v)
    decreases whole
  {
    if place != [] {
      var c := Child(part, place[0]).value;
      PartOfLeaf(c, Child(whole, place[0]).value, place[1..], v);
    }
  }
}
