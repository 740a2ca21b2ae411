/** The code of the comparison: rows are appended to a list as the two trees are walked, and nothing is
    added once the list is full. Its result is the function TreeDiff.Compare. */
module TreeWalk {
  import opened Order
  import opened Json
  import opened TreeDiff
  import opened Meaning

  /** The rows collected once the first `i` segments under a node have been visited. */
  ghost function Upto(before: seq<Difference>, rules: Rules, path: Path, s: Json, l: Json, i: nat): seq<Difference> {
    if Descends(s, l) && i <= |Parts(rules, path, s, l)| then Capped(before + Flatten(Parts(rules, path, s, l)[..i]))
    else before
  }

  lemma UptoNext(before: seq<Difference>, rules: Rules, path: Path, s: Json, l: Json, i: nat)
    requires Descends(s, l) && i < |Segs(rules, path, s, l)|
    ensures Capped(Upto(before, rules, path, s, l, i) + Visit(rules, path, s, l, Segs(rules, path, s, l)[i]))
         == Upto(before, rules, path, s, l, i + 1)
  {
    var parts := Parts(rules, path, s, l);
    FlattenNext(parts, i);
    var front := before + Flatten(parts[..i]);
    assert front + parts[i] == before + Flatten(parts[..i + 1]);
    CappedTwice(front, parts[i]);
  }

  lemma CappedTwice(a: seq<Difference>, b: seq<Difference>)
    ensures Capped(Capped(a) + b) == Capped(a + b)
  {
  }

  lemma FlattenNext<T>(parts: seq<seq<T>>, i: nat)
    requires i < |parts|
    ensures Flatten(parts[..i + 1]) == Flatten(parts[..i]) + parts[i]
  {
    assert parts[..i + 1] == parts[..i] + [parts[i]];
    FlattenAppend(parts[..i], [parts[i]]);
    assert Flatten([parts[i]]) == parts[i];
  }

  lemma KeysVisited(rules: Rules, path: Path, s: Json, l: Json, i: nat)
    requires s.Obj? && l.Obj?
    ensures var mine := SortedKeys(s.fields.Keys);
      var names := mine + Others(SortedKeys(l.fields.Keys), mine);
      |Segs(rules, path, s, l)| == |names| && (i < |names| ==> Segs(rules, path, s, l)[i] == Key(names[i]))
  {
  }

  lemma FieldVisit(rules: Rules, path: Path, s: Json, l: Json, key: string)
    requires s.Obj? && l.Obj?
    ensures var here := path + [Key(key)];
      && (key in s.fields && key in l.fields ==> Visit(rules, path, s, l, Key(key)) == Walk(rules, here, s.fields[key], l.fields[key]))
      && (key in s.fields && key !in l.fields ==> Visit(rules, path, s, l, Key(key)) == [Row(rules, here, MissingInLive, Some(s.fields[key]), None)])
      && (key !in s.fields && key in l.fields ==> Visit(rules, path, s, l, Key(key)) == [Row(rules, here, AddedInLive, None, Some(l.fields[key]))])
  {
  }

  /** The first loop over an object: field `mine[i]` of the source. */
  lemma OwnStep(before: seq<Difference>, rules: Rules, path: Path, s: Json, l: Json, i: nat)
    requires s.Obj? && l.Obj? && i < |SortedKeys(s.fields.Keys)|
    ensures i < |Segs(rules, path, s, l)| && SortedKeys(s.fields.Keys)[i] in s.fields
    ensures var key := SortedKeys(s.fields.Keys)[i];
      Upto(before, rules, path, s, l, i + 1) == Capped(Upto(before, rules, path, s, l, i) +
        if key in l.fields then Walk(rules, path + [Key(key)], s.fields[key], l.fields[key])
        else [Row(rules, path + [Key(key)], MissingInLive, Some(s.fields[key]), None)])
  {
    var key := SortedKeys(s.fields.Keys)[i];
    assert key in SortedKeys(s.fields.Keys);
    KeysVisited(rules, path, s, l, i);
    FieldVisit(rules, path, s, l, key);
    UptoNext(before, rules, path, s, l, i);
  }

  lemma OthersNext(names: seq<string>, known: seq<string>, j: nat)
    requires j < |names|
    ensures names[j] in known ==> |Others(names[..j + 1], known)| == |Others(names[..j], known)|
    ensures names[j] !in known ==>
      var at := |Others(names[..j], known)|;
      |Others(names[..j + 1], known)| == at + 1 && at < |Others(names, known)| && Others(names, known)[at] == names[j]
  {
    OthersStep(names, known, j);
  }

  lemma UnknownRow(before: seq<Difference>, rules: Rules, path: Path, s: Json, l: Json, key: string, n: nat)
    requires s.Obj? && l.Obj? && key in l.fields && key !in s.fields
    requires var names := SortedKeys(s.fields.Keys) + Others(SortedKeys(l.fields.Keys), SortedKeys(s.fields.Keys));
      n < |names| && names[n] == key
    ensures Upto(before, rules, path, s, l, n + 1) ==
      Capped(Upto(before, rules, path, s, l, n) + [Row(rules, path + [Key(key)], AddedInLive, None, Some(l.fields[key]))])
  {
    KeysVisited(rules, path, s, l, n);
    FieldVisit(rules, path, s, l, key);
    UptoNext(before, rules, path, s, l, n);
  }

  lemma UptoEnds(before: seq<Difference>, rules: Rules, path: Path, s: Json, l: Json)
    requires Descends(s, l) && |before| <= DIFFERENCE_LIMIT
    ensures Upto(before, rules, path, s, l, 0) == before
    ensures Upto(before, rules, path, s, l, |Segs(rules, path, s, l)|) == Capped(before + Walk(rules, path, s, l))
  {
    var parts := Parts(rules, path, s, l);
    assert parts[..|parts|] == parts;
    assert before + [] == before;
  }

  lemma {:induction false} OthersStep(names: seq<string>, known: seq<string>, j: nat)
    requires j < |names|
    ensures Others(names[..j + 1], known) ==
            Others(names[..j], known) + if names[j] in known then [] else [names[j]]
    ensures Others(names[..j], known) <= Others(names[..j + 1], known) <= Others(names, known)
  {
    if j > 0 {
      OthersStep(names[1..], known, j - 1);
      assert names[1..][..j] == names[..j + 1][1..] && names[1..][..j - 1] == names[..j][1..];
    } else {
      assert names[..1][1..] == [] && names[..0] == [];
    }
  }

  method Sorted(fields: Fields) returns (keys: seq<string>)
    ensures keys == SortedKeys(fields.Keys)
  {
    keys := [];
    var rest := fields.Keys;
    while rest != {}
      invariant forall k :: k in fields.Keys <==> k in keys || k in rest
      invariant forall k :: k in keys ==> k !in rest
      invariant forall i, j :: 0 <= i < j < |keys| ==> keys[i] != keys[j]
      decreases rest
    {
      var k :| k in rest;
      keys, rest := keys + [k], rest - {k};
    }
    assert Elements(keys) == fields.Keys;
    keys := SortStrings(keys);
  }

  ghost predicate Indexed(out: map<string, Json>, list: seq<Json>, key: string) {
    && (forall a :: 0 <= a < |list| ==> Name(list[a], key).Some? && Get(out, Name(list[a], key).value) == Some(list[a]))
    && (forall n :: n in out ==> HasName(list, key, n))
  }

  lemma IndexedStep(out: map<string, Json>, list: seq<Json>, key: string, i: nat)
    requires i < |list| && Indexed(out, list[..i], key)
    requires Name(list[i], key).Some? && Name(list[i], key).value !in out
    ensures Indexed(out[Name(list[i], key).value := list[i]], list[..i + 1], key)
    ensures forall a :: 0 <= a < i ==> Name(list[a], key) != Name(list[i], key)
  {
    var name, more := Name(list[i], key).value, list[..i + 1];
    forall a | 0 <= a < i ensures Name(list[a], key) != Name(list[i], key) {
      assert list[..i][a] == list[a];
    }
    forall a | 0 <= a < i + 1
      ensures Name(more[a], key).Some? && Get(out[name := list[i]], Name(more[a], key).value) == Some(more[a])
    {
      if a < i { assert list[..i][a] == more[a]; }
    }
    forall n | n in out[name := list[i]] ensures HasName(more, key, n) {
      if n == name {
        assert Name(more[i], key) == Some(n);
      } else {
        var a :| 0 <= a < i && Name(list[..i][a], key) == Some(n);
        assert Name(more[a], key) == Some(n);
      }
    }
  }

  lemma IndexedTwice(out: map<string, Json>, list: seq<Json>, key: string, i: nat)
    requires i < |list| && Indexed(out, list[..i], key)
    requires Name(list[i], key).Some? && Name(list[i], key).value in out
    ensures !Identifies(list, key)
  {
    var a :| 0 <= a < i && Name(list[..i][a], key) == Name(list[i], key);
    assert Name(list[a], key) == Name(list[i], key);
  }

  lemma IndexedAll(out: map<string, Json>, list: seq<Json>, key: string)
    requires Indexed(out, list, key)
    requires forall a, b :: 0 <= a < b < |list| ==> Name(list[a], key) != Name(list[b], key)
    ensures out != map[] <==> list != []
    ensures list != [] ==> Identifies(list, key)
    ensures list != [] ==> forall n :: Get(out, n) == Find(list, key, n)
  {
    if n :| n in out { assert HasName(list, key, n); }
    if list != [] {
      assert Get(out, Name(list[0], key).value) == Some(list[0]);
      forall n ensures Get(out, n) == Find(list, key, n) {
        if HasName(list, key, n) {
          var a :| 0 <= a < |list| && Name(list[a], key) == Some(n);
          FindSelf(list, key, a);
        }
      }
    }
  }

  /** Maps a list to its elements by one key, refusing anything the key does not identify. */
  method IndexBy(list: seq<Json>, key: string) returns (out: map<string, Json>, ok: bool)
    ensures ok <==> Identifies(list, key)
    ensures ok ==> forall n :: Get(out, n) == Find(list, key, n)
  {
    out := map[];
    for i := 0 to |list|
      invariant Indexed(out, list[..i], key)
      invariant forall a, b :: 0 <= a < b < i ==> Name(list[a], key) != Name(list[b], key)
    {
      var name := Name(list[i], key);
      if name.None? {
        return map[], false;
      }
      if name.value in out {
        IndexedTwice(out, list, key, i);
        return map[], false;
      }
      IndexedStep(out, list, key, i);
      out := out[name.value := list[i]];
    }
    assert list[..|list|] == list;
    IndexedAll(out, list, key);
    ok := out != map[];
  }

  datatype Matched = Matched(key: string, value: string, source: Option<Json>, live: Option<Json>)

  predicate MatchedAs(m: Matched, key: string, name: string, source: seq<Json>, live: seq<Json>) {
    m == Matched(key, name, Find(source, key, name), Find(live, key, name))
  }

  /** Matches list elements by the first key both sides carry, source order first. */
  method PairUp(field: string, source: seq<Json>, live: seq<Json>) returns (out: seq<Matched>, ok: bool)
    ensures ok <==> FirstKey(MergeKeys(field), source, live).Some?
    ensures ok ==>
      var key := FirstKey(MergeKeys(field), source, live).value;
      && |out| == |PairNames(key, source, live)|
      && forall i :: 0 <= i < |out| ==> MatchedAs(out[i], key, PairNames(key, source, live)[i], source, live)
  {
    var keys := MergeKeys(field);
    for k := 0 to |keys|
      invariant FirstKey(keys, source, live) == FirstKey(keys[k..], source, live)
    {
      var bySource, okSource := IndexBy(source, keys[k]);
      if !okSource { continue; }
      var byLive, okLive := IndexBy(live, keys[k]);
      if !okLive { continue; }
      assert FirstKey(keys, source, live) == Some(keys[k]);
      out := Gather(keys[k], source, live, bySource, byLive);
      return out, true;
    }
    return [], false;
  }

  ghost function PairNames(key: string, source: seq<Json>, live: seq<Json>): seq<string> {
    NamesOf(source, key) + Others(NamesOf(live, key), NamesOf(source, key))
  }

  method Gather(key: string, source: seq<Json>, live: seq<Json>, bySource: map<string, Json>, byLive: map<string, Json>)
    returns (out: seq<Matched>)
    requires Identifies(source, key) && Identifies(live, key)
    requires forall n :: Get(bySource, n) == Find(source, key, n) && Get(byLive, n) == Find(live, key, n)
    ensures |out| == |PairNames(key, source, live)|
    ensures forall i :: 0 <= i < |out| ==> MatchedAs(out[i], key, PairNames(key, source, live)[i], source, live)
  {
    hide Others, Find, NameOf, NamesOf, Identifies;
    out := [];
    var seen := {};
    ghost var mine := NamesOf(source, key);
    for i := 0 to |source|
      invariant |out| == i && forall a :: 0 <= a < i ==> MatchedAs(out[a], key, mine[a], source, live)
      invariant forall n :: n in seen <==> n in mine[..i]
    {
      var value := NameOf(source[i], key);
      seen := seen + {value};
      out := out + [Matched(key, value, Get(bySource, value), Get(byLive, value))];
      assert mine[..i + 1] == mine[..i] + [value];
    }
    assert mine[..|source|] == mine;
    var rest := LiveOnly(key, source, live, byLive, seen);
    out := out + rest;
  }

  /** The second loop of PairUp: elements only the live list has. */
  method LiveOnly(key: string, source: seq<Json>, live: seq<Json>, byLive: map<string, Json>, seen: set<string>)
    returns (out: seq<Matched>)
    requires Identifies(source, key) && Identifies(live, key)
    requires forall n :: Get(byLive, n) == Find(live, key, n)
    requires forall n :: n in seen <==> n in NamesOf(source, key)
    ensures var names := Others(NamesOf(live, key), NamesOf(source, key));
      |out| == |names| && forall i :: 0 <= i < |out| ==> MatchedAs(out[i], key, names[i], source, live)
  {
    out := [];
    ghost var mine, theirs := NamesOf(source, key), NamesOf(live, key);
    for j := 0 to |live|
      invariant |out| == |Others(theirs[..j], mine)|
      invariant forall a :: 0 <= a < |out| ==> MatchedAs(out[a], key, Others(theirs[..j], mine)[a], source, live)
    {
      OthersStep(theirs, mine, j);
      var value := NameOf(live[j], key);
      if value !in seen {
        NameMembers(source, key, value);
        out := out + [Matched(key, value, None, Get(byLive, value))];
      }
    }
    assert theirs[..|live|] == theirs;
  }

  lemma NamedCount(secret: bool, path: Path, s: Json, l: Json)
    requires s.List? && l.List? && FirstKey(MergeKeys(FieldOf(Render(path))), s.elems, l.elems).Some?
    ensures var key := FirstKey(MergeKeys(FieldOf(Render(path))), s.elems, l.elems).value;
      Segs(KubeRules(secret), path, s, l) == ElemSegs(key, PairNames(key, s.elems, l.elems)) &&
      |Segs(KubeRules(secret), path, s, l)| == |PairNames(key, s.elems, l.elems)|
  {
  }

  lemma NamedStep(before: seq<Difference>, secret: bool, path: Path, s: Json, l: Json, i: nat)
    requires s.List? && l.List? && FirstKey(MergeKeys(FieldOf(Render(path))), s.elems, l.elems).Some?
    requires var key := FirstKey(MergeKeys(FieldOf(Render(path))), s.elems, l.elems).value;
      i < |PairNames(key, s.elems, l.elems)|
    ensures var key := FirstKey(MergeKeys(FieldOf(Render(path))), s.elems, l.elems).value;
      var name := PairNames(key, s.elems, l.elems)[i];
      var x, y, here := Find(s.elems, key, name), Find(l.elems, key, name), path + [Elem(key, name)];
      && (x.Some? || y.Some?)
      && Upto(before, KubeRules(secret), path, s, l, i + 1) == Capped(Upto(before, KubeRules(secret), path, s, l, i) +
           if x.None? then [Row(KubeRules(secret), here, AddedInLive, None, y)]
           else if y.None? then [Row(KubeRules(secret), here, MissingInLive, x, None)]
           else Walk(KubeRules(secret), here, x.value, y.value))
  {
    NamedCount(secret, path, s, l);
    var segs := Segs(KubeRules(secret), path, s, l);
    SegsMembers(KubeRules(secret), path, s, l);
    assert segs[i] in segs;
    UptoNext(before, KubeRules(secret), path, s, l, i);
    var key := FirstKey(MergeKeys(FieldOf(Render(path))), s.elems, l.elems).value;
    assert segs[i] == Elem(key, PairNames(key, s.elems, l.elems)[i]);
  }

  /** The step a matched pair stands for. */
  lemma PairStep(before: seq<Difference>, secret: bool, path: Path, s: Json, l: Json, i: nat, pair: Matched)
    requires s.List? && l.List? && FirstKey(MergeKeys(FieldOf(Render(path))), s.elems, l.elems).Some?
    requires var key := FirstKey(MergeKeys(FieldOf(Render(path))), s.elems, l.elems).value;
      i < |PairNames(key, s.elems, l.elems)| && MatchedAs(pair, key, PairNames(key, s.elems, l.elems)[i], s.elems, l.elems)
    ensures var here := path + [Elem(pair.key, pair.value)];
      && (pair.source.Some? || pair.live.Some?)
      && (pair.source.Some? ==> pair.source.value < s)
      && Upto(before, KubeRules(secret), path, s, l, i + 1) == Capped(Upto(before, KubeRules(secret), path, s, l, i) +
           if pair.source.None? then [Row(KubeRules(secret), here, AddedInLive, None, pair.live)]
           else if pair.live.None? then [Row(KubeRules(secret), here, MissingInLive, pair.source, None)]
           else Walk(KubeRules(secret), here, pair.source.value, pair.live.value))
  {
    hide Upto, Capped, Row, Walk, KubeRules;
    NamedStep(before, secret, path, s, l, i);
  }

  lemma PlacedCount(secret: bool, path: Path, s: Json, l: Json)
    requires s.List? && l.List? && FirstKey(MergeKeys(FieldOf(Render(path))), s.elems, l.elems).None?
    ensures |Segs(KubeRules(secret), path, s, l)| == if |s.elems| < |l.elems| then |l.elems| else |s.elems|
  {
  }

  lemma PlacedStep(before: seq<Difference>, secret: bool, path: Path, s: Json, l: Json, i: nat)
    requires s.List? && l.List? && FirstKey(MergeKeys(FieldOf(Render(path))), s.elems, l.elems).None?
    requires i < |s.elems| || i < |l.elems|
    ensures Upto(before, KubeRules(secret), path, s, l, i + 1) ==
            Capped(Upto(before, KubeRules(secret), path, s, l, i) + Visit(KubeRules(secret), path, s, l, Index(i)))
  {
    PlacedCount(secret, path, s, l);
    UptoNext(before, KubeRules(secret), path, s, l, i);
  }

  /** The step a place in two lists without names stands for. */
  lemma PlaceStep(before: seq<Difference>, secret: bool, path: Path, s: Json, l: Json, i: nat)
    requires s.List? && l.List? && FirstKey(MergeKeys(FieldOf(Render(path))), s.elems, l.elems).None?
    requires i < |s.elems| || i < |l.elems|
    ensures Upto(before, KubeRules(secret), path, s, l, i + 1) == Capped(Upto(before, KubeRules(secret), path, s, l, i) +
              if i >= |s.elems| then [Row(KubeRules(secret), path + [Index(i)], AddedInLive, None, Some(l.elems[i]))]
              else if i >= |l.elems| then [Row(KubeRules(secret), path + [Index(i)], MissingInLive, Some(s.elems[i]), None)]
              else Walk(KubeRules(secret), path + [Index(i)], s.elems[i], l.elems[i]))
  {
    hide Upto, Capped, Row, Walk, KubeRules;
    PlacedStep(before, secret, path, s, l, i);
  }

  lemma NoneOther(theirs: seq<string>, mine: seq<string>)
    ensures Others(theirs[..0], mine) == []
  {
  }

  class Differences {
    var found: seq<Difference>
    const secret: bool
    ghost const rules: Rules

    constructor (secret: bool)
      ensures found == [] && this.secret == secret && rules == KubeRules(secret)
    {
      found := [];
      this.secret := secret;
      this.rules := KubeRules(secret);
    }

    predicate Full()
      reads this
    {
      |found| >= DIFFERENCE_LIMIT
    }

    method Add(path: Path, kind: Kind, source: Option<Json>, live: Option<Json>)
      requires |found| <= DIFFERENCE_LIMIT && rules == KubeRules(secret)
      modifies this
      ensures |found| <= DIFFERENCE_LIMIT && found == Capped(old(found) + [Row(rules, path, kind, source, live)])
    {
      if Full() { return; }
      if secret && SecretPath(Render(path)) {
        found := found + [Difference(path, kind, true, None, None)];
        return;
      }
      found := found + [Difference(path, kind, false, source, live)];
    }

    method WalkBoth(path: Path, source: Json, live: Json)
      requires |found| <= DIFFERENCE_LIMIT && rules == KubeRules(secret)
      modifies this
      ensures |found| <= DIFFERENCE_LIMIT && found == Capped(old(found) + Walk(rules, path, source, live))
      decreases source, 1
    {
      if Full() { return; }
      if source.Obj? && live.Obj? {
        Maps(path, source, live);
        return;
      }
      if source.List? && live.List? {
        Lists(path, source, live);
        return;
      }
      if source != live {
        Add(path, Changed, Some(source), Some(live));
      }
    }

    method Maps(path: Path, source: Json, live: Json)
      requires source.Obj? && live.Obj? && |found| <= DIFFERENCE_LIMIT && rules == KubeRules(secret)
      modifies this
      ensures |found| <= DIFFERENCE_LIMIT && found == Capped(old(found) + Walk(rules, path, source, live))
      decreases source, 0
    {
      hide *;
      UptoEnds(found, rules, path, source, live);
      var mine := Sorted(source.fields);
      for i := 0 to |mine|
        invariant |found| <= DIFFERENCE_LIMIT && found == Upto(old(found), rules, path, source, live, i)
      {
        var key := mine[i];
        OwnStep(old(found), rules, path, source, live, i);
        var want := source.fields[key];
        if key !in live.fields {
          Add(path + [Key(key)], MissingInLive, Some(want), None);
          continue;
        }
        WalkBoth(path + [Key(key)], want, live.fields[key]);
      }
      var theirs := Sorted(live.fields);
      ghost var at := |mine|;
      NoneOther(theirs, mine);
      for j := 0 to |theirs|
        invariant at == |mine| + |Others(theirs[..j], mine)|
        invariant |found| <= DIFFERENCE_LIMIT && found == Upto(old(found), rules, path, source, live, at)
      {
        var key := theirs[j];
        assert key in theirs && (key in mine <==> key in source.fields);
        OthersNext(theirs, mine, j);
        if key !in source.fields {
          UnknownRow(old(found), rules, path, source, live, key, at);
          Add(path + [Key(key)], AddedInLive, None, Some(live.fields[key]));
          at := at + 1;
        }
      }
      assert theirs[..|theirs|] == theirs;
      KeysVisited(rules, path, source, live, 0);
    }

    method Lists(path: Path, source: Json, live: Json)
      requires source.List? && live.List? && |found| <= DIFFERENCE_LIMIT && rules == KubeRules(secret)
      modifies this
      ensures |found| <= DIFFERENCE_LIMIT && found == Capped(old(found) + Walk(rules, path, source, live))
      decreases source, 0
    {
      hide *;
      UptoEnds(found, rules, path, source, live);
      var pairs, ok := PairUp(FieldOf(Render(path)), source.elems, live.elems);
      if ok {
        for i := 0 to |pairs|
          invariant |found| <= DIFFERENCE_LIMIT && found == Upto(old(found), rules, path, source, live, i)
        {
          var pair := pairs[i];
          PairStep(old(found), secret, path, source, live, i, pair);
          var element := path + [Elem(pair.key, pair.value)];
          if pair.source.None? {
            Add(element, AddedInLive, None, pair.live);
          } else if pair.live.None? {
            Add(element, MissingInLive, pair.source, None);
          } else {
            WalkBoth(element, pair.source.value, pair.live.value);
          }
        }
        NamedCount(secret, path, source, live);
        return;
      }
      var longest := if |source.elems| < |live.elems| then |live.elems| else |source.elems|;
      for i := 0 to longest
        invariant |found| <= DIFFERENCE_LIMIT && found == Upto(old(found), rules, path, source, live, i)
      {
        PlaceStep(old(found), secret, path, source, live, i);
        var element := path + [Index(i)];
        if i >= |source.elems| {
          Add(element, AddedInLive, None, Some(live.elems[i]));
        } else if i >= |live.elems| {
          Add(element, MissingInLive, Some(source.elems[i]), None);
        } else {
          WalkBoth(element, source.elems[i], live.elems[i]);
        }
      }
      PlacedCount(secret, path, source, live);
    }
  }

  /** The comparison as the service calls it. */
  method CompareObjects(source: Fields, live: Fields, secret: bool) returns (rows: seq<Difference>)
    ensures rows == Compare(source, live, secret)
  {
    var out := new Differences(secret);
    out.WalkBoth([], Obj(source), Obj(live));
    assert [] + Walk(KubeRules(secret), [], Obj(source), Obj(live)) == Walk(KubeRules(secret), [], Obj(source), Obj(live));
    rows := StableSort(out.found, PathLeq);
  }
}
