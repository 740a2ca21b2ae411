/** Reported paths as text: what tells two of them apart, and what does not. */
module PathText {
  import opened Order
  import opened Json
  import opened TreeDiff
  import opened WalkLaws

  /** A field that is named, without dots, and not so as to end like a list position; an element whose key and name
      hold no opening bracket. */
  predicate Readable(seg: Seg) {
    match seg
    case Key(k) => k != "" && '.' !in k && k[|k| - 1] != ']'
    case Elem(on, name) => '[' !in on && '=' !in on && '[' !in name
    case Index(_) => true
  }

  predicate ReadablePath(path: Path) {
    forall i :: 0 <= i < |path| ==> Readable(path[i])
  }

  // ---- taking a text apart ----

  lemma NoneAfter(a: string, c: char, b: string)
    requires c !in b
    ensures forall k :: |a| < k < |a + [c] + b| ==> (a + [c] + b)[k] != c
  {
    forall k | |a| < k < |a + [c] + b| ensures (a + [c] + b)[k] != c {
      assert (a + [c] + b)[k] == b[k - |a| - 1];
    }
  }

  lemma SplitAtLast(a: string, c: char, b: string, a2: string, b2: string)
    requires a + [c] + b == a2 + [c] + b2 && c !in b && c !in b2
    ensures a == a2 && b == b2
  {
    var t := a + [c] + b;
    assert t[|a|] == c && t[|a2|] == c;
    NoneAfter(a, c, b);
    NoneAfter(a2, c, b2);
    assert a == t[..|a|] && a2 == t[..|a2|] && b == t[|a| + 1..] && b2 == t[|a2| + 1..];
  }

  lemma SplitAtFirst(a: string, c: char, b: string, a2: string, b2: string)
    requires a + [c] + b == a2 + [c] + b2 && c !in a && c !in a2
    ensures a == a2 && b == b2
  {
    var t := a + [c] + b;
    assert t[|a|] == c && t[|a2|] == c;
    assert a == t[..|a|] && a2 == t[..|a2|] && b == t[|a| + 1..] && b2 == t[|a2| + 1..];
    assert forall k :: 0 <= k < |a| ==> t[k] != c;
    assert forall k :: 0 <= k < |a2| ==> t[k] != c;
  }

  function Number(digits: string): int {
    if digits == "" then 0 else 10 * Number(digits[..|digits| - 1]) + (digits[|digits| - 1] as int - '0' as int)
  }

  lemma {:induction false} DigitsReadBack(n: nat)
    ensures Number(Digits(n)) == n
    ensures forall c :: c in Digits(n) ==> '0' <= c <= '9'
  {
    if n < 10 {
      assert Digits(n)[..0] == "";
    } else {
      DigitsReadBack(n / 10);
      DigitsReadBack(n % 10);
      var last := Digits(n % 10);
      assert |last| == 1 && last[..0] == "";
      assert Digits(n)[..|Digits(n)| - 1] == Digits(n / 10);
    }
  }

  // ---- readable paths ----

  function InBrackets(seg: Seg): string
    requires !seg.Key?
  {
    match seg case Elem(on, name) => on + "=" + name case Index(i) => Digits(i)
  }

  lemma IndexOrElem(seg: Seg)
    requires !seg.Key?
    ensures seg.Elem? <==> '=' in InBrackets(seg)
    ensures seg.Index? ==> Number(InBrackets(seg)) == seg.i
  {
    if seg.Index? { DigitsReadBack(seg.i); } else { assert InBrackets(seg)[|seg.on|] == '='; }
  }

  lemma BracketsTell(a: Seg, b: Seg)
    requires !a.Key? && !b.Key? && Readable(a) && Readable(b) && InBrackets(a) == InBrackets(b)
    ensures a == b
  {
    IndexOrElem(a);
    IndexOrElem(b);
    if a.Elem? && b.Elem? { SplitAtFirst(a.on, '=', a.name, b.on, b.name); }
  }

  lemma NoBracketInside(seg: Seg)
    requires !seg.Key? && Readable(seg)
    ensures '[' !in InBrackets(seg)
  {
    if seg.Index? { DigitsReadBack(seg.i); }
  }

  /** The text of a path ends with the text of its last segment. */
  lemma RenderLast(path: Path)
    requires path != []
    ensures
      var front, last := path[..|path| - 1], path[|path| - 1];
      Render(path) == if last.Key? then Join(Render(front), last.key) else Render(front) + "[" + InBrackets(last) + "]"
  {
    var front, last := Render(path[..|path| - 1]), path[|path| - 1];
    if last.Elem? { assert front + "[" + last.on + "=" + last.name + "]" == front + "[" + InBrackets(last) + "]"; }
  }

  lemma OnlyTheRootIsBlank(path: Path)
    requires ReadablePath(path)
    ensures Render(path) == "" <==> path == []
  {
    if path != [] { RenderLast(path); }
  }

  lemma LastTells(front: string, a: Seg, front2: string, b: Seg)
    requires Readable(a) && Readable(b)
    requires (if a.Key? then Join(front, a.key) else front + "[" + InBrackets(a) + "]")
             == (if b.Key? then Join(front2, b.key) else front2 + "[" + InBrackets(b) + "]")
    ensures front == front2 && a == b
  {
    if a.Key? && b.Key? {
      KeysTell(front, a.key, front2, b.key);
    } else if !a.Key? && !b.Key? {
      NoBracketInside(a);
      NoBracketInside(b);
      var x, y := InBrackets(a), InBrackets(b);
      assert front + "[" + x + "]" == (front + ['['] + x) + "]" && front2 + "[" + y + "]" == (front2 + ['['] + y) + "]";
      assert front + ['['] + x == (front + "[" + x + "]")[..|front| + |x| + 1];
      assert front2 + ['['] + y == (front2 + "[" + y + "]")[..|front2| + |y| + 1];
      SplitAtLast(front, '[', x, front2, y);
      BracketsTell(a, b);
    } else {
      assert false by { EndsDiffer(front, a, front2, b); }
    }
  }

  lemma EndsDiffer(front: string, a: Seg, front2: string, b: Seg)
    requires Readable(a) && Readable(b) && a.Key? != b.Key?
    ensures (if a.Key? then Join(front, a.key) else front + "[" + InBrackets(a) + "]")
            != (if b.Key? then Join(front2, b.key) else front2 + "[" + InBrackets(b) + "]")
  {
    var (f, k, g, e) := if a.Key? then (front, a.key, front2, b) else (front2, b.key, front, a);
    var x, y := Join(f, k), g + "[" + InBrackets(e) + "]";
    assert x[|x| - 1] == k[|k| - 1] && y[|y| - 1] == ']';
  }

  lemma JoinHasDot(front: string, k: string)
    requires '.' !in k
    ensures '.' in Join(front, k) <==> front != ""
  {
    if front != "" { assert Join(front, k)[|front|] == '.'; }
  }

  lemma KeysTell(front: string, k: string, front2: string, k2: string)
    requires '.' !in k && '.' !in k2 && Join(front, k) == Join(front2, k2)
    ensures front == front2 && k == k2
  {
    JoinHasDot(front, k);
    JoinHasDot(front2, k2);
    if front != "" && front2 != "" { SplitAtLast(front, '.', k, front2, k2); }
  }

  /** The text of a readable path tells it from every other readable path. */
  lemma {:induction false} RenderTellsApart(a: Path, b: Path)
    requires ReadablePath(a) && ReadablePath(b)
    ensures Render(a) == Render(b) <==> a == b
    decreases a
  {
    OnlyTheRootIsBlank(a);
    OnlyTheRootIsBlank(b);
    if Render(a) == Render(b) && a != [] {
      var x, y := a[..|a| - 1], b[..|b| - 1];
      RenderLast(a);
      RenderLast(b);
      hide Render, Join;
      LastTells(Render(x), a[|a| - 1], Render(y), b[|b| - 1]);
      RenderTellsApart(x, y);
      assert a == x + [a[|a| - 1]] && b == y + [b[|b| - 1]];
    }
  }

  /** Two rows of one comparison with readable paths and the same text are one row. */
  lemma TextsApart(rules: Rules, s: Json, l: Json, a: Difference, b: Difference)
    requires a in Walk(rules, [], s, l) && b in Walk(rules, [], s, l)
    requires ReadablePath(a.path) && ReadablePath(b.path) && Render(a.path) == Render(b.path)
    ensures a == b
  {
    RenderTellsApart(a.path, b.path);
    RowsApart(rules, [], s, l);
    hide *;
    OneRowAPath(Walk(rules, [], s, l), a, b);
  }

  lemma OneRowAPath(all: seq<Difference>, a: Difference, b: Difference)
    requires AllApart(all) && a in all && b in all && a.path == b.path
    ensures a == b
  {
    var i :| 0 <= i < |all| && all[i] == a;
    var j :| 0 <= j < |all| && all[j] == b;
  }

  // ---- what the text does not tell ----

  lemma RenderKey(path: Path, k: string)
    ensures Render(path + [Key(k)]) == Join(Render(path), k)
  {
    assert (path + [Key(k)])[..|path|] == path;
  }

  lemma RenderElem(path: Path, on: string, name: string)
    ensures Render(path + [Elem(on, name)]) == Render(path) + "[" + on + "=" + name + "]"
  {
    assert (path + [Elem(on, name)])[..|path|] == path;
  }

  /** A field with a dot in its name reads like two fields, one inside the other. */
  lemma DottedKeyReadsAsTwo(path: Path, k: string, inner: string)
    requires k != ""
    ensures Render(path + [Key(k + "." + inner)]) == Render(path + [Key(k), Key(inner)])
  {
    RenderKey(path, k + "." + inner);
    RenderKey(path, k);
    RenderKey(path + [Key(k)], inner);
    assert path + [Key(k), Key(inner)] == path + [Key(k)] + [Key(inner)];
    assert Render(path) + "." + (k + "." + inner) == (Render(path) + "." + k) + "." + inner;
  }

  /** A field with no name at the top reads like the object it is in. */
  lemma NamelessKeyReadsAsNothing(path: Path)
    ensures Render([Key("")] + path) == Render(path)
    decreases path
  {
    if path == [] {
      RenderKey([], "");
      assert [Key("")] + path == [] + [Key("")];
    } else {
      var front := path[..|path| - 1];
      NamelessKeyReadsAsNothing(front);
      assert ([Key("")] + path)[..|path|] == [Key("")] + front;
    }
  }

  /** A field named like a list with one of its elements reads like that element. */
  lemma BracketedKeyReadsAsElement(path: Path, k: string, on: string, name: string)
    ensures Render(path + [Key(k + "[" + on + "=" + name + "]")]) == Render(path + [Key(k), Elem(on, name)])
  {
    var long := k + "[" + on + "=" + name + "]";
    RenderKey(path, long);
    RenderKey(path, k);
    RenderElem(path + [Key(k)], on, name);
    assert path + [Key(k), Elem(on, name)] == path + [Key(k)] + [Elem(on, name)];
    assert Render(path) + "." + long == (Render(path) + "." + k) + "[" + on + "=" + name + "]";
  }

  /** An element whose name holds a bracket reads like an element of an element. */
  lemma BracketedNameReadsAsTwo(path: Path, on: string, name: string, on2: string, name2: string)
    ensures Render(path + [Elem(on, name + "][" + on2 + "=" + name2)]) == Render(path + [Elem(on, name), Elem(on2, name2)])
  {
    RenderElem(path, on, name + "][" + on2 + "=" + name2);
    RenderElem(path, on, name);
    RenderElem(path + [Elem(on, name)], on2, name2);
    assert path + [Elem(on, name), Elem(on2, name2)] == path + [Elem(on, name)] + [Elem(on2, name2)];
  }
}
