/** String order and the sorts that the Go standard library provides: sort.Strings over map keys and
    sort.SliceStable over records. */
module Order {

  datatype Option<+T> = None | Some(value: T) {
    function GetOr(default: T): T {
      if Some? then value else default
    }
  }

  /** Go's `<` on strings. */
  predicate Less(a: string, b: string) {
    b != [] && (a == [] || a[0] < b[0] || (a[0] == b[0] && Less(a[1..], b[1..])))
  }

  lemma {:induction false} LessTrichotomy(a: string, b: string)
    ensures Less(a, b) || Less(b, a) || a == b
    ensures !(Less(a, b) && Less(b, a)) && !Less(a, a)
  {
    if a != [] {
      LessTrichotomy(a[1..], a[1..]);
      if b != [] {
        LessTrichotomy(a[1..], b[1..]);
        assert a == [a[0]] + a[1..] && b == [b[0]] + b[1..];
      }
    }
  }

  lemma {:induction false} LessTransitive(a: string, b: string, c: string)
    requires Less(a, b) && Less(b, c)
    ensures Less(a, c)
  {
    if a != [] && a[0] == b[0] && b[0] == c[0] {
      LessTransitive(a[1..], b[1..], c[1..]);
    }
  }

  /** One text is before another when it is a proper beginning of it, or has the smaller character where they part. */
  lemma {:induction false} LessMeans(a: string, b: string)
    ensures Less(a, b) <==> exists n :: 0 <= n <= |a| && n < |b| && a[..n] == b[..n] && (n == |a| || a[n] < b[n])
  {
    if a != [] && b != [] && a[0] == b[0] {
      LessMeans(a[1..], b[1..]);
      if n :| 0 <= n <= |a[1..]| && n < |b[1..]| && a[1..][..n] == b[1..][..n] && (n == |a[1..]| || a[1..][n] < b[1..][n]) {
        assert a[..n + 1] == [a[0]] + a[1..][..n] && b[..n + 1] == [b[0]] + b[1..][..n];
      }
      if n :| 0 <= n <= |a| && n < |b| && a[..n] == b[..n] && (n == |a| || a[n] < b[n]) {
        assert n > 0;
        assert a[1..][..n - 1] == a[..n][1..] && b[1..][..n - 1] == b[..n][1..];
      }
    } else if b != [] {
      assert a[..0] == b[..0];
      if n :| 0 <= n <= |a| && n < |b| && a[..n] == b[..n] && (n == |a| || a[n] < b[n]) {
        if n > 0 { assert a[..n][0] == b[..n][0]; }
      }
    }
  }

  // ---- keys of a map, sorted ----

  ghost predicate Ascending(s: seq<string>) {
    forall i, j :: 0 <= i < j < |s| ==> Less(s[i], s[j])
  }

  ghost function Elements<T>(s: seq<T>): set<T> {
    set x | x in s
  }

  ghost predicate IsLeast(m: string, s: set<string>) {
    m in s && forall x :: x in s && x != m ==> Less(m, x)
  }

  lemma LeastOfMore(rest: set<string>, m: string, y: string)
    requires IsLeast(m, rest) && y !in rest
    ensures IsLeast(if Less(y, m) then y else m, rest + {y})
  {
    LessTrichotomy(y, m);
    if Less(y, m) {
      forall x | x in rest ensures Less(y, x) {
        if x != m { LessTransitive(y, m, x); }
      }
    }
  }

  lemma {:induction false} LeastExists(s: set<string>)
    requires s != {}
    ensures exists m :: IsLeast(m, s)
  {
    var y :| y in s;
    var rest := s - {y};
    assert rest + {y} == s;
    if rest == {} {
      assert IsLeast(y, s);
    } else {
      LeastExists(rest);
      var m :| IsLeast(m, rest);
      LeastOfMore(rest, m, y);
    }
  }

  /** The elements of a set in ascending order: what ranging over a map and then calling sort.Strings gives. */
  ghost function SortedKeys(s: set<string>): (r: seq<string>)
    ensures forall x :: x in r <==> x in s
  {
    if s == {} then [] else
      LeastExists(s);
      var m :| IsLeast(m, s);
      var rest := SortedKeys(s - {m});
      assert forall x :: x in [m] + rest <==> x in s;
      [m] + rest
  }

  lemma {:induction false} SortedKeysAscend(s: set<string>)
    ensures Ascending(SortedKeys(s))
  {
    if s != {} {
      LeastExists(s);
      var m :| IsLeast(m, s) && SortedKeys(s) == [m] + SortedKeys(s - {m});
      var rest := SortedKeys(s - {m});
      SortedKeysAscend(s - {m});
      forall j | 0 <= j < |rest| ensures Less(m, rest[j]) {
        assert rest[j] in rest;
      }
    }
  }

  lemma AscendingHead(s: seq<string>, x: string)
    requires Ascending(s) && x in s
    ensures s[0] == x || Less(s[0], x)
  {
    var i :| 0 <= i < |s| && s[i] == x;
    if i > 0 { assert Less(s[0], s[i]); }
  }

  lemma {:induction false} AscendingUnique(a: seq<string>, b: seq<string>)
    requires Ascending(a) && Ascending(b)
    requires forall x :: x in a <==> x in b
    ensures a == b
  {
    assert b == [] || b[0] in b;
    if a != [] {
      assert a[0] in b;
      assert b[0] in a;
      AscendingHead(a, b[0]);
      AscendingHead(b, a[0]);
      LessTrichotomy(a[0], b[0]);
      LessTrichotomy(a[0], a[0]);
      forall x ensures x in a[1..] <==> x in b[1..] {
        assert x in a <==> x == a[0] || x in a[1..];
        assert x in b <==> x == b[0] || x in b[1..];
      }
      AscendingUnique(a[1..], b[1..]);
    }
  }

  lemma AscendingDistinct(s: seq<string>, i: nat, j: nat)
    requires Ascending(s) && i < |s| && j < |s| && i != j
    ensures s[i] != s[j]
  {
    LessTrichotomy(s[i], s[i]);
    if i < j { assert Less(s[i], s[j]); } else { assert Less(s[j], s[i]); }
  }

  /** sort.Strings on distinct keys gathered from a map in any order. */
  method SortStrings(xs: seq<string>) returns (r: seq<string>)
    requires forall i, j :: 0 <= i < j < |xs| ==> xs[i] != xs[j]
    ensures r == SortedKeys(Elements(xs))
  {
    r := [];
    for n := 0 to |xs|
      invariant Ascending(r)
      invariant forall x :: x in r <==> x in xs[..n]
    {
      var at := 0;
      while at < |r| && Less(r[at], xs[n])
        invariant 0 <= at <= |r|
        invariant forall k :: 0 <= k < at ==> Less(r[k], xs[n])
      {
        at := at + 1;
      }
      if at < |r| {
        assert r[at] in r;
        LessTrichotomy(r[at], xs[n]);
        assert Less(xs[n], r[at]);
        forall k | at <= k < |r| ensures Less(xs[n], r[k]) {
          if at < k { LessTransitive(xs[n], r[at], r[k]); }
        }
      }
      ghost var before := r;
      r := r[..at] + [xs[n]] + r[at..];
      forall x ensures x in r <==> x in xs[..n + 1] {
        assert before == before[..at] + before[at..];
        assert xs[..n + 1] == xs[..n] + [xs[n]];
      }
    }
    assert xs[..|xs|] == xs;
    SortedKeysAscend(Elements(xs));
    AscendingUnique(r, SortedKeys(Elements(xs)));
  }

  // ---- stable sorting by a total preorder ----

  ghost predicate TotalPreorder<T(!new)>(leq: (T, T) -> bool) {
    && (forall a, b :: leq(a, b) || leq(b, a))
    && (forall a, b, c :: leq(a, b) && leq(b, c) ==> leq(a, c))
  }

  ghost predicate SortedBy<T>(s: seq<T>, leq: (T, T) -> bool) {
    forall i, j :: 0 <= i < j < |s| ==> leq(s[i], s[j])
  }

  function Insert<T>(x: T, s: seq<T>, leq: (T, T) -> bool): seq<T> {
    if s == [] || leq(x, s[0]) then [x] + s else [s[0]] + Insert(x, s[1..], leq)
  }

  /** sort.SliceStable: equal elements keep the order they came in. */
  function StableSort<T>(xs: seq<T>, leq: (T, T) -> bool): seq<T> {
    if xs == [] then [] else Insert(xs[0], StableSort(xs[1..], leq), leq)
  }

  lemma {:induction false} InsertKeeps<T>(x: T, s: seq<T>, leq: (T, T) -> bool)
    ensures multiset(Insert(x, s, leq)) == multiset{x} + multiset(s)
  {
    if !(s == [] || leq(x, s[0])) {
      InsertKeeps(x, s[1..], leq);
      assert s == [s[0]] + s[1..];
    }
  }

  lemma {:induction false} InsertSorted<T(!new)>(x: T, s: seq<T>, leq: (T, T) -> bool)
    requires TotalPreorder(leq) && SortedBy(s, leq)
    ensures SortedBy(Insert(x, s, leq), leq)
  {
    if s != [] && leq(x, s[0]) {
      forall j | 0 <= j < |s| ensures leq(x, s[j]) {
        if j > 0 { assert leq(s[0], s[j]); }
      }
    } else if s != [] {
      InsertSorted(x, s[1..], leq);
      InsertKeeps(x, s[1..], leq);
      var r := Insert(x, s[1..], leq);
      forall j | 0 <= j < |r| ensures leq(s[0], r[j]) {
        assert r[j] in multiset(r);
        if r[j] != x {
          assert r[j] in s[1..];
          var i :| 1 <= i < |s| && s[i] == r[j];
          assert leq(s[0], s[i]);
        }
      }
    }
  }

  lemma {:induction false} StableSortKeeps<T>(xs: seq<T>, leq: (T, T) -> bool)
    ensures multiset(StableSort(xs, leq)) == multiset(xs)
  {
    if xs != [] {
      StableSortKeeps(xs[1..], leq);
      InsertKeeps(xs[0], StableSort(xs[1..], leq), leq);
      assert xs == [xs[0]] + xs[1..];
    }
  }

  lemma {:induction false} StableSortSorts<T(!new)>(xs: seq<T>, leq: (T, T) -> bool)
    requires TotalPreorder(leq)
    ensures SortedBy(StableSort(xs, leq), leq)
  {
    if xs != [] {
      StableSortSorts(xs[1..], leq);
      InsertSorted(xs[0], StableSort(xs[1..], leq), leq);
    }
  }

  // ---- flattening ----

  function Flatten<T>(parts: seq<seq<T>>): seq<T> {
    if parts == [] then [] else parts[0] + Flatten(parts[1..])
  }

  lemma FlattenHead<T>(parts: seq<seq<T>>)
    requires parts != []
    ensures Flatten(parts) == parts[0] + Flatten(parts[1..])
  {
  }

  lemma {:induction false} FlattenAppend<T>(a: seq<seq<T>>, b: seq<seq<T>>)
    ensures Flatten(a + b) == Flatten(a) + Flatten(b)
  {
    if a == [] {
      assert a + b == b;
    } else {
      FlattenHead(a);
      FlattenHead(a + b);
      hide Flatten;
      FlattenAppend(a[1..], b);
      assert (a + b)[1..] == a[1..] + b;
      assert (a + b)[0] == a[0];
      AppendThrice(a[0], Flatten(a[1..]), Flatten(b));
    }
  }

  lemma AppendThrice<T>(a: seq<T>, b: seq<T>, c: seq<T>)
    ensures (a + b) + c == a + (b + c)
  {
  }

  lemma {:induction false} FlattenMember<T>(parts: seq<seq<T>>, x: T)
    ensures x in Flatten(parts) <==> exists i :: 0 <= i < |parts| && x in parts[i]
  {
    if parts != [] {
      FlattenMember(parts[1..], x);
      if exists i :: 0 <= i < |parts| && x in parts[i] {
        var i :| 0 <= i < |parts| && x in parts[i];
        if i > 0 { assert parts[1..][i - 1] == parts[i]; }
      }
      if exists i :: 0 <= i < |parts[1..]| && x in parts[1..][i] {
        var i :| 0 <= i < |parts[1..]| && x in parts[1..][i];
        assert parts[i + 1] == parts[1..][i];
      }
    }
  }

  lemma {:induction false} FlattenEmpty<T>(parts: seq<seq<T>>)
    ensures Flatten(parts) == [] <==> forall i :: 0 <= i < |parts| ==> parts[i] == []
  {
    if parts != [] {
      FlattenEmpty(parts[1..]);
      assert forall i :: 1 <= i < |parts| ==> parts[i] == parts[1..][i - 1];
    }
  }

  // ---- filtering ----

  /** The elements a loop keeps, in their order. */
  function Select<T>(s: seq<T>, keep: T -> bool): seq<T>
    decreases |s|
  {
    if s == [] then []
    else Select(s[..|s| - 1], keep) + if keep(s[|s| - 1]) then [s[|s| - 1]] else []
  }

  lemma SelectStep<T>(s: seq<T>, keep: T -> bool, i: nat)
    requires i < |s|
    ensures Select(s[..i + 1], keep) == Select(s[..i], keep) + if keep(s[i]) then [s[i]] else []
  {
    assert s[..i + 1][..i] == s[..i];
  }

  lemma {:induction false} SelectMember<T>(s: seq<T>, keep: T -> bool, x: T)
    ensures x in Select(s, keep) <==> x in s && keep(x)
    decreases |s|
  {
    if s != [] {
      SelectMember(s[..|s| - 1], keep, x);
      assert s == s[..|s| - 1] + [s[|s| - 1]];
    }
  }

  lemma {:induction false} SelectAll<T>(s: seq<T>, keep: T -> bool)
    requires forall x :: x in s ==> keep(x)
    ensures Select(s, keep) == s
    decreases |s|
  {
    if s != [] { SelectAll(s[..|s| - 1], keep); }
  }

  lemma {:induction false} SelectAppend<T>(a: seq<T>, b: seq<T>, keep: T -> bool)
    ensures Select(a + b, keep) == Select(a, keep) + Select(b, keep)
    decreases |b|
  {
    if b == [] {
      assert a + b == a;
    } else {
      var front := b[..|b| - 1];
      assert (a + b)[..|a + b| - 1] == a + front;
      SelectAppend(a, front, keep);
    }
  }

  lemma SelectOne<T>(x: T, keep: T -> bool)
    ensures Select([x], keep) == if keep(x) then [x] else []
  {
    assert [x][..0] == [];
  }

  lemma {:induction false} InsertIsStable<T(!new)>(x: T, s: seq<T>, leq: (T, T) -> bool, same: T -> bool)
    requires forall a, b :: same(a) && same(b) ==> leq(a, b)
    ensures Select(Insert(x, s, leq), same) == Select([x], same) + Select(s, same)
  {
    if s == [] || leq(x, s[0]) {
      SelectAppend([x], s, same);
    } else {
      InsertIsStable(x, s[1..], leq, same);
      SelectAppend([s[0]], Insert(x, s[1..], leq), same);
      SelectAppend([s[0]], s[1..], same);
      assert s == [s[0]] + s[1..];
      SelectOne(x, same);
      SelectOne(s[0], same);
    }
  }

  /** Elements that are equal to one another keep the order they came in. */
  lemma {:induction false} StableSortIsStable<T(!new)>(xs: seq<T>, leq: (T, T) -> bool, same: T -> bool)
    requires forall a, b :: same(a) && same(b) ==> leq(a, b)
    ensures Select(StableSort(xs, leq), same) == Select(xs, same)
  {
    if xs != [] {
      StableSortIsStable(xs[1..], leq, same);
      InsertIsStable(xs[0], StableSort(xs[1..], leq), leq, same);
      SelectAppend([xs[0]], xs[1..], same);
      assert xs == [xs[0]] + xs[1..];
    }
  }

  // ---- bags ----

  lemma TwiceCounts<T>(s: seq<T>, i: nat, j: nat)
    requires i < j < |s| && s[i] == s[j]
    ensures multiset(s)[s[i]] >= 2
  {
    assert s == s[..i] + [s[i]] + s[i + 1..j] + [s[j]] + s[j + 1..];
  }

  // ---- searching ----

  /** Where the first element that will do is; past the end when there is none. */
  function FirstIndex<T>(s: seq<T>, found: T -> bool): (i: nat)
    ensures i <= |s| && (i < |s| ==> found(s[i]))
    ensures forall k :: 0 <= k < i ==> !found(s[k])
  {
    if s == [] || found(s[0]) then 0 else FirstIndex(s[1..], found) + 1
  }

  /** The first index is the only one with nothing found before it. */
  lemma {:induction false} FirstIndexIs<T>(s: seq<T>, found: T -> bool, i: nat)
    requires i <= |s| && (i < |s| ==> found(s[i])) && forall k :: 0 <= k < i ==> !found(s[k])
    ensures FirstIndex(s, found) == i
  {
    if i > 0 {
      assert forall k :: 0 <= k < |s| - 1 ==> s[1..][k] == s[k + 1];
      FirstIndexIs(s[1..], found, i - 1);
    }
  }
}
