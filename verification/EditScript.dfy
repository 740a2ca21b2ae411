/** Edit scripts between two texts, the longest common subsequence, and the fact that no script is shorter
    than the one the editor counts (internal/manifest/compare.go). */
module EditScript {

  type Lines = seq<string>

  // ---- common subsequences ----

  predicate Subsequence(c: Lines, s: Lines) {
    c == [] || (s != [] && ((c[0] == s[0] && Subsequence(c[1..], s[1..])) || Subsequence(c, s[1..])))
  }

  function Max(a: nat, b: nat): nat {
    if a < b then b else a
  }

  /** The recurrence the table is filled by. */
  function LcsLen(a: Lines, b: Lines): nat
    decreases |a| + |b|
  {
    if a == [] || b == [] then 0
    else if a[0] == b[0] then LcsLen(a[1..], b[1..]) + 1
    else Max(LcsLen(a[1..], b), LcsLen(a, b[1..]))
  }

  lemma {:induction false} SubsequenceTail(c: Lines, s: Lines)
    requires c != [] && Subsequence(c, s)
    ensures s != [] && Subsequence(c[1..], s[1..]) && Subsequence(c[1..], s)
  {
    if !(c[0] == s[0] && Subsequence(c[1..], s[1..])) {
      SubsequenceTail(c, s[1..]);
    }
  }

  /** No common subsequence is longer. */
  lemma {:induction false} LcsIsUpperBound(a: Lines, b: Lines, c: Lines)
    requires Subsequence(c, a) && Subsequence(c, b)
    ensures |c| <= LcsLen(a, b)
    decreases |a| + |b|
  {
    if c != [] {
      if a[0] == b[0] {
        if c[0] == a[0] {
          SubsequenceTail(c, a);
          SubsequenceTail(c, b);
          LcsIsUpperBound(a[1..], b[1..], c[1..]);
        } else {
          LcsIsUpperBound(a[1..], b[1..], c);
        }
      } else if c[0] != a[0] {
        LcsIsUpperBound(a[1..], b, c);
      } else {
        LcsIsUpperBound(a, b[1..], c);
      }
    }
  }

  /** Some common subsequence is that long. */
  lemma {:induction false} LcsIsAchieved(a: Lines, b: Lines) returns (c: Lines)
    ensures Subsequence(c, a) && Subsequence(c, b) && |c| == LcsLen(a, b)
    decreases |a| + |b|
  {
    if a == [] || b == [] {
      c := [];
    } else if a[0] == b[0] {
      var rest := LcsIsAchieved(a[1..], b[1..]);
      c := [a[0]] + rest;
    } else if LcsLen(a[1..], b) < LcsLen(a, b[1..]) {
      c := LcsIsAchieved(a, b[1..]);
    } else {
      c := LcsIsAchieved(a[1..], b);
    }
  }

  lemma {:induction false} LcsSymmetric(a: Lines, b: Lines)
    ensures LcsLen(a, b) == LcsLen(b, a)
  {
    var c := LcsIsAchieved(a, b);
    var d := LcsIsAchieved(b, a);
    LcsIsUpperBound(b, a, c);
    LcsIsUpperBound(a, b, d);
  }

  // ---- scripts ----

  datatype Edit = Keep(line: string) | Insert(line: string) | Delete(line: string)

  function Before(script: seq<Edit>): Lines {
    if script == [] then []
    else (if script[0].Insert? then [] else [script[0].line]) + Before(script[1..])
  }

  function After(script: seq<Edit>): Lines {
    if script == [] then []
    else (if script[0].Delete? then [] else [script[0].line]) + After(script[1..])
  }

  function Kept(script: seq<Edit>): Lines {
    if script == [] then []
    else (if script[0].Keep? then [script[0].line] else []) + Kept(script[1..])
  }

  function Inserted(script: seq<Edit>): nat {
    if script == [] then 0 else (if script[0].Insert? then 1 else 0) + Inserted(script[1..])
  }

  function Deleted(script: seq<Edit>): nat {
    if script == [] then 0 else (if script[0].Delete? then 1 else 0) + Deleted(script[1..])
  }

  /** The number of maximal runs of changes, given whether one is already open. */
  function Hunks(script: seq<Edit>, inHunk: bool): nat {
    if script == [] then 0
    else if script[0].Keep? then Hunks(script[1..], false)
    else (if inHunk then 0 else 1) + Hunks(script[1..], true)
  }

  ghost predicate Turns(script: seq<Edit>, before: Lines, after: Lines) {
    Before(script) == before && After(script) == after
  }

  lemma SubsequenceMore(c: Lines, x: string, s: Lines)
    requires Subsequence(c, s)
    ensures Subsequence(c, [x] + s) && Subsequence([x] + c, [x] + s) && [] + c == c && [] + s == s
  {
    assert ([x] + s)[1..] == s && ([x] + c)[1..] == c;
  }

  lemma {:induction false} KeptIsCommon(script: seq<Edit>)
    ensures Subsequence(Kept(script), Before(script)) && Subsequence(Kept(script), After(script))
    ensures |Before(script)| == |Kept(script)| + Deleted(script)
    ensures |After(script)| == |Kept(script)| + Inserted(script)
  {
    if script != [] {
      var rest := script[1..];
      KeptIsCommon(rest);
      SubsequenceMore(Kept(rest), script[0].line, Before(rest));
      SubsequenceMore(Kept(rest), script[0].line, After(rest));
    }
  }

  /** No script that turns one text into the other inserts or deletes fewer lines. */
  lemma {:induction false} NoShorterScript(script: seq<Edit>, before: Lines, after: Lines)
    requires Turns(script, before, after)
    ensures Inserted(script) >= |after| - LcsLen(before, after)
    ensures Deleted(script) >= |before| - LcsLen(before, after)
    ensures |before| - Deleted(script) == |after| - Inserted(script)
  {
    KeptIsCommon(script);
    LcsIsUpperBound(before, after, Kept(script));
  }

  lemma {:induction false} NoChangeNoHunk(script: seq<Edit>, inHunk: bool)
    ensures Inserted(script) + Deleted(script) == 0 ==> Hunks(script, inHunk) == 0 && Before(script) == After(script)
    ensures !inHunk && Inserted(script) + Deleted(script) > 0 ==> Hunks(script, inHunk) > 0
    ensures Hunks(script, inHunk) <= Inserted(script) + Deleted(script)
  {
    if script != [] { NoChangeNoHunk(script[1..], !script[0].Keep?); }
  }

  // ---- places that changed ----

  /** A run of changes begins here: at a change with an unchanged line before it, or none. */
  predicate Starts(script: seq<Edit>, k: nat) {
    k < |script| && !script[k].Keep? && (k == 0 || script[k - 1].Keep?)
  }

  ghost function Runs(script: seq<Edit>): set<nat> {
    set k: nat | k < |script| && Starts(script, k)
  }

  /** The hunks are the runs of changes: one is counted for every place where a change follows an unchanged line or
      begins the script. */
  lemma HunksAreRuns(script: seq<Edit>)
    ensures Hunks(script, false) == |Runs(script)|
  {
    HunksFrom(script, false);
    assert Runs(script) == RunsFrom(script, false);
  }

  ghost function RunsFrom(script: seq<Edit>, inHunk: bool): set<nat> {
    set k: nat | k < |script| && Starts(script, k) && !(inHunk && k == 0)
  }

  lemma {:induction false} HunksFrom(script: seq<Edit>, inHunk: bool)
    ensures Hunks(script, inHunk) == |RunsFrom(script, inHunk)|
  {
    if script == [] {
      assert RunsFrom(script, inHunk) == {};
    } else {
      var rest, open := script[1..], !script[0].Keep?;
      HunksFrom(rest, open);
      var later := set k: nat | k in RunsFrom(rest, open) :: k + 1;
      Shifted(RunsFrom(rest, open), later);
      var first: set<nat> := if script[0].Keep? || inHunk then {} else {0};
      forall k: nat ensures k in RunsFrom(script, inHunk) <==> k in first || k in later {
        if k > 0 {
          assert k in later <==> k - 1 in RunsFrom(rest, open);
          RunsShift(script, inHunk, k);
        }
      }
      hide RunsFrom, Hunks;
      assert RunsFrom(script, inHunk) == first + later && 0 !in later;
      assert |first + later| == |first| + |later|;
      assert Hunks(script, inHunk) == |first| + Hunks(rest, open) by { HunksFirst(script, inHunk); }
    }
  }

  lemma HunksFirst(script: seq<Edit>, inHunk: bool)
    requires script != []
    ensures Hunks(script, inHunk) == (if script[0].Keep? || inHunk then 0 else 1) + Hunks(script[1..], !script[0].Keep?)
  {
  }

  lemma RunsShift(script: seq<Edit>, inHunk: bool, k: nat)
    requires script != [] && k > 0
    ensures k in RunsFrom(script, inHunk) <==> k - 1 in RunsFrom(script[1..], !script[0].Keep?)
  {
    if k < |script| { assert script[1..][k - 1] == script[k]; }
    if 1 < k <= |script| { assert script[1..][k - 2] == script[k - 1]; }
  }

  lemma {:induction false} Shifted(a: set<nat>, b: set<nat>)
    requires b == set k: nat | k in a :: k + 1
    ensures |b| == |a|
  {
    if a != {} {
      var x :| x in a;
      var rest := a - {x};
      var more := set k: nat | k in rest :: k + 1;
      Shifted(rest, more);
      forall y ensures y in b <==> y in more || y == x + 1 {
        if y in b || y in more { assert y > 0 && (y - 1 in a <==> y - 1 in rest || y - 1 == x); }
      }
      assert b == more + {x + 1} && x + 1 !in more;
    }
  }

  /** An unchanged line ends a hunk: what comes after it is counted on its own. */
  lemma {:induction false} KeepSeparates(a: seq<Edit>, line: string, b: seq<Edit>, inHunk: bool)
    ensures Hunks(a + [Keep(line)] + b, inHunk) == Hunks(a, inHunk) + Hunks(b, false)
  {
    var all := a + [Keep(line)] + b;
    if a == [] {
      assert all[0] == Keep(line) && all[1..] == b;
    } else {
      assert all[0] == a[0] && all[1..] == a[1..] + [Keep(line)] + b;
      KeepSeparates(a[1..], line, b, !a[0].Keep?);
    }
  }

  // ---- the script the table is walked by ----

  function Greedy(before: Lines, after: Lines): seq<Edit>
    decreases |before| + |after|
  {
    if before == [] && after == [] then []
    else if before != [] && after != [] && before[0] == after[0] then [Keep(before[0])] + Greedy(before[1..], after[1..])
    else if after != [] && (before == [] || LcsLen(before, after[1..]) >= LcsLen(before[1..], after)) then
      [Insert(after[0])] + Greedy(before, after[1..])
    else [Delete(before[0])] + Greedy(before[1..], after)
  }

  /** The walk turns the one text into the other and keeps a longest common subsequence. */
  lemma {:induction false} GreedyIsShortest(before: Lines, after: Lines)
    ensures Turns(Greedy(before, after), before, after)
    ensures Inserted(Greedy(before, after)) == |after| - LcsLen(before, after)
    ensures Deleted(Greedy(before, after)) == |before| - LcsLen(before, after)
    decreases |before| + |after|
  {
    if before == [] && after == [] {
    } else if before != [] && after != [] && before[0] == after[0] {
      GreedyIsShortest(before[1..], after[1..]);
    } else if after != [] && (before == [] || LcsLen(before, after[1..]) >= LcsLen(before[1..], after)) {
      GreedyIsShortest(before, after[1..]);
    } else {
      GreedyIsShortest(before[1..], after);
    }
  }

  /** Where taking a line out and putting one in lead equally far, the line is put in first. */
  lemma InsertsComeFirst(before: Lines, after: Lines)
    requires before != [] && after != [] && before[0] != after[0]
    ensures Greedy(before, after)[0].Delete? <==> LcsLen(before[1..], after) > LcsLen(before, after[1..])
    ensures !Greedy(before, after)[0].Keep?
  {
  }

  lemma {:induction false} GreedySame(text: Lines)
    ensures Inserted(Greedy(text, text)) + Deleted(Greedy(text, text)) == 0
  {
    if text != [] { GreedySame(text[1..]); }
  }

  // ---- the positional script of the fallback ----

  function Positional(before: Lines, after: Lines): seq<Edit>
    decreases |before| + |after|
  {
    if before == [] && after == [] then []
    else if before == [] then [Insert(after[0])] + Positional(before, after[1..])
    else if after == [] then [Delete(before[0])] + Positional(before[1..], after)
    else if before[0] == after[0] then [Keep(before[0])] + Positional(before[1..], after[1..])
    else [Delete(before[0]), Insert(after[0])] + Positional(before[1..], after[1..])
  }

  lemma TwoEdits(x: string, y: string, rest: seq<Edit>)
    ensures var s := [Delete(x), Insert(y)] + rest;
      && Before(s) == [x] + Before(rest) && After(s) == [y] + After(rest)
      && Inserted(s) == 1 + Inserted(rest) && Deleted(s) == 1 + Deleted(rest)
      && forall inHunk :: Hunks(s, inHunk) == (if inHunk then 0 else 1) + Hunks(rest, true)
  {
    var s := [Delete(x), Insert(y)] + rest;
    assert s[1..] == [Insert(y)] + rest && s[1..][1..] == rest;
  }

  lemma {:induction false} PositionalTurns(before: Lines, after: Lines)
    ensures Turns(Positional(before, after), before, after)
    decreases |before| + |after|
  {
    if before == [] && after == [] {
    } else if before == [] {
      PositionalTurns(before, after[1..]);
    } else if after == [] {
      PositionalTurns(before[1..], after);
    } else {
      PositionalTurns(before[1..], after[1..]);
      if before[0] != after[0] {
        TwoEdits(before[0], after[0], Positional(before[1..], after[1..]));
      }
    }
  }

  lemma {:induction false} PositionalSame(text: Lines)
    ensures Inserted(Positional(text, text)) + Deleted(Positional(text, text)) == 0
  {
    if text != [] { PositionalSame(text[1..]); }
  }

  /** The cheap count of a large text never reports less than the exact one. */
  lemma {:induction false} FallbackOverApproximates(before: Lines, after: Lines)
    ensures Inserted(Positional(before, after)) >= Inserted(Greedy(before, after))
    ensures Deleted(Positional(before, after)) >= Deleted(Greedy(before, after))
    ensures |before| - Deleted(Positional(before, after)) == |after| - Inserted(Positional(before, after))
  {
    GreedyIsShortest(before, after);
    PositionalTurns(before, after);
    NoShorterScript(Positional(before, after), before, after);
  }

  /** Comparing the other way round exchanges the two counts. */
  lemma SwappedTexts(before: Lines, after: Lines)
    ensures Inserted(Greedy(after, before)) == Deleted(Greedy(before, after))
    ensures Deleted(Greedy(after, before)) == Inserted(Greedy(before, after))
  {
    GreedyIsShortest(before, after);
    GreedyIsShortest(after, before);
    LcsSymmetric(before, after);
  }
}
