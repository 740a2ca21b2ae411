/** The code behind the editor's change counter: the table, the walk over it, the positional fallback and
    the split into lines. */
module EditCompare {
  import opened EditScript
  import opened Text

  const MAX_DIFF_LINES := 3000

  /** The script whose size is reported. */
  function Reported(before: Lines, after: Lines): seq<Edit> {
    if |before| > MAX_DIFF_LINES || |after| > MAX_DIFF_LINES then Positional(before, after) else Greedy(before, after)
  }

  lemma Cell(before: Lines, after: Lines, i: nat, j: nat)
    requires i <= |before| && j <= |after|
    ensures LcsLen(before[i..], after[j..]) ==
      if i == |before| || j == |after| then 0
      else if before[i] == after[j] then LcsLen(before[i + 1..], after[j + 1..]) + 1
      else Max(LcsLen(before[i + 1..], after[j..]), LcsLen(before[i..], after[j + 1..]))
  {
    if i < |before| && j < |after| {
      assert before[i..][1..] == before[i + 1..] && after[j..][1..] == after[j + 1..];
    }
  }

  /** The longest-common-subsequence table: for every pair of suffixes, the length of the longest. */
  method Lcs(before: Lines, after: Lines) returns (table: array2<nat>)
    ensures table.Length0 == |before| + 1 && table.Length1 == |after| + 1
    ensures forall i, j :: 0 <= i <= |before| && 0 <= j <= |after| ==> table[i, j] == LcsLen(before[i..], after[j..])
  {
    hide LcsLen;
    table := new nat[|before| + 1, |after| + 1]((_, _) => 0);
    forall q | 0 <= q <= |after| ensures LcsLen(before[|before|..], after[q..]) == 0 { Cell(before, after, |before|, q); }
    var i := |before|;
    while i > 0
      invariant 0 <= i <= |before|
      invariant forall p :: 0 <= p < i ==> table[p, |after|] == 0
      invariant forall p, q :: i <= p <= |before| && 0 <= q <= |after| ==> table[p, q] == LcsLen(before[p..], after[q..])
    {
      i := i - 1;
      Cell(before, after, i, |after|);
      var j := |after|;
      while j > 0
        invariant 0 <= j <= |after|
        invariant forall p :: 0 <= p < i ==> table[p, |after|] == 0
        invariant forall p, q :: i < p <= |before| && 0 <= q <= |after| ==> table[p, q] == LcsLen(before[p..], after[q..])
        invariant forall q :: j <= q <= |after| ==> table[i, q] == LcsLen(before[i..], after[q..])
      {
        j := j - 1;
        Cell(before, after, i, j);
        if before[i] == after[j] {
          table[i, j] := table[i + 1, j + 1] + 1;
          continue;
        }
        table[i, j] := Max(table[i + 1, j], table[i, j + 1]);
      }
    }
  }

  method CountLines(before: Lines, after: Lines) returns (added: nat, removed: nat, hunks: nat)
    ensures added == Inserted(Reported(before, after))
    ensures removed == Deleted(Reported(before, after))
    ensures hunks == Hunks(Reported(before, after), false) == |Runs(Reported(before, after))|
  {
    HunksAreRuns(Reported(before, after));
    hide Runs;
    if |before| > MAX_DIFF_LINES || |after| > MAX_DIFF_LINES {
      added, removed, hunks := Roughly(before, after);
      return;
    }
    var table := Lcs(before, after);
    var i, j, inHunk := 0, 0, false;
    added, removed, hunks := 0, 0, 0;
    ghost var script := Greedy(before, after);
    while i < |before| || j < |after|
      invariant 0 <= i <= |before| && 0 <= j <= |after|
      invariant added + Inserted(Greedy(before[i..], after[j..])) == Inserted(script)
      invariant removed + Deleted(Greedy(before[i..], after[j..])) == Deleted(script)
      invariant hunks + Hunks(Greedy(before[i..], after[j..]), inHunk) == Hunks(script, false)
      decreases |before| - i + |after| - j
    {
      ghost var x, y := before[i..], after[j..];
      assert i < |before| ==> x[1..] == before[i + 1..];
      assert j < |after| ==> y[1..] == after[j + 1..];
      if i < |before| && j < |after| && before[i] == after[j] {
        i, j := i + 1, j + 1;
        inHunk := false;
      } else if j < |after| && (i == |before| || table[i, j + 1] >= table[i + 1, j]) {
        assert Greedy(x, y) == [Insert(y[0])] + Greedy(x, y[1..]);
        added := added + 1;
        j := j + 1;
        if !inHunk {
          hunks := hunks + 1;
          inHunk := true;
        }
      } else {
        assert Greedy(x, y) == [Delete(x[0])] + Greedy(x[1..], y);
        removed := removed + 1;
        i := i + 1;
        if !inHunk {
          hunks := hunks + 1;
          inHunk := true;
        }
      }
    }
  }

  /** The rest of a positional script once the shorter text is used up. */
  lemma {:induction false} OneSided(before: Lines, after: Lines)
    requires before == [] || after == []
    ensures Inserted(Positional(before, after)) == |after| && Deleted(Positional(before, after)) == |before|
    ensures forall inHunk :: Hunks(Positional(before, after), inHunk) == if inHunk || (before == [] && after == []) then 0 else 1
    decreases |before| + |after|
  {
    if before != [] { OneSided(before[1..], after); }
    if after != [] { OneSided(before, after[1..]); }
  }

  /** Counts a difference too large to align, line by line at the same index. */
  method Roughly(before: Lines, after: Lines) returns (added: nat, removed: nat, hunks: nat)
    ensures added == Inserted(Positional(before, after))
    ensures removed == Deleted(Positional(before, after))
    ensures hunks == Hunks(Positional(before, after), false) == |Runs(Positional(before, after))|
  {
    HunksAreRuns(Positional(before, after));
    hide Runs;
    var shared := if |before| < |after| then |before| else |after|;
    var inHunk := false;
    added, removed, hunks := 0, 0, 0;
    ghost var script := Positional(before, after);
    for i := 0 to shared
      invariant added + Inserted(Positional(before[i..], after[i..])) == Inserted(script)
      invariant removed + Deleted(Positional(before[i..], after[i..])) == Deleted(script)
      invariant hunks + Hunks(Positional(before[i..], after[i..]), inHunk) == Hunks(script, false)
    {
      ghost var x, y := before[i..], after[i..];
      assert x[1..] == before[i + 1..] && y[1..] == after[i + 1..];
      if before[i] == after[i] {
        inHunk := false;
        continue;
      }
      TwoEdits(x[0], y[0], Positional(x[1..], y[1..]));
      added := added + 1;
      removed := removed + 1;
      if !inHunk {
        hunks := hunks + 1;
        inHunk := true;
      }
    }
    OneSided(before[shared..], after[shared..]);
    if |after| - shared > 0 {
      added := added + (|after| - shared);
      if !inHunk { hunks := hunks + 1; }
    }
    if |before| - shared > 0 {
      removed := removed + (|before| - shared);
      if !inHunk { hunks := hunks + 1; }
    }
  }

  // ---- texts and their lines ----

  function TrimEnd(text: string): string {
    if text != [] && text[|text| - 1] == '\n' then TrimEnd(text[..|text| - 1]) else text
  }

  function LinesOf(text: string): Lines {
    if TrimEnd(text) == [] then [] else SplitOn(TrimEnd(text), '\n')
  }

  /** Trimming takes the newlines at the end, all of them and nothing else. */
  lemma {:induction false} TrimEndMeans(text: string)
    ensures TrimEnd(text) <= text
    ensures forall i :: |TrimEnd(text)| <= i < |text| ==> text[i] == '\n'
    ensures TrimEnd(text) != "" ==> TrimEnd(text)[|TrimEnd(text)| - 1] != '\n'
    decreases |text|
  {
    if text != [] && text[|text| - 1] == '\n' {
      TrimEndMeans(text[..|text| - 1]);
    }
  }

  /** Two texts have the same lines exactly when they are the same up to trailing newlines. */
  lemma LinesTellTextsApart(a: string, b: string)
    ensures LinesOf(a) == LinesOf(b) <==> TrimEnd(a) == TrimEnd(b)
  {
    if LinesOf(a) == LinesOf(b) && TrimEnd(a) != [] { SplitInjective(TrimEnd(a), TrimEnd(b), '\n'); }
  }

  /** What reading a text as a manifest gives: an object, or why there is none. */
  datatype Parsed<T> = Manifest(value: T) | Unreadable(error: string)

  datatype EditComparison = EditComparison(dirty: bool, equivalent: bool, invalid: string, added: nat, removed: nat, hunks: nat)

  /** Whether the text changed, how much and in how many places; and whether the object did, judged on the two objects
      and claimed of readable texts alone. Both sides are read by the same reader. */
  method CompareEdit<T(==)>(original: string, edited: string, parse: string -> Parsed<T>) returns (out: EditComparison)
    ensures out.dirty <==> TrimEnd(original) != TrimEnd(edited)
    ensures out.dirty <==> out.hunks > 0
    ensures out.hunks == |Runs(Reported(LinesOf(original), LinesOf(edited)))|
    ensures out.dirty <==> out.added + out.removed > 0
    ensures out.equivalent <==> parse(original).Manifest? && parse(original) == parse(edited)
    ensures out.invalid == match parse(edited) case Manifest(_) => "" case Unreadable(error) => error
    ensures |LinesOf(original)| - out.removed == |LinesOf(edited)| - out.added
    ensures out.added >= |LinesOf(edited)| - LcsLen(LinesOf(original), LinesOf(edited))
    ensures out.removed >= |LinesOf(original)| - LcsLen(LinesOf(original), LinesOf(edited))
    ensures |LinesOf(original)| <= MAX_DIFF_LINES && |LinesOf(edited)| <= MAX_DIFF_LINES ==>
              out.added == |LinesOf(edited)| - LcsLen(LinesOf(original), LinesOf(edited)) &&
              out.removed == |LinesOf(original)| - LcsLen(LinesOf(original), LinesOf(edited))
  {
    var before, after := LinesOf(original), LinesOf(edited);
    var added, removed, hunks := CountLines(before, after);
    var equivalent, invalid := false, "";
    match parse(edited) {
      case Unreadable(error) => invalid := error;
      case Manifest(now) =>
        var was := parse(original);
        if was.Manifest? { equivalent := was.value == now; }
    }
    out := EditComparison(TrimEnd(original) != TrimEnd(edited), equivalent, invalid, added, removed, hunks);

    LinesTellTextsApart(original, edited);
    ReportedTurns(before, after);
    GreedyIsShortest(before, after);
    NoShorterScript(Reported(before, after), before, after);
    NoChangeNoHunk(Reported(before, after), false);
    if before == after {
      GreedySame(before);
      PositionalSame(before);
    }
  }

  lemma ReportedTurns(before: Lines, after: Lines)
    ensures Turns(Reported(before, after), before, after)
  {
    GreedyIsShortest(before, after);
    PositionalTurns(before, after);
  }
}
