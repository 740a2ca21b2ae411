/** Cutting a manifest into documents and printing documents as a manifest (internal/authoring/manifest.go). */
module Manifests {
  import opened Order
  import opened Text

  const SEPARATOR := "---"

  // ---- lines ----

  predicate EndsWithReturn(line: string) {
    line != [] && line[|line| - 1] == '\r'
  }

  /** The scanner's lines lose one carriage return at their end. */
  function DropReturn(line: string): string {
    if EndsWithReturn(line) then line[..|line| - 1] else line
  }

  /** The lines of a text; a newline at its very end does not begin another. */
  function RawLines(raw: string): seq<string> {
    var parts := SplitOn(raw, '\n');
    if parts[|parts| - 1] == [] then parts[..|parts| - 1] else parts
  }

  function DropReturns(lines: seq<string>): (r: seq<string>)
    ensures |r| == |lines| && forall i :: 0 <= i < |r| ==> r[i] == DropReturn(lines[i])
  {
    if lines == [] then [] else [DropReturn(lines[0])] + DropReturns(lines[1..])
  }

  function ScanLines(raw: string): seq<string> {
    DropReturns(RawLines(raw))
  }

  function TrimBlanks(line: string): string {
    if line != [] && line[|line| - 1] in {' ', '\t'} then TrimBlanks(line[..|line| - 1]) else line
  }

  predicate IsSeparator(line: string) {
    TrimBlanks(line) == SEPARATOR
  }

  predicate IsComment(line: string) {
    var t := TrimSpace(line);
    t != [] && t[0] == '#'
  }

  function NotComment(): string -> bool { (line: string) => !IsComment(line) }

  function StripComments(doc: string): string {
    Join(Select(SplitOn(doc, '\n'), NotComment()), "\n")
  }

  /** The document holds more than comments and blanks. */
  predicate HasContent(doc: string) {
    TrimSpace(StripComments(doc)) != ""
  }

  function Contentful(): string -> bool { (doc: string) => HasContent(doc) }

  lemma {:induction false} TrimBlanksMeans(line: string)
    ensures TrimBlanks(line) <= line && forall i :: |TrimBlanks(line)| <= i < |line| ==> line[i] in {' ', '\t'}
    ensures TrimBlanks(line) != "" ==> TrimBlanks(line)[|TrimBlanks(line)| - 1] !in {' ', '\t'}
    decreases |line|
  {
    if line != [] && line[|line| - 1] in {' ', '\t'} { TrimBlanksMeans(line[..|line| - 1]); }
  }

  /** A separator line is three dashes with nothing but blanks and tabs after them, and nothing before. */
  lemma SeparatorMeans(line: string)
    ensures IsSeparator(line) <==> "---" <= line && forall i :: 3 <= i < |line| ==> line[i] in {' ', '\t'}
  {
    TrimBlanksMeans(line);
    var t := TrimBlanks(line);
    assert t != "" ==> line[|t| - 1] !in {' ', '\t'};
    if "---" <= line && forall i :: 3 <= i < |line| ==> line[i] in {' ', '\t'} {
      assert line[2] == '-';
      assert |t| == 3;
      assert t == line[..3];
    }
  }

  predicate BlankLine(line: string) {
    forall i :: 0 <= i < |line| ==> IsSpace(line[i])
  }

  lemma {:induction false} JoinedBlanks(lines: seq<string>)
    ensures BlankLine(Join(lines, "\n")) <==> forall k :: 0 <= k < |lines| ==> BlankLine(lines[k])
  {
    if |lines| > 1 {
      JoinFirst(lines, "\n");
      JoinedBlanks(lines[1..]);
      BlankPieces(lines[0], Join(lines[1..], "\n"));
      hide Join, BlankLine;
      assert forall k :: 1 <= k < |lines| ==> lines[k] == lines[1..][k - 1];
    }
  }

  lemma BlankPieces(a: string, b: string)
    ensures BlankLine(a + "\n" + b) <==> BlankLine(a) && BlankLine(b)
  {
    var s := a + "\n" + b;
    assert forall i :: 0 <= i < |a| ==> s[i] == a[i];
    assert s[|a|] == '\n' && s[|a| + 1..] == b;
    if BlankLine(s) {
      forall i | 0 <= i < |b| ensures IsSpace(b[i]) { assert b[i] == s[|a| + 1 + i]; }
    }
  }

  /** A document has content exactly when some line of it does: a line that is not blank and whose first character past the
      white space is not a hash. */
  lemma ContentMeans(doc: string)
    ensures HasContent(doc) <==> exists line :: line in SplitOn(doc, '\n') && TrimSpace(line) != "" && TrimSpace(line)[0] != '#'
  {
    var lines := SplitOn(doc, '\n');
    var kept := Select(lines, NotComment());
    BlankMeans(Join(kept, "\n"));
    JoinedBlanks(kept);
    forall line ensures BlankLine(line) <==> TrimSpace(line) == "" { BlankMeans(line); }
    forall line ensures line in kept <==> line in lines && !IsComment(line) { SelectMember(lines, NotComment(), line); }
    assert HasContent(doc) <==> exists line :: line in kept && TrimSpace(line) != "";
  }

  // ---- cutting ----

  /** The lines between separators. */
  function Sections(lines: seq<string>): (r: seq<seq<string>>)
    ensures r != []
  {
    if lines == [] then [[]]
    else if IsSeparator(lines[0]) then [[]] + Sections(lines[1..])
    else
      var rest := Sections(lines[1..]);
      [[lines[0]] + rest[0]] + rest[1..]
  }

  function Joined(sections: seq<seq<string>>): (r: seq<string>)
    ensures |r| == |sections| && forall i :: 0 <= i < |r| ==> r[i] == Join(sections[i], "\n")
  {
    if sections == [] then [] else [Join(sections[0], "\n")] + Joined(sections[1..])
  }

  function Split(raw: string): seq<string> {
    Select(Joined(Sections(ScanLines(raw))), Contentful())
  }

  /** The join the printer makes of its documents. */
  function Printed(docs: seq<string>): string {
    Join(docs, "\n---\n") + "\n"
  }

  function Trimmed(encoded: seq<string>): (r: seq<string>)
    ensures |r| == |encoded| && forall i :: 0 <= i < |r| ==> r[i] == TrimSpace(encoded[i])
  {
    if encoded == [] then [] else [TrimSpace(encoded[0])] + Trimmed(encoded[1..])
  }

  /** render: nothing to print is an error. */
  function Render(encoded: seq<string>): Option<string> {
    if encoded == [] then None else Some(Printed(Trimmed(encoded)))
  }

  /** Comes back whole: no line reads as a separator or ends in a carriage return, and there is something in it. */
  ghost predicate Plain(doc: string) {
    HasContent(doc) && forall line :: line in SplitOn(doc, '\n') ==> !IsSeparator(line) && !EndsWithReturn(line)
  }

  // ---- the printed text, line by line ----

  /** The lines of the documents, a separator between each two. */
  function Interleaved(docs: seq<string>): seq<string> {
    if docs == [] then []
    else if |docs| == 1 then SplitOn(docs[0], '\n')
    else SplitOn(docs[0], '\n') + [SEPARATOR] + Interleaved(docs[1..])
  }

  lemma Stitched(doc: string, rest: string)
    ensures SplitOn(doc + "\n---\n" + rest, '\n') == SplitOn(doc, '\n') + ([SEPARATOR] + SplitOn(rest, '\n'))
  {
    assert doc + "\n---\n" + rest == doc + ['\n'] + (SEPARATOR + ['\n'] + rest);
    SplitAppend(doc, SEPARATOR + ['\n'] + rest, '\n');
    SplitFirst(SEPARATOR, rest, '\n');
  }

  lemma InterleavedFirst(docs: seq<string>)
    requires |docs| > 1
    ensures Interleaved(docs) == SplitOn(docs[0], '\n') + ([SEPARATOR] + Interleaved(docs[1..]))
  {
  }

  lemma {:induction false} PrintedLines(docs: seq<string>)
    requires docs != []
    ensures SplitOn(Join(docs, "\n---\n"), '\n') == Interleaved(docs)
  {
    if |docs| > 1 {
      hide *;
      InterleavedFirst(docs);
      JoinFirst(docs, "\n---\n");
      PrintedLines(docs[1..]);
      Stitched(docs[0], Join(docs[1..], "\n---\n"));
    }
  }

  lemma PrintedRawLines(docs: seq<string>)
    requires docs != []
    ensures RawLines(Printed(docs)) == Interleaved(docs)
  {
    PrintedLines(docs);
    var text := Join(docs, "\n---\n");
    SplitAppend(text, [], '\n');
    assert text + ['\n'] + [] == Printed(docs);
    assert SplitOn(Printed(docs), '\n') == Interleaved(docs) + [[]];
    assert (Interleaved(docs) + [[]])[..|Interleaved(docs)|] == Interleaved(docs);
  }

  lemma {:induction false} SectionsAppend(a: seq<string>, b: seq<string>)
    requires forall i :: 0 <= i < |a| ==> !IsSeparator(a[i])
    ensures Sections(a) == [a]
    ensures Sections(a + [SEPARATOR] + b) == [a] + Sections(b)
  {
    if a == [] {
      assert a + [SEPARATOR] + b == [SEPARATOR] + b;
      assert ([SEPARATOR] + b)[1..] == b;
    } else {
      assert (a + [SEPARATOR] + b)[1..] == a[1..] + [SEPARATOR] + b;
      SectionsAppend(a[1..], b);
      assert a == [a[0]] + a[1..];
    }
  }

  function LinesOfEach(docs: seq<string>): (r: seq<seq<string>>)
    ensures |r| == |docs| && forall i :: 0 <= i < |r| ==> r[i] == SplitOn(docs[i], '\n')
  {
    if docs == [] then [] else [SplitOn(docs[0], '\n')] + LinesOfEach(docs[1..])
  }

  lemma {:induction false} PlainSections(docs: seq<string>)
    requires docs != [] && forall d :: d in docs ==> Plain(d)
    ensures Sections(Interleaved(docs)) == LinesOfEach(docs)
  {
    var first := SplitOn(docs[0], '\n');
    assert Plain(docs[0]);
    SectionsAppend(first, if |docs| == 1 then [] else Interleaved(docs[1..]));
    if |docs| > 1 { PlainSections(docs[1..]); }
  }

  lemma {:induction false} NoReturns(docs: seq<string>)
    requires docs != [] && forall d :: d in docs ==> Plain(d)
    ensures forall line :: line in Interleaved(docs) ==> !EndsWithReturn(line)
  {
    assert Plain(docs[0]);
    if |docs| > 1 { NoReturns(docs[1..]); }
  }

  lemma {:induction false} PlainComesBack(docs: seq<string>)
    requires docs != [] && forall d :: d in docs ==> Plain(d)
    ensures Split(Printed(docs)) == docs
  {
    PrintedRawLines(docs);
    NoReturns(docs);
    var lines := Interleaved(docs);
    assert DropReturns(lines) == lines by {
      assert forall i :: 0 <= i < |lines| ==> lines[i] in lines;
    }
    PlainSections(docs);
    forall i | 0 <= i < |docs| ensures Joined(LinesOfEach(docs))[i] == docs[i] { JoinSplit(docs[i], '\n'); }
    assert Joined(LinesOfEach(docs)) == docs;
    SelectAll(docs, Contentful());
  }

  // ---- what comes back is plain ----

  lemma {:induction false} SectionsAreOf(lines: seq<string>, i: nat, j: nat)
    requires i < |Sections(lines)| && j < |Sections(lines)[i]|
    ensures Sections(lines)[i][j] in lines && !IsSeparator(Sections(lines)[i][j])
  {
    if !IsSeparator(lines[0]) {
      if i > 0 { SectionsAreOf(lines[1..], i, j); } else if j > 0 { SectionsAreOf(lines[1..], 0, j - 1); }
    } else {
      SectionsAreOf(lines[1..], i - 1, j);
    }
  }

  lemma ScannedHasNoNewline(raw: string, line: string)
    requires line in ScanLines(raw)
    ensures '\n' !in line
  {
    JoinSplit(raw, '\n');
    var i :| 0 <= i < |ScanLines(raw)| && ScanLines(raw)[i] == line;
    var whole := RawLines(raw)[i];
    assert whole == SplitOn(raw, '\n')[i];
  }

  /** No document that comes out of a manifest has a separator line, or is without content. */
  lemma {:induction false} SplitIsClean(raw: string, doc: string)
    requires doc in Split(raw)
    ensures HasContent(doc) && forall line :: line in SplitOn(doc, '\n') ==> !IsSeparator(line)
  {
    var lines := ScanLines(raw);
    var sections := Sections(lines);
    SelectMember(Joined(sections), Contentful(), doc);
    var i :| 0 <= i < |sections| && Joined(sections)[i] == doc;
    var section := sections[i];
    forall j | 0 <= j < |section| ensures '\n' !in section[j] && !IsSeparator(section[j]) {
      SectionsAreOf(lines, i, j);
      ScannedHasNoNewline(raw, section[j]);
    }
    if section != [] { SplitJoin(section, '\n'); }
  }

  // ---- carriage returns are counted ----

  function Returns(s: string): nat {
    if s == [] then 0 else (if s[0] == '\r' then 1 else 0) + Returns(s[1..])
  }

  function ReturnsIn(lines: seq<string>): nat {
    if lines == [] then 0 else Returns(lines[0]) + ReturnsIn(lines[1..])
  }

  lemma {:induction false} ReturnsAppend(a: string, b: string)
    ensures Returns(a + b) == Returns(a) + Returns(b)
  {
    if a == [] {
      assert a + b == b;
    } else {
      assert (a + b)[1..] == a[1..] + b;
      ReturnsAppend(a[1..], b);
    }
  }

  lemma {:induction false} ReturnsInAppend(a: seq<string>, b: seq<string>)
    ensures ReturnsIn(a + b) == ReturnsIn(a) + ReturnsIn(b)
  {
    if a == [] {
      assert a + b == b;
    } else {
      assert (a + b)[1..] == a[1..] + b;
      ReturnsInAppend(a[1..], b);
    }
  }

  lemma {:induction false} ReturnsJoined(lines: seq<string>)
    ensures Returns(Join(lines, "\n")) == ReturnsIn(lines)
  {
    if |lines| > 1 {
      ReturnsJoined(lines[1..]);
      ReturnsAppend(lines[0] + "\n", Join(lines[1..], "\n"));
      ReturnsAppend(lines[0], "\n");
    }
  }

  lemma {:induction false} ReturnsPrinted(docs: seq<string>)
    ensures ReturnsIn(Interleaved(docs)) == ReturnsIn(docs)
  {
    if docs != [] {
      var first := SplitOn(docs[0], '\n');
      JoinSplit(docs[0], '\n');
      ReturnsJoined(first);
      if |docs| > 1 {
        ReturnsPrinted(docs[1..]);
        ReturnsInAppend(first + [SEPARATOR], Interleaved(docs[1..]));
        ReturnsInAppend(first, [SEPARATOR]);
        assert Returns(SEPARATOR) == 0;
      }
    }
  }

  lemma {:induction false} DroppedReturns(lines: seq<string>)
    ensures ReturnsIn(DropReturns(lines)) <= ReturnsIn(lines)
    ensures ReturnsIn(DropReturns(lines)) == ReturnsIn(lines) ==> forall line :: line in lines ==> !EndsWithReturn(line)
  {
    if lines != [] {
      var line := lines[0];
      if EndsWithReturn(line) {
        assert line == line[..|line| - 1] + "\r";
        ReturnsAppend(line[..|line| - 1], "\r");
      }
      DroppedReturns(lines[1..]);
    }
  }

  lemma {:induction false} ReturnsInSections(lines: seq<string>)
    ensures ReturnsIn(Joined(Sections(lines))) <= ReturnsIn(lines)
  {
    var s := Sections(lines);
    ReturnsJoined(s[0]);
    if lines != [] {
      var rest := Sections(lines[1..]);
      ReturnsInSections(lines[1..]);
      ReturnsJoined(rest[0]);
      if !IsSeparator(lines[0]) {
        assert ([lines[0]] + rest[0])[1..] == rest[0];
        assert s[1..] == rest[1..];
      } else {
        assert s[1..] == rest;
      }
    }
  }

  lemma {:induction false} ReturnsSelected(docs: seq<string>, keep: string -> bool)
    ensures ReturnsIn(Select(docs, keep)) <= ReturnsIn(docs)
    decreases |docs|
  {
    if docs != [] {
      var init, last := docs[..|docs| - 1], docs[|docs| - 1];
      ReturnsSelected(init, keep);
      ReturnsInAppend(init, [last]);
      assert init + [last] == docs;
      ReturnsInAppend(Select(init, keep), if keep(last) then [last] else []);
    }
  }

  /** Splitting undoes printing exactly for documents that each hold more than comments and blanks, with no line
      that reads as a separator or ends in a carriage return. */
  lemma {:induction false} SplitUndoesPrinting(docs: seq<string>)
    requires docs != []
    ensures Split(Printed(docs)) == docs <==> forall d :: d in docs ==> Plain(d)
  {
    if forall d :: d in docs ==> Plain(d) {
      PlainComesBack(docs);
    } else if Split(Printed(docs)) == docs {
      ComesBackPlain(docs);
    }
  }

  lemma {:induction false} NoneDropped(docs: seq<string>)
    requires docs != [] && Split(Printed(docs)) == docs
    ensures forall line :: line in Interleaved(docs) ==> !EndsWithReturn(line)
  {
    var lines := Interleaved(docs);
    PrintedRawLines(docs);
    assert Split(Printed(docs)) == Select(Joined(Sections(DropReturns(lines))), Contentful());
    hide *;
    ReturnsPrinted(docs);
    ReturnsSelected(Joined(Sections(DropReturns(lines))), Contentful());
    ReturnsInSections(DropReturns(lines));
    DroppedReturns(lines);
  }

  lemma {:induction false} ComesBackPlain(docs: seq<string>)
    requires docs != [] && Split(Printed(docs)) == docs
    ensures forall d :: d in docs ==> Plain(d)
  {
    NoneDropped(docs);
    hide Interleaved, Printed, Split, HasContent, EndsWithReturn, IsSeparator;
    forall d | d in docs ensures Plain(d) {
      SplitIsClean(Printed(docs), d);
      LinesAreInterleaved(docs, d);
    }
  }

  lemma {:induction false} LinesAreInterleaved(docs: seq<string>, d: string)
    requires d in docs
    ensures forall line :: line in SplitOn(d, '\n') ==> line in Interleaved(docs)
  {
    if |docs| > 1 && d != docs[0] { LinesAreInterleaved(docs[1..], d); }
  }

  // ---- the code ----

  /** One more line at the end begins a section, or joins the last one. */
  function Grown(s: seq<seq<string>>, line: string): (r: seq<seq<string>>)
    requires s != []
    ensures r != []
  {
    if IsSeparator(line) then s + [[]] else s[|s| - 1 := s[|s| - 1] + [line]]
  }

  /** One more line at the front begins a section, or joins the first one. */
  function Headed(first: string, s: seq<seq<string>>): (r: seq<seq<string>>)
    requires s != []
    ensures r != []
  {
    if IsSeparator(first) then [[]] + s else [[first] + s[0]] + s[1..]
  }

  lemma BothEnds(first: string, s: seq<seq<string>>, line: string)
    requires s != []
    ensures Headed(first, Grown(s, line)) == Grown(Headed(first, s), line)
  {
    hide IsSeparator;
    if !IsSeparator(first) && !IsSeparator(line) && |s| == 1 {
      assert [first] + (s[0] + [line]) == ([first] + s[0]) + [line];
    }
  }

  lemma {:induction false} SectionsStep(lines: seq<string>, line: string)
    ensures Sections(lines + [line]) == Grown(Sections(lines), line)
  {
    if lines == [] {
      SectionsOfOne(line);
      assert lines + [line] == [line];
    } else {
      SectionsHeaded(lines);
      SectionsHeaded(lines + [line]);
      hide Sections, Headed, Grown;
      assert (lines + [line])[1..] == lines[1..] + [line];
      SectionsStep(lines[1..], line);
      BothEnds(lines[0], Sections(lines[1..]), line);
    }
  }

  lemma SectionsHeaded(lines: seq<string>)
    requires lines != []
    ensures Sections(lines) == Headed(lines[0], Sections(lines[1..]))
  {
  }

  lemma SectionsOfOne(line: string)
    ensures Sections([line]) == Grown(Sections([]), line)
  {
    var none: seq<string> := [];
    assert [line][1..] == none && [line] + none == none + [line];
  }

  lemma {:induction false} JoinedAppend(sections: seq<seq<string>>, last: seq<string>)
    ensures Joined(sections + [last]) == Joined(sections) + [Join(last, "\n")]
  {
    if sections != [] {
      assert (sections + [last])[1..] == sections[1..] + [last];
      JoinedAppend(sections[1..], last);
    } else {
      assert [last][1..] == [];
    }
  }

  lemma SectionsEnd(lines: seq<string>, current: seq<string>, closed: seq<seq<string>>)
    requires Sections(lines) == closed + [current]
    ensures Joined(Sections(lines)) == Joined(closed) + [Join(current, "\n")]
  {
    JoinedAppend(closed, current);
  }

  method Cut(raw: string) returns (kept: seq<string>)
    ensures kept == Split(raw)
  {
    hide Sections, Joined, Join, IsSeparator, ScanLines, HasContent;
    var lines := ScanLines(raw);
    var out, current: seq<string> := [], [];
    ghost var closed: seq<seq<string>> := [];
    NothingCut();
    assert lines[..0] == [];
    for i := 0 to |lines|
      invariant Sections(lines[..i]) == closed + [current] && out == Joined(closed)
    {
      SectionsStep(lines[..i], lines[i]);
      assert lines[..i + 1] == lines[..i] + [lines[i]];
      if IsSeparator(lines[i]) {
        JoinedAppend(closed, current);
        closed := closed + [current];
        out := out + [Join(current, "\n")];
        current := [];
        continue;
      }
      current := current + [lines[i]];
    }
    assert lines[..|lines|] == lines;
    SectionsEnd(lines, current, closed);
    out := out + [Join(current, "\n")];

    kept := [];
    for i := 0 to |out|
      invariant kept == Select(out[..i], Contentful())
    {
      SelectStep(out, Contentful(), i);
      if HasContent(out[i]) { kept := kept + [out[i]]; }
    }
    assert out[..|out|] == out;
  }

  lemma NothingCut()
    ensures Sections([]) == [[]] && Joined([]) == []
  {
  }

  /** The documents an object could not be made of are skipped; what is printed is printed trimmed. */
  method Print(encoded: seq<Option<string>>) returns (text: Option<string>)
    ensures text == Render(Present(encoded))
  {
    var parts: seq<string> := [];
    for i := 0 to |encoded|
      invariant parts == Trimmed(Present(encoded[..i]))
    {
      assert encoded[..i + 1][..i] == encoded[..i];
      if encoded[i].None? { continue; }
      TrimmedAppend(Present(encoded[..i]), encoded[i].value);
      parts := parts + [TrimSpace(encoded[i].value)];
    }
    assert encoded[..|encoded|] == encoded;
    if |parts| == 0 { return None; }
    text := Some(Join(parts, "\n---\n") + "\n");
  }

  function Present(encoded: seq<Option<string>>): seq<string>
    decreases |encoded|
  {
    if encoded == [] then []
    else Present(encoded[..|encoded| - 1]) + match encoded[|encoded| - 1] { case None => [] case Some(text) => [text] }
  }

  lemma {:induction false} TrimmedAppend(a: seq<string>, b: string)
    ensures Trimmed(a + [b]) == Trimmed(a) + [TrimSpace(b)]
  {
    if a != [] {
      assert (a + [b])[1..] == a[1..] + [b];
      TrimmedAppend(a[1..], b);
    }
  }

  // ---- the same object twice ----

  datatype Identity = Identity(apiVersion: string, kind: string, namespace: string, name: string)

  function KeyOf(o: Identity): string {
    o.apiVersion + ['/'] + o.kind + ['/'] + o.namespace + ['/'] + o.name
  }

  predicate SlashFree(o: Identity) {
    '/' !in o.kind + o.namespace + o.name
  }

  /** Among objects whose kind, namespace and name hold no slash, the joined key tells them apart, whatever slashes
      the version holds. */
  lemma KeysTellApart(a: Identity, b: Identity)
    requires SlashFree(a) && SlashFree(b)
    ensures KeyOf(a) == KeyOf(b) <==> a == b
  {
    KeyParts(a);
    KeyParts(b);
    if KeyOf(a) == KeyOf(b) {
      var p, q := SplitOn(a.apiVersion, '/'), SplitOn(b.apiVersion, '/');
      var s := SplitOn(KeyOf(a), '/');
      assert p == s[..|s| - 3] && q == s[..|s| - 3];
      assert s[|s| - 3] == a.kind == b.kind && s[|s| - 2] == a.namespace == b.namespace && s[|s| - 1] == a.name == b.name;
      SplitInjective(a.apiVersion, b.apiVersion, '/');
    }
  }

  ghost predicate KeyIsIts(a: Identity) {
    forall b :: KeyOf(b) == KeyOf(a) ==> b == a
  }

  lemma SlashSplits(s: string) returns (x: string, y: string)
    requires '/' in s
    ensures s == x + ['/'] + y
  {
    var i :| 0 <= i < |s| && s[i] == '/';
    x, y := s[..i], s[i + 1..];
  }

  /** Nothing checks that they hold none, and then keys do collide: the slash between two fields may be moved. */
  lemma MovedSlashCollides(v: string, k: string, x: string, y: string, z: string)
    ensures KeyOf(Identity(v, k, x + ['/'] + y, z)) == KeyOf(Identity(v, k, x, y + ['/'] + z))
    ensures KeyOf(Identity(v, x + ['/'] + y, z, k)) == KeyOf(Identity(v, x, y + ['/'] + z, k))
    ensures KeyOf(Identity(x + ['/'] + y, z, v, k)) == KeyOf(Identity(x, y + ['/'] + z, v, k))
  {
    assert v + ['/'] + k + ['/'] + (x + ['/'] + y) + ['/'] + z == v + ['/'] + k + ['/'] + x + ['/'] + (y + ['/'] + z);
    assert v + ['/'] + (x + ['/'] + y) + ['/'] + z + ['/'] + k == v + ['/'] + x + ['/'] + (y + ['/'] + z) + ['/'] + k;
  }

  lemma Longer(x: string, y: string, z: string)
    ensures x + ['/'] + y != x && y + ['/'] + z != z
  {
    assert |x + ['/'] + y| == |x| + 1 + |y| && |y + ['/'] + z| == |y| + 1 + |z|;
  }

  /** Exactly the objects without a slash in any of the four fields have a key no other object can have. */
  lemma KeyIsUniqueExactly(a: Identity)
    ensures KeyIsIts(a) <==> '/' !in a.apiVersion && SlashFree(a)
  {
    hide KeyOf;
    if '/' in a.apiVersion {
      var x, y := SlashSplits(a.apiVersion);
      MovedSlashCollides(a.namespace, a.name, x, y, a.kind);
      Longer(x, y, a.kind);
      assert KeyOf(Identity(x, y + ['/'] + a.kind, a.namespace, a.name)) == KeyOf(a);
    } else if '/' in a.kind {
      var x, y := SlashSplits(a.kind);
      MovedSlashCollides(a.apiVersion, a.name, x, y, a.namespace);
      Longer(x, y, a.namespace);
      assert KeyOf(Identity(a.apiVersion, x, y + ['/'] + a.namespace, a.name)) == KeyOf(a);
    } else if '/' in a.namespace {
      var x, y := SlashSplits(a.namespace);
      MovedSlashCollides(a.apiVersion, a.kind, x, y, a.name);
      Longer(x, y, a.name);
      assert KeyOf(Identity(a.apiVersion, a.kind, x, y + ['/'] + a.name)) == KeyOf(a);
    } else if '/' in a.name {
      var x, y := SlashSplits(a.name);
      MovedSlashCollides(a.apiVersion, a.kind, a.namespace, x, y);
      Longer(a.namespace, x, y);
      assert KeyOf(Identity(a.apiVersion, a.kind, a.namespace + ['/'] + x, y)) == KeyOf(a);
    } else {
      forall b | KeyOf(b) == KeyOf(a) ensures b == a { SameKeySlashFree(a, b); }
    }
  }

  lemma SameKeySlashFree(a: Identity, b: Identity)
    requires '/' !in a.apiVersion && SlashFree(a) && KeyOf(b) == KeyOf(a)
    ensures b == a
  {
    assert KeyOf(b) == b.apiVersion + ['/'] + b.kind + ['/'] + b.namespace + ['/'] + b.name;
    hide KeyOf;
    KeyParts(a);
    SplitFirst(a.apiVersion, [], '/');
    SplitAppend(b.apiVersion + ['/'] + b.kind + ['/'] + b.namespace, b.name, '/');
    SplitAppend(b.apiVersion + ['/'] + b.kind, b.namespace, '/');
    SplitAppend(b.apiVersion, b.kind, '/');
    hide SplitOn;
    assert |SplitOn(KeyOf(b), '/')| == 4;
    OnePiece(b.apiVersion, '/');
    OnePiece(b.kind, '/');
    OnePiece(b.namespace, '/');
    OnePiece(b.name, '/');
    KeysTellApart(a, b);
  }

  lemma KeyParts(o: Identity)
    requires SlashFree(o)
    ensures SplitOn(KeyOf(o), '/') == SplitOn(o.apiVersion, '/') + [o.kind, o.namespace, o.name]
  {
    SplitAppend(o.apiVersion + ['/'] + o.kind + ['/'] + o.namespace, o.name, '/');
    SplitAppend(o.apiVersion + ['/'] + o.kind, o.namespace, '/');
    SplitAppend(o.apiVersion, o.kind, '/');
    SplitFirst(o.kind, [], '/');
    SplitFirst(o.namespace, [], '/');
    SplitFirst(o.name, [], '/');
  }

  /** A document that declares an object an earlier one declared. */
  datatype Duplicate = Duplicate(resource: nat, first: nat)

  predicate Declares(objects: seq<Option<Identity>>, i: nat, key: string) {
    i < |objects| && objects[i].Some? && KeyOf(objects[i].value) == key
  }

  ghost predicate FirstOf(objects: seq<Option<Identity>>, i: nat, key: string) {
    Declares(objects, i, key) && forall j: nat :: j < i ==> !Declares(objects, j, key)
  }

  predicate Reported(out: seq<Duplicate>, i: nat) {
    exists k :: 0 <= k < |out| && out[k].resource == i
  }

  ghost predicate Rightly(objects: seq<Option<Identity>>, d: Duplicate) {
    d.first < d.resource < |objects| && objects[d.resource].Some? && FirstOf(objects, d.first, KeyOf(objects[d.resource].value))
  }

  /** Some earlier document declares the object this one declares. */
  ghost predicate Repeats(objects: seq<Option<Identity>>, i: nat) {
    i < |objects| && objects[i].Some? && exists j: nat :: j < i && Declares(objects, j, KeyOf(objects[i].value))
  }

  /** Some earlier document declares this very object. */
  ghost predicate RepeatsObject(objects: seq<Option<Identity>>, i: nat) {
    i < |objects| && objects[i].Some? && exists j: nat :: j < i && objects[j] == objects[i]
  }

  ghost predicate AllSlashFree(objects: seq<Option<Identity>>) {
    forall i :: 0 <= i < |objects| && objects[i].Some? ==> SlashFree(objects[i].value)
  }

  lemma RepeatsSameObject(objects: seq<Option<Identity>>, i: nat)
    requires AllSlashFree(objects)
    ensures Repeats(objects, i) <==> RepeatsObject(objects, i)
  {
    if i < |objects| && objects[i].Some? {
      forall j: nat | j < i ensures Declares(objects, j, KeyOf(objects[i].value)) <==> objects[j] == objects[i] {
        if objects[j].Some? { KeysTellApart(objects[j].value, objects[i].value); }
      }
    }
  }

  /** Exactly the documents whose key repeats are reported, each once and in order, against the first document of that
      key; and where no kind, namespace or name holds a slash, these are exactly the documents that repeat an object. */
  method DuplicateProblems(objects: seq<Option<Identity>>) returns (out: seq<Duplicate>)
    ensures AllSlashFree(objects) ==> forall i: nat :: RepeatsObject(objects, i) <==> Reported(out, i)
    ensures forall i: nat :: Repeats(objects, i) <==> Reported(out, i)
    ensures forall k :: 0 <= k < |out| ==> Rightly(objects, out[k])
    ensures forall a, b :: 0 <= a < b < |out| ==> out[a].resource < out[b].resource
  {
    var seen: map<string, nat> := map[];
    out := [];
    for i := 0 to |objects|
      invariant forall key :: key in seen ==> seen[key] < i && FirstOf(objects, seen[key], key)
      invariant forall j: nat :: j < i && objects[j].Some? ==> KeyOf(objects[j].value) in seen
      invariant forall j: nat :: j < i ==> (Repeats(objects, j) <==> Reported(out, j))
      invariant forall k :: 0 <= k < |out| ==> Rightly(objects, out[k]) && out[k].resource < i
      invariant forall a, b :: 0 <= a < b < |out| ==> out[a].resource < out[b].resource
    {
      hide KeyOf;
      ghost var before := out;
      if objects[i].None? { continue; }
      var key := KeyOf(objects[i].value);
      if key in seen {
        assert Declares(objects, seen[key], key);
        out := out + [Duplicate(i, seen[key])];
        ReportedMore(before, Duplicate(i, seen[key]));
        continue;
      }
      assert forall j: nat :: j < i ==> !Declares(objects, j, key);
      seen := seen[key := i];
    }
    if AllSlashFree(objects) {
      forall i: nat ensures RepeatsObject(objects, i) <==> Reported(out, i) { RepeatsSameObject(objects, i); }
    }
  }

  lemma ReportedMore(out: seq<Duplicate>, d: Duplicate)
    ensures forall i: nat :: Reported(out + [d], i) <==> Reported(out, i) || i == d.resource
  {
    forall i: nat ensures Reported(out + [d], i) <==> Reported(out, i) || i == d.resource {
      if Reported(out, i) {
        var k :| 0 <= k < |out| && out[k].resource == i;
        assert (out + [d])[k].resource == i;
      }
      assert (out + [d])[|out|] == d;
    }
  }
}
