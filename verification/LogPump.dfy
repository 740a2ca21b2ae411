/** The log pump (internal/logs/service.go): a reader scans lines into a bounded channel, and a consumer
    batches them into chunks, over every interleaving of the two with the ticker and a cancellation. */
module LogPump {
  import opened Order

  const FLUSH_LINES := 200
  const CHANNEL_SIZE := 512

  datatype Chunk = Chunk(lines: seq<string>, done: bool, failure: string)

  // ---- the consumer ----

  /** What its select statement took. */
  datatype Pick = Cancelled | Failed(message: string) | Line(text: string) | Ended | Tick

  datatype Consumer = Consumer(batch: seq<string>, emitted: seq<Chunk>, finished: bool)

  const FRESH := Consumer([], [], false)

  function Flushed(c: Consumer, done: bool, failure: string): Consumer {
    if c.batch == [] && !done && failure == "" then c
    else Consumer([], c.emitted + [Chunk(c.batch, done, failure)], c.finished)
  }

  function Take(c: Consumer, p: Pick): Consumer {
    match p
    case Cancelled => Flushed(c, true, "").(finished := true)
    case Failed(message) => Flushed(c, true, message).(finished := true)
    case Ended => Flushed(c, true, "").(finished := true)
    case Line(text) =>
      var next := c.(batch := c.batch + [text]);
      if |next.batch| >= FLUSH_LINES then Flushed(next, false, "") else next
    case Tick => Flushed(c, false, "")
  }

  function TakeAll(c: Consumer, picks: seq<Pick>): Consumer
    decreases |picks|
  {
    if picks == [] || c.finished then c else TakeAll(Take(c, picks[0]), picks[1..])
  }

  function LinesOf(chunks: seq<Chunk>): seq<string>
    decreases |chunks|
  {
    if chunks == [] then [] else LinesOf(chunks[..|chunks| - 1]) + chunks[|chunks| - 1].lines
  }

  /** Everything the consumer has taken: what it handed out and what it still holds. */
  function Received(c: Consumer): seq<string> {
    LinesOf(c.emitted) + c.batch
  }

  predicate ChunkFits(k: Chunk) {
    |k.lines| <= FLUSH_LINES && (k.lines == [] ==> k.done)
  }

  /** Chunks fit, none is empty but the last, and the last is the one that says it is done, if any does. */
  ghost predicate Tidy(c: Consumer) {
    && |c.batch| < FLUSH_LINES
    && (forall i :: 0 <= i < |c.emitted| ==> ChunkFits(c.emitted[i]))
    && (forall i :: 0 <= i < |c.emitted| - 1 ==> !c.emitted[i].done)
    && (c.finished <==> |c.emitted| > 0 && c.emitted[|c.emitted| - 1].done)
    && (c.finished ==> c.batch == [])
  }

  lemma FlushKeepsLines(c: Consumer, done: bool, failure: string)
    ensures Received(Flushed(c, done, failure)) == Received(c)
  {
    var f := Flushed(c, done, failure);
    if f != c { assert f.emitted[..|f.emitted| - 1] == c.emitted; }
  }

  /** Taking a line adds it at the end; nothing else the consumer does loses, adds or moves one. */
  lemma TakeKeepsLines(c: Consumer, p: Pick)
    ensures Received(Take(c, p)) == Received(c) + if p.Line? then [p.text] else []
  {
    var d := if p.Line? then c.(batch := c.batch + [p.text]) else c;
    FlushKeepsLines(d, !(p.Line? || p.Tick?), if p.Failed? then p.message else "");
  }

  lemma TakeKeepsTidy(c: Consumer, p: Pick)
    requires Tidy(c) && !c.finished
    ensures Tidy(Take(c, p))
    ensures Take(c, p).finished <==> p.Cancelled? || p.Failed? || p.Ended?
  {
  }

  /** When lines are handed out: all that are held at a tick, and at two hundred of them; until then they are held. */
  lemma HandedOutWhen(c: Consumer, text: string)
    requires Tidy(c) && !c.finished
    ensures Take(c, Tick).batch == [] && LinesOf(Take(c, Tick).emitted) == Received(c)
    ensures var d := Take(c, Line(text));
      if |c.batch| + 1 < 200 then d.emitted == c.emitted && d.batch == c.batch + [text]
      else d.batch == [] && LinesOf(d.emitted) == Received(c) + [text]
    ensures Take(c, Tick).finished == Take(c, Line(text)).finished == false
  {
    var t, d := Take(c, Tick), Take(c, Line(text));
    TakeKeepsLines(c, Tick);
    TakeKeepsLines(c, Line(text));
    assert Received(t) == LinesOf(t.emitted) && Received(c) + [] == Received(c);
    assert d.batch == [] ==> Received(d) == LinesOf(d.emitted);
    hide LinesOf;
  }

  // ---- the reader ----

  /** Scanning for the next line, offering one to the channel, done scanning but not closed, closed. */
  datatype Reader = Scanning | Offering(text: string) | Returning | Closed

  /** The pump, with the lines ever scanned, the line a cancelled reader gave up on, and how the scan failed. */
  datatype State = State(reader: Reader, scanned: seq<string>, channel: seq<string>, error: Option<string>, cancelled: bool,
                         consumer: Consumer, dropped: seq<string>, broke: Option<string>)

  const INITIAL := State(Scanning, [], [], None, false, FRESH, [], None)

  datatype Step =
    | Scan(text: string)               // the scanner yields a line
    | Push                             // the channel takes the line
    | Abandon                          // the reader sees the cancellation instead
    | EndScan(failed: Option<string>)  // the scanner stops
    | Close                            // the deferred close
    | Cancel
    | Consume(pick: Pick)

  predicate Enabled(s: State, p: Pick) {
    match p
    case Cancelled => s.cancelled
    case Failed(message) => s.error == Some(message)
    case Line(text) => s.channel != [] && s.channel[0] == text
    case Ended => s.channel == [] && s.reader.Closed?
    case Tick => true
  }

  function AfterScan(s: State, failed: Option<string>): State {
    s.(reader := Returning, broke := failed, error := if failed.Some? && !s.cancelled then failed else s.error)
  }

  /** A step that is not possible changes nothing. */
  function Next(s: State, step: Step): State {
    match step
    case Scan(text) => if s.reader.Scanning? then s.(reader := Offering(text), scanned := s.scanned + [text]) else s
    case Push =>
      if s.reader.Offering? && |s.channel| < CHANNEL_SIZE then s.(reader := Scanning, channel := s.channel + [s.reader.text]) else s
    case Abandon => if s.reader.Offering? && s.cancelled then s.(reader := Returning, dropped := s.dropped + [s.reader.text]) else s
    case EndScan(failed) => if s.reader.Scanning? then AfterScan(s, failed) else s
    case Close => if s.reader.Returning? then s.(reader := Closed) else s
    case Cancel => s.(cancelled := true)
    case Consume(p) =>
      if s.consumer.finished || !Enabled(s, p) then s
      else s.(consumer := Take(s.consumer, p),
              channel := if p.Line? then s.channel[1..] else s.channel,
              error := if p.Failed? then None else s.error)
  }

  function Run(s: State, steps: seq<Step>): State
    decreases |steps|
  {
    if steps == [] then s else Run(Next(s, steps[0]), steps[1..])
  }

  /** A scan that fails once the pump was cancelled says nothing; one that fails before leaves its error to be told. */
  lemma CancelledScanIsSilent(s: State, failed: Option<string>)
    requires s.reader.Scanning? && s.error.None?
    ensures Next(s, EndScan(failed)).error == if s.cancelled then None else failed
    ensures Next(s, EndScan(failed)).channel == s.channel && Next(s, EndScan(failed)).scanned == s.scanned
  {
  }

  function InHand(r: Reader): seq<string> {
    if r.Offering? then [r.text] else []
  }

  /** Where every scanned line is. */
  ghost predicate Accounted(s: State) {
    s.scanned == Received(s.consumer) + s.channel + InHand(s.reader) + s.dropped
  }

  ghost predicate Ordered(s: State) {
    && |s.channel| <= CHANNEL_SIZE
    && (s.dropped != [] ==> s.cancelled && (s.reader.Returning? || s.reader.Closed?))
    && (s.error.Some? ==> s.error == s.broke)
    && (s.broke.Some? ==> s.reader.Returning? || s.reader.Closed?)
    && (s.broke.Some? && !s.cancelled && !s.consumer.finished ==> s.error == s.broke)
  }

  function LastFailure(c: Consumer): string {
    if c.emitted == [] then "" else c.emitted[|c.emitted| - 1].failure
  }

  /** How the last chunk came to be: a cancellation, the scan's error, or the channel at its end. */
  ghost predicate EndsRightly(s: State) {
    s.consumer.finished ==>
      || s.cancelled
      || (s.broke.Some? && LastFailure(s.consumer) == s.broke.value)
      || (s.reader.Closed? && s.channel == [] && s.dropped == [] && LastFailure(s.consumer) == "")
  }

  ghost predicate Good(s: State) {
    Tidy(s.consumer) && Accounted(s) && Ordered(s) && EndsRightly(s)
  }

  lemma ReaderKeepsAccount(s: State, step: Step)
    requires Accounted(s) && Ordered(s) && !step.Consume?
    ensures Accounted(Next(s, step))
  {
    hide Take, Received, Enabled;
    if step.Scan? && s.reader.Scanning? {
      assert s.dropped == [];
    } else if step.Push? && s.reader.Offering? {
      assert s.dropped == [] && s.channel + [s.reader.text] + [] == s.channel + ([s.reader.text] + []);
    } else if step.Abandon? && s.reader.Offering? {
      assert s.dropped == [];
    }
  }

  lemma ConsumerKeepsAccount(s: State, p: Pick)
    requires Accounted(s) && !s.consumer.finished && Enabled(s, p)
    ensures Accounted(Next(s, Consume(p)))
  {
    TakeKeepsLines(s.consumer, p);
    hide Take, Received;
    if p.Line? { assert [p.text] + s.channel[1..] == s.channel; }
  }

  lemma {:induction false} AccountKept(s: State, step: Step)
    requires Accounted(s) && Ordered(s)
    ensures Accounted(Next(s, step))
  {
    if !step.Consume? {
      ReaderKeepsAccount(s, step);
    } else if !s.consumer.finished && Enabled(s, step.pick) {
      ConsumerKeepsAccount(s, step.pick);
    } else {
      hide Accounted, Take;
    }
  }

  lemma {:induction false} EndKept(s: State, step: Step)
    requires Good(s)
    ensures EndsRightly(Next(s, step)) && Tidy(Next(s, step).consumer) && Ordered(Next(s, step))
  {
    if step.Consume? && !s.consumer.finished && Enabled(s, step.pick) {
      TakeKeepsTidy(s.consumer, step.pick);
    }
  }

  lemma {:induction false} RunsAreGood(s: State, steps: seq<Step>)
    requires Good(s)
    ensures Good(Run(s, steps))
    decreases |steps|
  {
    if steps != [] {
      hide Good;
      StepKeeps(s, steps[0]);
      RunsAreGood(Next(s, steps[0]), steps[1..]);
    }
  }

  lemma {:induction false} StepKeeps(s: State, step: Step)
    requires Good(s)
    ensures Good(Next(s, step))
  {
    AccountKept(s, step);
    EndKept(s, step);
    hide Next, Accounted, EndsRightly, Tidy, Ordered;
  }

  lemma LinesSoFar(s: State)
    requires Accounted(s)
    ensures LinesOf(s.consumer.emitted) <= s.scanned
  {
  }

  /** Over every interleaving: what was handed out is a prefix of what was scanned, in order; no chunk is over
      the limit and only the last may be empty; the chunk that says done is handed out once, and is the last. */
  lemma ChunksAreInOrder(steps: seq<Step>)
    ensures var s := Run(INITIAL, steps); LinesOf(s.consumer.emitted) <= s.scanned && |s.channel| <= CHANNEL_SIZE
    ensures
      var chunks := Run(INITIAL, steps).consumer.emitted;
      forall i :: 0 <= i < |chunks| ==> ChunkFits(chunks[i]) && (chunks[i].done ==> i == |chunks| - 1)
    ensures
      var c := Run(INITIAL, steps).consumer;
      c.finished <==> exists i :: 0 <= i < |c.emitted| && c.emitted[i].done
  {
    RunsAreGood(INITIAL, steps);
    hide Run;
    LinesSoFar(Run(INITIAL, steps));
  }

  /** Without a cancellation and without a scan error, the end of the stream delivers every line, and says so
      without an error. */
  lemma CleanEndDeliversAll(steps: seq<Step>)
    requires var s := Run(INITIAL, steps); s.consumer.finished && !s.cancelled && s.broke.None?
    ensures var s := Run(INITIAL, steps); LinesOf(s.consumer.emitted) == s.scanned && LastFailure(s.consumer) == ""
  {
    RunsAreGood(INITIAL, steps);
    hide Run;
  }

  /** When the scan failed, the pump tells the error or delivers every line; it never loses both. */
  lemma ErrorOrEveryLine(steps: seq<Step>)
    requires var s := Run(INITIAL, steps); s.consumer.finished && !s.cancelled && s.broke.Some?
    ensures
      var s := Run(INITIAL, steps);
      LastFailure(s.consumer) == s.broke.value || (LastFailure(s.consumer) == "" && LinesOf(s.consumer.emitted) == s.scanned)
  {
    RunsAreGood(INITIAL, steps);
    hide Run;
  }

  predicate Finishes(p: Pick) {
    p.Cancelled? || p.Failed? || p.Ended?
  }

  /** In every reachable state, whatever ends the pump there: every line scanned so far is delivered exactly when
      none is in the channel, in the reader's hand or given up; and the last chunk carries an error exactly when the
      error was what ended it. */
  lemma WhatAnEndDelivers(steps: seq<Step>, p: Pick)
    requires var s := Run(INITIAL, steps); !s.consumer.finished && Finishes(p) && Enabled(s, p)
    ensures
      var s := Run(INITIAL, steps);
      var c := Take(s.consumer, p);
      && (LinesOf(c.emitted) == s.scanned <==> s.channel == [] && s.dropped == [] && !s.reader.Offering?)
      && LastFailure(c) == (if p.Failed? then p.message else "")
  {
    RunsAreGood(INITIAL, steps);
    var s := Run(INITIAL, steps);
    TakeKeepsTidy(s.consumer, p);
    TakeKeepsLines(s.consumer, p);
    EndLeaves(s, Take(s.consumer, p));
    hide Run, LinesOf;
  }

  lemma EndLeaves(s: State, c: Consumer)
    requires Accounted(s) && Received(c) == Received(s.consumer) && c.batch == []
    ensures LinesOf(c.emitted) == s.scanned <==> s.channel == [] && s.dropped == [] && !s.reader.Offering?
  {
    var rest := s.channel + InHand(s.reader) + s.dropped;
    assert Received(c) == LinesOf(c.emitted);
    assert s.scanned == LinesOf(c.emitted) + rest;
    hide LinesOf, Received;
    assert |s.scanned| == |LinesOf(c.emitted)| + |rest|;
    if rest == [] { assert LinesOf(c.emitted) + rest == LinesOf(c.emitted); }
  }

  /** The scan's error, in every reachable state where it waits and nothing was cancelled: it loses lines exactly
      when some are still in the channel, and it can itself be lost exactly when the channel is empty and closed, for
      then the end of the channel may be taken instead. */
  lemma WhatAnErrorCosts(steps: seq<Step>, message: string)
    requires var s := Run(INITIAL, steps); !s.consumer.finished && !s.cancelled && s.broke == Some(message)
    ensures
      var s := Run(INITIAL, steps);
      && Enabled(s, Failed(message))
      && (LinesOf(Take(s.consumer, Failed(message)).emitted) == s.scanned <==> s.channel == [])
      && ((exists p :: Finishes(p) && Enabled(s, p) && !p.Failed?) <==> s.channel == [] && s.reader.Closed?)
      && (s.channel == [] && s.reader.Closed? ==> LastFailure(Take(s.consumer, Ended)) == "")
  {
    RunsAreGood(INITIAL, steps);
    var s := Run(INITIAL, steps);
    WhatAnEndDelivers(steps, Failed(message));
    hide Run, LinesOf;
    if s.channel == [] && s.reader.Closed? {
      assert Finishes(Ended) && Enabled(s, Ended) && !Ended.Failed?;
      TakeKeepsTidy(s.consumer, Ended);
    }
  }

  /** The reader is never left offering a line nobody will take: once the consumer has ended, either the reader
      has stopped or the cancellation it waits for has happened. */
  lemma ReaderIsNotStranded(steps: seq<Step>)
    requires Run(INITIAL, steps).consumer.finished && Run(INITIAL, steps).reader.Offering?
    ensures var s := Run(INITIAL, steps); s.cancelled && Next(s, Abandon).reader.Returning?
  {
    RunsAreGood(INITIAL, steps);
    hide Run;
  }

  lemma RunFirst(s: State, step: Step, rest: seq<Step>)
    ensures Run(s, [step] + rest) == Run(Next(s, step), rest)
  {
    assert ([step] + rest)[1..] == rest;
  }

  lemma RunNone(s: State)
    ensures Run(s, []) == s
  {
  }

  lemma LinesOfOne(k: Chunk)
    ensures LinesOf([k]) == k.lines
  {
    assert LinesOf([k][..0]) == [];
  }

  /** Both do happen: an error overtakes a line still in the channel. */
  lemma ErrorMayOvertake(line: string, message: string)
    ensures
      var s := Run(INITIAL, [Scan(line)] + ([Push] + ([EndScan(Some(message))] + ([Consume(Failed(message))] + []))));
      s.consumer.finished && LinesOf(s.consumer.emitted) == [] && s.scanned == [line]
  {
    var failed := Consume(Failed(message));
    RunFirst(INITIAL, Scan(line), [Push] + ([EndScan(Some(message))] + ([failed] + [])));
    var s1 := INITIAL.(reader := Offering(line), scanned := [line]);
    RunFirst(s1, Push, [EndScan(Some(message))] + ([failed] + []));
    var s2 := s1.(reader := Scanning, channel := [line]);
    RunFirst(s2, EndScan(Some(message)), [failed] + []);
    var s3 := s2.(reader := Returning, broke := Some(message), error := Some(message));
    RunFirst(s3, failed, []);
    var last := Chunk([], true, message);
    var s4 := s3.(error := None, consumer := Consumer([], [last], true));
    hide Run, LinesOf;
    assert Next(INITIAL, Scan(line)) == s1 && Next(s1, Push) == s2 && Next(s2, EndScan(Some(message))) == s3 && Next(s3, failed) == s4;
    LinesOfOne(last);
    RunNone(s4);
  }

  /** And the end of the channel is taken before an error that waits, which is then never told. */
  lemma ErrorMayBeLost(message: string)
    ensures
      var s := Run(INITIAL, [EndScan(Some(message))] + ([Close] + ([Consume(Ended)] + [])));
      s.consumer.finished && !s.cancelled && s.broke == Some(message) && s.consumer.emitted == [Chunk([], true, "")]
  {
    var s1 := INITIAL.(reader := Returning, broke := Some(message), error := Some(message));
    var s2 := s1.(reader := Closed);
    var s3 := s2.(consumer := Consumer([], [Chunk([], true, "")], true));
    RunFirst(INITIAL, EndScan(Some(message)), [Close] + ([Consume(Ended)] + []));
    RunFirst(s1, Close, [Consume(Ended)] + []);
    RunFirst(s2, Consume(Ended), []);
    hide Run;
    assert Next(INITIAL, EndScan(Some(message))) == s1 && Next(s1, Close) == s2 && Next(s2, Consume(Ended)) == s3;
    RunNone(s3);
  }

  // ---- the consumer's loop ----

  class Batcher {
    var batch: seq<string>
    var emitted: seq<Chunk>

    constructor ()
      ensures batch == [] && emitted == []
    {
      batch, emitted := [], [];
    }

    method Flush(done: bool, failure: string)
      modifies this
      ensures forall finished :: Consumer(batch, emitted, finished) == Flushed(Consumer(old(batch), old(emitted), finished), done, failure)
    {
      if batch == [] && !done && failure == "" { return; }
      emitted := emitted + [Chunk(batch, done, failure)];
      batch := [];
    }

    /** The loop of the pump, over whatever its select statement takes until a case returns. */
    method Pump(picks: seq<Pick>) returns (returned: bool)
      modifies this
      ensures Consumer(batch, emitted, returned) == TakeAll(Consumer(old(batch), old(emitted), false), picks)
    {
      ghost var start := Consumer(batch, emitted, false);
      var i := 0;
      while i < |picks|
        invariant 0 <= i <= |picks|
        invariant TakeAll(Consumer(batch, emitted, false), picks[i..]) == TakeAll(start, picks)
      {
        ghost var now := Consumer(batch, emitted, false);
        assert picks[i..][0] == picks[i] && picks[i..][1..] == picks[i + 1..];
        match picks[i] {
          case Cancelled =>
            Flush(true, "");
            return true;
          case Failed(message) =>
            Flush(true, message);
            return true;
          case Ended =>
            Flush(true, "");
            return true;
          case Line(text) =>
            batch := batch + [text];
            if |batch| >= FLUSH_LINES { Flush(false, ""); }
          case Tick =>
            Flush(false, "");
        }
        assert Consumer(batch, emitted, false) == Take(now, picks[i]);
        i := i + 1;
      }
      returned := false;
    }
  }
}
