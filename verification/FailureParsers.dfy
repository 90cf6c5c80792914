/**
  The failure parsers fed by the line splitter: what they report is a function of
  the whole stream, however it was cut into chunks.
 */
module FailureParsers {
  import opened BoundedLines

  datatype Option<T> = None | Some(value: T)

  const MAX_ANNOTATIONS: nat := 20
  const MAX_NAME: nat := 256

  // ----- A parser over lines -----

  function Fold<S>(step: (S, Line) -> S, start: S, lines: seq<Line>): S {
    if lines == [] then start
    else step(Fold(step, start, lines[..|lines| - 1]), lines[|lines| - 1])
  }

  lemma {:induction false} FoldOne<S>(step: (S, Line) -> S, start: S, lines: seq<Line>, line: Line)
    ensures Fold(step, start, lines + [line]) == step(Fold(step, start, lines), line)
  {
    assert (lines + [line])[..|lines|] == lines;
  }

  class LineParser<S> {
    const step: (S, Line) -> S
    const start: S
    const splitter: Splitter
    var state: S

    constructor (step: (S, Line) -> S, start: S)
      ensures Valid() && fresh(splitter) && splitter.fed == []
      ensures this.step == step && this.start == start
    {
      this.step, this.start, state := step, start, start;
      splitter := new Splitter();
    }

    ghost predicate Valid()
      reads this, splitter
    {
      splitter.Valid() && state == Fold(step, start, Emitted(splitter.fed))
    }

    method ParseLines(lines: seq<Line>, ghost before: seq<Line>)
      requires state == Fold(step, start, before)
      modifies this`state
      ensures state == Fold(step, start, before + lines)
    {
      assert before + lines[..0] == before;
      for i := 0 to |lines|
        invariant state == Fold(step, start, before + lines[..i])
      {
        FoldOne(step, start, before + lines[..i], lines[i]);
        assert before + lines[..i] + [lines[i]] == before + lines[..i + 1];
        state := step(state, lines[i]);
      }
      assert lines[..|lines|] == lines;
    }

    method Feed(chunk: seq<byte>)
      requires Valid()
      modifies this`state, splitter
      ensures Valid() && splitter.fed == old(splitter.fed) + chunk
    {
      ghost var before := Emitted(splitter.fed);
      var lines := splitter.Feed(chunk);
      ParseLines(lines, before);
    }

    method Finish()
      requires Valid()
      modifies this`state, splitter
      ensures splitter.fed == old(splitter.fed)
      ensures state == Fold(step, start, WholeLines(splitter.fed))
      ensures splitter.oversized == WholeOversized(splitter.fed)
    {
      ghost var before := Emitted(splitter.fed);
      var lines := splitter.Finish();
      ParseLines(lines, before);
    }
  }

  ghost function Joined(chunks: seq<seq<byte>>): seq<byte> {
    if chunks == [] then [] else Joined(chunks[..|chunks| - 1]) + chunks[|chunks| - 1]
  }

  /** Feeding a stream in any chunks gives the fold over the lines of the whole stream. */
  method ParseStream<S>(step: (S, Line) -> S, start: S, chunks: seq<seq<byte>>) returns (state: S, oversized: nat)
    ensures state == Fold(step, start, WholeLines(Joined(chunks)))
    ensures oversized == WholeOversized(Joined(chunks))
  {
    var parser := new LineParser(step, start);
    for i := 0 to |chunks|
      invariant parser.Valid() && fresh(parser) && fresh(parser.splitter)
      invariant parser.step == step && parser.start == start
      invariant parser.splitter.fed == Joined(chunks[..i])
    {
      assert chunks[..i + 1][..i] == chunks[..i];
      parser.Feed(chunks[i]);
    }
    assert chunks[..|chunks|] == chunks;
    parser.Finish();
    return parser.state, parser.splitter.oversized;
  }

  // ----- Bounded distinct findings -----

  datatype Finding = Finding(id: string, status: string)

  datatype Tally = Tally(findings: seq<Finding>, seen: set<string>, omitted: nat)

  const EMPTY: Tally := Tally([], {}, 0)

  function Record(t: Tally, f: Finding): Tally {
    if f.id in t.seen then t
    else if |t.findings| >= MAX_ANNOTATIONS then t.(omitted := t.omitted + 1)
    else t.(findings := t.findings + [f], seen := t.seen + {f.id})
  }

  function RecordAll(fs: seq<Finding>): Tally {
    if fs == [] then EMPTY else Record(RecordAll(fs[..|fs| - 1]), fs[|fs| - 1])
  }

  ghost predicate Names(fs: seq<Finding>, id: string) { exists f :: f in fs && f.id == id }

  /** The first finding of each id, in order. */
  ghost function Firsts(fs: seq<Finding>): seq<Finding> {
    if fs == [] then []
    else
      var before, last := fs[..|fs| - 1], fs[|fs| - 1];
      Firsts(before) + if Names(before, last.id) then [] else [last]
  }

  ghost function Unreported(fs: seq<Finding>, reported: set<string>): nat {
    if fs == [] then 0
    else Unreported(fs[..|fs| - 1], reported) + if fs[|fs| - 1].id in reported then 0 else 1
  }

  function Take(fs: seq<Finding>): seq<Finding> { if |fs| > MAX_ANNOTATIONS then fs[..MAX_ANNOTATIONS] else fs }

  lemma {:induction false} FirstsName(fs: seq<Finding>, id: string)
    ensures Names(Firsts(fs), id) <==> Names(fs, id)
  {
    if fs != [] {
      var before, last := fs[..|fs| - 1], fs[|fs| - 1];
      FirstsName(before, id);
      assert fs == before + [last];
      NamesAppend(before, last, id);
      NamesAppend(Firsts(before), last, id);
    }
  }

  lemma {:induction false} NamesAppend(fs: seq<Finding>, f: Finding, id: string)
    ensures Names(fs + [f], id) <==> Names(fs, id) || f.id == id
  {
    if Names(fs, id) {
      var g :| g in fs && g.id == id;
      assert g in fs + [f];
    }
    if f.id == id {
      assert f in fs + [f];
    }
  }

  lemma {:induction false} UnreportedZero(fs: seq<Finding>, reported: set<string>)
    requires forall f | f in fs :: f.id in reported
    ensures Unreported(fs, reported) == 0
  {
    if fs != [] {
      UnreportedZero(fs[..|fs| - 1], reported);
    }
  }

  ghost predicate Summarizes(fs: seq<Finding>, t: Tally) {
    && t.findings == Take(Firsts(fs))
    && (forall id :: id in t.seen <==> Names(t.findings, id))
    && t.omitted == Unreported(fs, t.seen)
  }

  /** The first twenty distinct findings are reported and every further one is counted. */
  lemma {:induction false} TallyMeaning(fs: seq<Finding>)
    ensures Summarizes(fs, RecordAll(fs))
  {
    if fs != [] {
      TallyMeaning(fs[..|fs| - 1]);
      TallyStep(fs[..|fs| - 1], fs[|fs| - 1], RecordAll(fs[..|fs| - 1]));
      assert fs == fs[..|fs| - 1] + [fs[|fs| - 1]];
    }
  }

  lemma {:induction false} TallyStep(fs: seq<Finding>, f: Finding, t: Tally)
    requires Summarizes(fs, t)
    ensures Summarizes(fs + [f], Record(t, f))
  {
    var fs' := fs + [f];
    assert fs'[..|fs|] == fs;
    var t' := Record(t, f);
    FirstsName(fs, f.id);
    if |Firsts(fs)| < MAX_ANNOTATIONS {
      forall g | g in fs ensures g.id in t.seen {
        assert Names(fs, g.id);
        FirstsName(fs, g.id);
      }
      UnreportedZero(fs, t.seen);
      UnreportedZero(fs', t'.seen);
      forall id ensures id in t'.seen <==> Names(t'.findings, id) {
        NamesAppend(t.findings, f, id);
      }
    } else if !Names(fs, f.id) {
      TakeNames(Firsts(fs), f.id);
    }
  }

  lemma {:induction false} TakeNames(fs: seq<Finding>, id: string)
    requires !Names(fs, id)
    ensures !Names(Take(fs), id)
  {
  }

  /** There is one summary of any findings, so chunkings of one stream report the same. */
  lemma {:induction false} SummaryUnique(fs: seq<Finding>, t: Tally, u: Tally)
    requires Summarizes(fs, t) && Summarizes(fs, u)
    ensures t == u
  {
    assert t.seen == u.seen;
  }

  /** What is reported is the summary of the findings and the lines too long to read. */
  ghost predicate Reports(found: seq<Finding>, oversized: nat, findings: seq<Finding>, omitted: nat) {
    forall t | Summarizes(found, t) :: findings == t.findings && omitted == t.omitted + oversized
  }

  lemma {:induction false} TallyReports(found: seq<Finding>, oversized: nat)
    ensures exists t :: Summarizes(found, t)
    ensures Reports(found, oversized, RecordAll(found).findings, RecordAll(found).omitted + oversized)
  {
    TallyMeaning(found);
    forall t | Summarizes(found, t) ensures t == RecordAll(found) {
      SummaryUnique(found, t, RecordAll(found));
    }
  }

  // ----- Text -----

  predicate StartsWith(s: string, x: string) { |x| <= |s| && s[..|x|] == x }

  predicate EndsWith(s: string, x: string) { |x| <= |s| && s[|s| - |x|..] == x }

  predicate Digits(s: string) { s != "" && forall c | c in s :: '0' <= c <= '9' }

  predicate Letter(c: char) { 'A' <= c <= 'Z' || 'a' <= c <= 'z' }

  predicate TestNameChar(c: char) { Letter(c) || '0' <= c <= '9' || c in "_:.-/" }

  function Split(s: string, sep: char): (parts: seq<string>)
    ensures parts != []
  {
    if s == "" then [""]
    else
      var parts := Split(s[..|s| - 1], sep);
      var c := s[|s| - 1];
      if c == sep then parts + [""] else parts[..|parts| - 1] + [parts[|parts| - 1] + [c]]
  }

  function Middle(s: string, head: string, tail: string): Option<string> {
    if StartsWith(s, head) && EndsWith(s, tail) && |head| + |tail| < |s|
    then Some(s[|head|..|s| - |tail|]) else None
  }

  // ----- Libtest -----

  datatype LibtestLine = Undecoded | RunningHeader | ResultLine | FailuresHeader | FailedTest(name: string) | OtherText

  predicate SafeTestName(name: string) {
    && name != "" && |name| <= MAX_NAME && (forall c | c in name :: TestNameChar(c))
    && forall part | part in Split(name, '/') :: part !in {"", ".", ".."}
  }

  predicate IsRunningHeader(text: string) {
    || (Middle(text, "running ", " tests").Some? && Digits(Middle(text, "running ", " tests").value))
    || (Middle(text, "running ", " test").Some? && Digits(Middle(text, "running ", " test").value))
  }

  function ClassifyLibtest(text: string): LibtestLine {
    if IsRunningHeader(text) then RunningHeader
    else if StartsWith(text, "test result:") then ResultLine
    else if text == "failures:" then FailuresHeader
    else
      var name := Middle(text, "test ", " ... FAILED");
      if name.Some? && SafeTestName(name.value) then FailedTest(name.value) else OtherText
  }

  datatype Libtest = Libtest(running: bool, details: bool, stopped: bool, tally: Tally)

  const LIBTEST: Libtest := Libtest(false, false, false, EMPTY)

  function LibtestStep(s: Libtest, line: LibtestLine): Libtest {
    if s.stopped || line.Undecoded? then s
    else if line.RunningHeader? then s.(running := true, details := false)
    else if !s.running then s
    else if line.ResultLine? then s.(running := false, details := false)
    else if line.FailuresHeader? then s.(stopped := true, details := true, running := false)
    else if s.details || line.OtherText? then s
    else s.(tally := Record(s.tally, Finding(line.name, "FAILED")))
  }

  function LibtestRun(lines: seq<LibtestLine>): Libtest {
    if lines == [] then LIBTEST else LibtestStep(LibtestRun(lines[..|lines| - 1]), lines[|lines| - 1])
  }

  /** Some earlier header opened a harness that no result line has closed. */
  ghost predicate RunningAt(lines: seq<LibtestLine>, i: nat) {
    exists r :: 0 <= r < i <= |lines| && lines[r].RunningHeader? && NoResult(lines, r, i)
  }

  ghost predicate NoResult(lines: seq<LibtestLine>, r: int, i: int) {
    forall j | r < j < i && 0 <= j < |lines| :: !lines[j].ResultLine?
  }

  /** A failure section has begun while a harness was running. */
  ghost predicate StoppedAt(lines: seq<LibtestLine>, i: nat) {
    exists j: nat :: j < i <= |lines| && lines[j].FailuresHeader? && RunningAt(lines, j)
  }

  ghost predicate Counts(lines: seq<LibtestLine>, i: nat) {
    i < |lines| && lines[i].FailedTest? && RunningAt(lines, i) && !StoppedAt(lines, i)
  }

  /** The failed tests the harness itself reported, before any captured output. */
  ghost function HarnessFailures(lines: seq<LibtestLine>, n: nat): seq<Finding>
    requires n <= |lines|
  {
    if n == 0 then []
    else HarnessFailures(lines, n - 1) + if Counts(lines, n - 1) then [Finding(lines[n - 1].name, "FAILED")] else []
  }

  lemma {:induction false} RunningStep(lines: seq<LibtestLine>, n: nat)
    requires n < |lines|
    ensures RunningAt(lines, n + 1) <==> lines[n].RunningHeader? || (RunningAt(lines, n) && !lines[n].ResultLine?)
  {
    if lines[n].RunningHeader? {
      assert NoResult(lines, n, n + 1);
    }
    if RunningAt(lines, n) && !lines[n].ResultLine? {
      var r :| 0 <= r < n && lines[r].RunningHeader? && NoResult(lines, r, n);
      assert NoResult(lines, r, n + 1);
    }
    if RunningAt(lines, n + 1) && !lines[n].RunningHeader? {
      var r :| 0 <= r < n + 1 && lines[r].RunningHeader? && NoResult(lines, r, n + 1);
      assert NoResult(lines, r, n);
    }
  }

  lemma {:induction false} StoppedStep(lines: seq<LibtestLine>, n: nat)
    requires n < |lines|
    ensures StoppedAt(lines, n + 1) <==> StoppedAt(lines, n) || (lines[n].FailuresHeader? && RunningAt(lines, n))
  {
  }

  ghost predicate LibtestMeans(lines: seq<LibtestLine>, n: nat, s: Libtest)
    requires n <= |lines|
  {
    && (s.stopped <==> StoppedAt(lines, n)) && (s.details <==> s.stopped)
    && (!s.stopped ==> (s.running <==> RunningAt(lines, n)))
    && s.tally == RecordAll(HarnessFailures(lines, n))
  }

  lemma {:induction false} LibtestStepMeans(lines: seq<LibtestLine>, n: nat, s: Libtest)
    requires n < |lines| && LibtestMeans(lines, n, s)
    ensures LibtestMeans(lines, n + 1, LibtestStep(s, lines[n]))
  {
    RunningStep(lines, n);
    StoppedStep(lines, n);
    if Counts(lines, n) {
      var fs, f := HarnessFailures(lines, n), Finding(lines[n].name, "FAILED");
      assert (fs + [f])[..|fs|] == fs;
    } else {
      assert HarnessFailures(lines, n + 1) == HarnessFailures(lines, n);
    }
  }

  lemma {:induction false} LibtestRunMeans(lines: seq<LibtestLine>, n: nat)
    requires n <= |lines|
    ensures LibtestMeans(lines, n, LibtestRun(lines[..n]))
  {
    if n > 0 {
      LibtestRunMeans(lines, n - 1);
      LibtestStepMeans(lines, n - 1, LibtestRun(lines[..n - 1]));
      assert lines[..n][..n - 1] == lines[..n - 1];
    }
  }

  /** A failure section ends all reporting: later lines, forged or not, change nothing. */
  lemma {:induction false} NothingAfterFailures(lines: seq<LibtestLine>, more: seq<LibtestLine>)
    requires LibtestRun(lines).stopped
    ensures LibtestRun(lines + more) == LibtestRun(lines)
  {
    if more == [] {
      assert lines + more == lines;
    } else {
      NothingAfterFailures(lines, more[..|more| - 1]);
      assert (lines + more)[..|lines + more| - 1] == lines + more[..|more| - 1];
    }
  }

  // ----- Python unittest -----

  datatype UnittestLine =
    | Garbled
    | Rule
    | Outcome(name: string, parent: string, status: string)
    | TestHeader(name: string, parent: string)
    | Described(status: string)
    | Plain

  datatype Unittest = Unittest(details: bool, pending: Option<(string, string)>, tally: Tally)

  const UNITTEST: Unittest := Unittest(false, None, EMPTY)

  predicate IdentStart(c: char) { Letter(c) || c == '_' }

  predicate Ident(s: string) {
    s != "" && IdentStart(s[0]) && forall c | c in s :: IdentStart(c) || '0' <= c <= '9'
  }

  predicate Dotted(s: string) { forall part | part in Split(s, '.') :: Ident(part) }

  function Identifier(name: string, parent: string): string {
    var parts := Split(parent, '.');
    if parts[|parts| - 1] == name then parent else parent + "." + name
  }

  predicate SafeIdentifier(id: string) { |id| <= MAX_NAME && Dotted(id) }

  /** A method name and, in parentheses, the class or the qualified name. */
  function MatchTestHeader(text: string): Option<(string, string)> {
    var words := Split(text, ' ');
    if |words| != 2 || !Ident(words[0]) then None
    else
      var inner := Middle(words[1], "(", ")");
      if inner.Some? && Dotted(inner.value) then Some((words[0], inner.value)) else None
  }

  function TrailingStatus(text: string): Option<string> {
    if EndsWith(text, " ... FAIL") then Some("FAIL")
    else if EndsWith(text, " ... ERROR") then Some("ERROR")
    else None
  }

  function ClassifyUnittest(text: string): UnittestLine {
    if |text| >= 10 && forall c | c in text :: c == '=' then Rule
    else
      var status := TrailingStatus(text);
      var prefix := if status.Some? then text[..|text| - |status.value| - 5] else text;
      var header := MatchTestHeader(prefix);
      if header.Some? then
        (if status.Some? then Outcome(header.value.0, header.value.1, status.value)
         else TestHeader(header.value.0, header.value.1))
      else if status.Some? && prefix != "" then Described(status.value)
      else Plain
  }

  function RecordTest(t: Tally, name: string, parent: string, status: string): Tally {
    var id := Identifier(name, parent);
    if SafeIdentifier(id) then Record(t, Finding(id, status)) else t
  }

  function UnittestStep(s: Unittest, line: UnittestLine): Unittest {
    if s.details then s
    else match line
      case Garbled => s
      case Rule => s.(details := true, pending := None)
      case Outcome(m, p, status) => s.(pending := None, tally := RecordTest(s.tally, m, p, status))
      case TestHeader(m, p) => s.(pending := Some((m, p)))
      case Described(status) =>
        if s.pending.None? then s
        else s.(pending := None, tally := RecordTest(s.tally, s.pending.value.0, s.pending.value.1, status))
      case Plain => s.(pending := None)
  }

  function UnittestRun(lines: seq<UnittestLine>): Unittest {
    if lines == [] then UNITTEST else UnittestStep(UnittestRun(lines[..|lines| - 1]), lines[|lines| - 1])
  }

  ghost predicate RuledAt(lines: seq<UnittestLine>, i: nat) { exists j :: 0 <= j < i <= |lines| && lines[j].Rule? }

  /** The last decodable line before `i`. */
  ghost function Before(lines: seq<UnittestLine>, i: nat): UnittestLine
    requires i <= |lines|
  {
    if i == 0 then Plain else if lines[i - 1].Garbled? then Before(lines, i - 1) else lines[i - 1]
  }

  ghost function TestAt(lines: seq<UnittestLine>, i: nat): Option<Finding>
    requires i < |lines|
  {
    if RuledAt(lines, i) then None
    else if lines[i].Outcome? then
      var id := Identifier(lines[i].name, lines[i].parent);
      if SafeIdentifier(id) then Some(Finding(id, lines[i].status)) else None
    else if lines[i].Described? && Before(lines, i).TestHeader? then
      var id := Identifier(Before(lines, i).name, Before(lines, i).parent);
      if SafeIdentifier(id) then Some(Finding(id, lines[i].status)) else None
    else None
  }

  /** Outcomes above the first rule: on one line, or on the line after their header. */
  ghost function RunnerFailures(lines: seq<UnittestLine>, n: nat): seq<Finding>
    requires n <= |lines|
  {
    if n == 0 then []
    else RunnerFailures(lines, n - 1) + if TestAt(lines, n - 1).Some? then [TestAt(lines, n - 1).value] else []
  }

  ghost predicate UnittestMeans(lines: seq<UnittestLine>, n: nat, s: Unittest)
    requires n <= |lines|
  {
    && (s.details <==> RuledAt(lines, n))
    && (!s.details ==>
          s.pending == match Before(lines, n) { case TestHeader(m, p) => Some((m, p)) case _ => None })
    && s.tally == RecordAll(RunnerFailures(lines, n))
  }

  lemma {:induction false} RuledStep(lines: seq<UnittestLine>, n: nat)
    requires n < |lines|
    ensures RuledAt(lines, n + 1) <==> RuledAt(lines, n) || lines[n].Rule?
  {
  }

  lemma {:induction false} RecordAllStep(fs: seq<Finding>, f: Finding)
    ensures RecordAll(fs + [f]) == Record(RecordAll(fs), f)
  {
    assert (fs + [f])[..|fs|] == fs;
  }

  /** What one line adds to the tally. */
  lemma {:induction false} UnittestTally(lines: seq<UnittestLine>, n: nat, s: Unittest)
    requires n < |lines| && UnittestMeans(lines, n, s)
    ensures UnittestStep(s, lines[n]).tally ==
            if TestAt(lines, n).Some? then Record(s.tally, TestAt(lines, n).value) else s.tally
  {
  }

  lemma {:induction false} UnittestPending(lines: seq<UnittestLine>, n: nat, s: Unittest)
    requires n < |lines| && UnittestMeans(lines, n, s)
    ensures
      var s' := UnittestStep(s, lines[n]);
      && (s'.details <==> RuledAt(lines, n + 1))
      && (!s'.details ==>
            s'.pending == match Before(lines, n + 1) { case TestHeader(m, p) => Some((m, p)) case _ => None })
  {
    RuledStep(lines, n);
  }

  lemma {:induction false} UnittestStepMeans(lines: seq<UnittestLine>, n: nat, s: Unittest)
    requires n < |lines| && UnittestMeans(lines, n, s)
    ensures UnittestMeans(lines, n + 1, UnittestStep(s, lines[n]))
  {
    UnittestPending(lines, n, s);
    UnittestTally(lines, n, s);
    var fs := RunnerFailures(lines, n);
    if TestAt(lines, n).Some? {
      RecordAllStep(fs, TestAt(lines, n).value);
    } else {
      assert RunnerFailures(lines, n + 1) == fs;
    }
  }

  lemma {:induction false} UnittestRunMeans(lines: seq<UnittestLine>, n: nat)
    requires n <= |lines|
    ensures UnittestMeans(lines, n, UnittestRun(lines[..n]))
  {
    if n > 0 {
      UnittestRunMeans(lines, n - 1);
      UnittestStepMeans(lines, n - 1, UnittestRun(lines[..n - 1]));
      assert lines[..n][..n - 1] == lines[..n - 1];
    }
  }

  // ----- Whole streams -----

  /** UTF-8 decoding of one line, if it decodes. */
  type Decoder = Line -> Option<string>

  function LibtestLineOf(decode: Decoder, line: Line): LibtestLine {
    if decode(line).Some? then ClassifyLibtest(decode(line).value) else Undecoded
  }

  function LibtestLines(decode: Decoder, lines: seq<Line>): (r: seq<LibtestLine>)
    ensures |r| == |lines|
  {
    seq(|lines|, i requires 0 <= i < |lines| => LibtestLineOf(decode, lines[i]))
  }

  function UnittestLineOf(decode: Decoder, line: Line): UnittestLine {
    if decode(line).Some? then ClassifyUnittest(decode(line).value) else Garbled
  }

  function UnittestLines(decode: Decoder, lines: seq<Line>): (r: seq<UnittestLine>)
    ensures |r| == |lines|
  {
    seq(|lines|, i requires 0 <= i < |lines| => UnittestLineOf(decode, lines[i]))
  }

  lemma {:induction false} LibtestFold(decode: Decoder, step: (Libtest, Line) -> Libtest, lines: seq<Line>)
    requires forall s, l :: step(s, l) == LibtestStep(s, LibtestLineOf(decode, l))
    ensures Fold(step, LIBTEST, lines) == LibtestRun(LibtestLines(decode, lines))
  {
    if lines != [] {
      LibtestFold(decode, step, lines[..|lines| - 1]);
      assert LibtestLines(decode, lines)[..|lines| - 1] == LibtestLines(decode, lines[..|lines| - 1]);
    }
  }

  lemma {:induction false} UnittestFold(decode: Decoder, step: (Unittest, Line) -> Unittest, lines: seq<Line>)
    requires forall s, l :: step(s, l) == UnittestStep(s, UnittestLineOf(decode, l))
    ensures Fold(step, UNITTEST, lines) == UnittestRun(UnittestLines(decode, lines))
  {
    if lines != [] {
      UnittestFold(decode, step, lines[..|lines| - 1]);
      assert UnittestLines(decode, lines)[..|lines| - 1] == UnittestLines(decode, lines[..|lines| - 1]);
    }
  }

  /** The findings of a libtest stream do not depend on its chunks. */
  method ParseLibtest(decode: Decoder, chunks: seq<seq<byte>>) returns (findings: seq<Finding>, omitted: nat)
    ensures
      var stream := Joined(chunks);
      var lines := LibtestLines(decode, WholeLines(stream));
      var found := HarnessFailures(lines, |lines|);
      Reports(found, WholeOversized(stream), findings, omitted) && exists t :: Summarizes(found, t)
  {
    var step := (s: Libtest, l: Line) => LibtestStep(s, LibtestLineOf(decode, l));
    var s, oversized := ParseStream(step, LIBTEST, chunks);
    ghost var whole := WholeLines(Joined(chunks));
    ghost var lines := LibtestLines(decode, whole);
    LibtestFold(decode, step, whole);
    LibtestRunMeans(lines, |lines|);
    assert lines[..|lines|] == lines;
    TallyReports(HarnessFailures(lines, |lines|), oversized);
    return s.tally.findings, s.tally.omitted + oversized;
  }

  method ParseUnittest(decode: Decoder, chunks: seq<seq<byte>>) returns (findings: seq<Finding>, omitted: nat)
    ensures
      var stream := Joined(chunks);
      var lines := UnittestLines(decode, WholeLines(stream));
      var found := RunnerFailures(lines, |lines|);
      Reports(found, WholeOversized(stream), findings, omitted) && exists t :: Summarizes(found, t)
  {
    var step := (s: Unittest, l: Line) => UnittestStep(s, UnittestLineOf(decode, l));
    var s, oversized := ParseStream(step, UNITTEST, chunks);
    ghost var whole := WholeLines(Joined(chunks));
    ghost var lines := UnittestLines(decode, whole);
    UnittestFold(decode, step, whole);
    UnittestRunMeans(lines, |lines|);
    assert lines[..|lines|] == lines;
    TallyReports(RunnerFailures(lines, |lines|), oversized);
    return s.tally.findings, s.tally.omitted + oversized;
  }
}
