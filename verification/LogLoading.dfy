/** Loading a page of a run's logs (`load_log_lines` in sematic/log_reader.py). */
module LogLoading {
  import opened FutureStates
  import opened LogStreams
  import opened InlineLogs
  import opened LogReader
  import opened LogPages

  const LOCAL_RUNNER_MESSAGE :=
    "UI logs are only available for runs that (a) are executed using the CloudRunner and "
    + "(b) are using the resolver in non-detached mode OR have standalone=True."

  /** What is known of a run and its logs at the time of a request. */
  datatype RunLogs = RunLogs(
    notStarted: bool,
    localRunner: bool,
    state: FutureState,
    isInline: bool,
    runFiles: seq<LogFile>,
    runnerFiles: seq<LogFile>)
  {
    /** The directory that the run's lines are in. */
    function Files(): seq<LogFile> {
      if isInline then runnerFiles else runFiles
    }

    predicate StillRunning() {
      !(state.IsTerminal() || state == RAN)
    }

    /** There is a directory to read from. */
    predicate HasLogs() {
      !notStarted && state != CREATED && !(isInline && localRunner) && Files() != []
    }
  }

  datatype Request = Request(
    runId: string, forward: Option<Cursor>, backward: Option<Cursor>, maxLines: int, filters: seq<string>,
    reverse: bool, info: Option<string>)
  {
    function ForwardCursor(): Cursor {
      if forward.Some? then forward.value else NothingFound(filters, runId, false)
    }

    function BackwardCursor(): Cursor {
      if backward.Some? then backward.value else NothingFound(filters, runId, true)
    }

    /** The cursor of the direction asked for. */
    function Start(): Cursor {
      (if reverse then BackwardCursor() else ForwardCursor()).(reverse := reverse)
    }

    predicate IsInitial() {
      forward.None? && backward.None?
    }

    /** A cursor of the same run with the same filters. */
    predicate Fits(c: Cursor) {
      c.runId == runId && (set f | f in c.filters) == (set f | f in filters)
    }

    function Asks(run: RunLogs): Query {
      var c := Start();
      Query(run.StillRunning(), c.hadLines, maxLines, filters, runId, c.file, c.index, info, reverse)
    }
  }

  datatype Loaded = Loaded(result: LogLineResult) | InvalidCursor | UnknownLogFile

  function NoLines(forward: Option<Cursor>, info: string): LogLineResult {
    LogLineResult(forward.Some?, false, [], [], forward, None, Some(info))
  }

  /** On the first request, one of the answers is known without looking. */
  function Initially(run: RunLogs, a: Request, r: LogLineResult): LogLineResult {
    if !a.IsInitial() then r
    else if a.reverse then r.(canContinueForward := !run.state.IsTerminal())
    else r.(canContinueBackward := false)
  }

  /** The answer when there are no lines to read from, or the cursor cannot be used. */
  function Unread(run: RunLogs, a: Request): Loaded {
    if !a.Fits(a.ForwardCursor()) || !a.Fits(a.BackwardCursor()) then InvalidCursor
    else if run.notStarted then Loaded(NoLines(Some(a.ForwardCursor()), "Resolution has not started yet."))
    else if run.state == CREATED then Loaded(NoLines(Some(a.ForwardCursor()), "The run has not yet started executing."))
    else if run.isInline && run.localRunner then
      Loaded(Initially(run, a, NoLines(None, LOCAL_RUNNER_MESSAGE)))
    else if run.Files() == [] then
      var again := if run.StillRunning() then Some(NothingFound(a.filters, a.runId, false)) else None;
      Loaded(Initially(run, a,
        NoLines(again, if run.isInline then "Runner logs are missing" else "No log files found")))
    else UnknownLogFile
  }

  /** The request can be answered with a page. */
  ghost predicate Answerable(run: RunLogs, a: Request) {
    && a.Fits(a.ForwardCursor()) && a.Fits(a.BackwardCursor()) && run.HasLogs()
    && (a.Start().file.Some? ==> HasFile(run.Files(), a.Start().file.value))
  }

  /** The cursor that a request is to go on from, if it comes with one. */
  function Given(a: Request): Option<Cursor> {
    if a.reverse then a.backward else a.forward
  }

  /** A cursor of another run, or one with other filters. */
  ghost predicate Foreign(a: Request, cursor: Option<Cursor>) {
    cursor.Some? && (cursor.value.runId != a.runId || exists f :: (f in cursor.value.filters) != (f in a.filters))
  }

  /** The run has lines to read from, and the cursor's file is not one of them. */
  ghost predicate FileIsGone(run: RunLogs, cursor: Option<Cursor>) {
    && !run.notStarted && run.state != CREATED && !(run.isInline && run.localRunner)
    && cursor.Some? && cursor.value.file.Some?
    && var files := if run.isInline then run.runnerFiles else run.runFiles;
       files != [] && forall f | f in files :: f.stamp != cursor.value.file.value
  }

  /** When a request raises: a cursor of either direction is of another run or has other filters, or
      the file that the cursor of the direction asked for points to is not there. */
  lemma RaisesIff(run: RunLogs, a: Request, r: Loaded)
    requires !Answerable(run, a) ==> r == Unread(run, a)
    requires Answerable(run, a) ==> r.Loaded?
    ensures r.InvalidCursor? <==> Foreign(a, a.forward) || Foreign(a, a.backward)
    ensures r.UnknownLogFile? <==> !r.InvalidCursor? && FileIsGone(run, Given(a))
  {
    FitsIff(a, a.ForwardCursor());
    FitsIff(a, a.BackwardCursor());
  }

  lemma FitsIff(a: Request, c: Cursor)
    ensures a.Fits(c) <==> !Foreign(a, Some(c))
  {
    var theirs, ours := set f | f in c.filters, set f | f in a.filters;
    if theirs == ours {
      forall f ensures (f in c.filters) == (f in a.filters) {
        assert f in theirs <==> f in c.filters;
      }
    } else {
      var f :| (f in theirs) != (f in ours);
      assert (f in c.filters) != (f in a.filters);
    }
  }

  /** The stream that a page is taken from. */
  function StreamOf(run: RunLogs, a: Request): seq<LogLine> {
    Visible(AllLines(SortFiles(run.Files())), run.isInline, a.runId,
            PlaceOf(SortFiles(run.Files()), a.Start()), a.Start().hadLines, a.reverse)
  }

  /** A page of the stream, with the flags that are known on a first request. */
  ghost predicate IsAnswer(run: RunLogs, a: Request, expired: nat -> bool, r: LogLineResult) {
    exists page :: IsPage(a.Asks(run), StreamOf(run, a), expired, page) && r == Initially(run, a, page)
  }

  /** A run with its logs. The logs of a run that took over another one's result are those of
      the original run. */
  datatype KnownRun = KnownRun(original: Option<string>, logs: RunLogs)

  /** The request for the run that the logs are taken from. */
  function Sourced(runs: string -> KnownRun, a: Request): Request {
    match runs(a.runId).original
    case None => a.(info := None)
    case Some(id) => a.(runId := id, info := Some("Run logs sourced from original run " + id + "."))
  }

  /** `load_log_lines`: the answer for the run that the logs are taken from. */
  method LoadLogLines(runs: string -> KnownRun, a: Request, expired: nat -> bool) returns (r: Loaded)
    requires Directory(runs(Sourced(runs, a).runId).logs.Files())
    ensures var b := Sourced(runs, a);
            var run := runs(b.runId).logs;
            && (!Answerable(run, b) ==> r == Unread(run, b))
            && (Answerable(run, b) ==> r.Loaded? && IsAnswer(run, b, expired, r.result))
            && (r.InvalidCursor? <==> Foreign(b, b.forward) || Foreign(b, b.backward))
            && (r.UnknownLogFile? <==> !r.InvalidCursor? && FileIsGone(run, Given(b)))
            && (r.Loaded? && r.result.lines != [] ==> r.result.info == b.info)
  {
    var runId, info := a.runId, None;
    var known := runs(runId);
    if known.original.Some? {
      runId := known.original.value;
      known := runs(runId);
      info := Some("Run logs sourced from original run " + runId + ".");
    }
    assert a.(runId := runId, info := info) == Sourced(runs, a);
    r := LoadRunLogs(known.logs, a.(runId := runId, info := info), expired);
    RaisesIff(known.logs, a.(runId := runId, info := info), r);
    if r.Loaded? && r.result.lines != [] {
      AnswerInfo(known.logs, a.(runId := runId, info := info), expired, r.result);
    }
  }

  method LoadRunLogs(run: RunLogs, a: Request, expired: nat -> bool) returns (r: Loaded)
    requires Directory(run.Files())
    ensures !Answerable(run, a) ==> r == Unread(run, a)
    ensures Answerable(run, a) ==> r.Loaded? && IsAnswer(run, a, expired, r.result)
  {
    if !a.Fits(a.ForwardCursor()) || !a.Fits(a.BackwardCursor()) {
      return InvalidCursor;
    }
    if run.notStarted {
      return Loaded(NoLines(Some(a.ForwardCursor()), "Resolution has not started yet."));
    }
    if run.state == CREATED {
      return Loaded(NoLines(Some(a.ForwardCursor()), "The run has not yet started executing."));
    }
    if run.isInline && run.localRunner {
      r := Loaded(Initially(run, a, NoLines(None, LOCAL_RUNNER_MESSAGE)));
      return;
    }
    if run.Files() == [] {
      var again := if run.StillRunning() then Some(NothingFound(a.filters, a.runId, false)) else None;
      r := Loaded(Initially(run, a,
          NoLines(again, if run.isInline then "Runner logs are missing" else "No log files found")));
      return;
    }
    r := LoadPage(run, a, expired);
  }

  /** `_load_inline_logs` and `_load_non_inline_logs`, where there are files. */
  method LoadPage(run: RunLogs, a: Request, expired: nat -> bool) returns (r: Loaded)
    requires Directory(run.Files()) && a.Fits(a.ForwardCursor()) && a.Fits(a.BackwardCursor()) && run.HasLogs()
    ensures r.UnknownLogFile? <==> !Answerable(run, a)
    ensures Answerable(run, a) ==> r.Loaded? && IsAnswer(run, a, expired, r.result)
  {
    var c := a.Start();
    var streamed := LineStreamFromLogDirectory(run.Files(), c.file, Some(c.index), a.reverse);
    if streamed.UnknownFile? {
      return UnknownLogFile;
    }
    var stream := streamed.lines;
    if run.isInline {
      stream := FilterForInline(stream, a.runId, c.hadLines, a.reverse);
    }
    var page := GetLogLinesFromLineStream(stream, a.Asks(run), expired);
    r := Loaded(Initially(run, a, page));
  }

  /** A page with lines comes with the message about the run the logs are taken from. */
  lemma AnswerInfo(run: RunLogs, a: Request, expired: nat -> bool, r: LogLineResult)
    requires IsAnswer(run, a, expired, r) && r.lines != []
    ensures r.info == a.info
  {
    var page :| IsPage(a.Asks(run), StreamOf(run, a), expired, page) && r == Initially(run, a, page);
  }

  /** The run's lines in a directory. */
  ghost predicate Views(run: RunLogs, runId: string, v: View) {
    v.Valid() && v.files == SortFiles(run.Files()) && v.inline == run.isInline && v.runId == runId
  }

  /** An answered request is a page of the run's lines. */
  lemma AnswerIsPage(run: RunLogs, a: Request, v: View, taken: seq<LogLine>, timedOut: bool)
    requires Views(run, a.runId, v) && Answerable(run, a) && Takes(a.Asks(run), StreamOf(run, a), taken, timedOut)
    requires CursorOk(v, a.Start()) && Readable(v, a.Start()) && a.maxLines >= 1
    ensures var r := ResultOf(a.Asks(run), taken, timedOut);
            PageOf(v, a.Start(), a.Asks(run), taken, timedOut, r)
            && TokensOk(v, r) && Splits(v, a.filters, r) && GoesOn(v, a.Start(), a.filters, r)
  {
    PageSplits(v, a.Start(), a.Asks(run), taken, timedOut, ResultOf(a.Asks(run), taken, timedOut));
  }

  /** What an answer was made of: it has lines if and only if there are matching ones. */
  lemma AnswerTook(run: RunLogs, a: Request, expired: nat -> bool, r: LogLineResult)
    returns (taken: seq<LogLine>, timedOut: bool)
    requires IsAnswer(run, a, expired, r)
    ensures r == Initially(run, a, ResultOf(a.Asks(run), taken, timedOut))
    ensures taken == [] <==> Matching(StreamOf(run, a), a.filters) == []
    ensures |taken| == |r.lines| && (timedOut <==> taken != [] && expired(|taken|))
  {
    var page :| IsPage(a.Asks(run), StreamOf(run, a), expired, page) && r == Initially(run, a, page);
    taken, timedOut :| Took(a.Asks(run), StreamOf(run, a), expired, taken, timedOut)
                       && page == ResultOf(a.Asks(run), taken, timedOut);
  }

  /** What a request that does not raise is answered with. */
  ghost predicate Answers(run: RunLogs, a: Request, expired: nat -> bool, r: LogLineResult) {
    if Answerable(run, a) then IsAnswer(run, a, expired, r) else Unread(run, a) == Loaded(r)
  }

  /** No cursor is given where there is nothing to continue with: the documentation of the
      result promises this. It holds of an answer unless it is the answer to a first request, there
      are matching lines, and either they are read forwards or the run cannot go on. */
  lemma FlagsMatchTokensIff(run: RunLogs, a: Request, expired: nat -> bool, r: LogLineResult)
    requires Answers(run, a, expired, r)
    ensures (!r.canContinueForward ==> r.forward.None?) && (!r.canContinueBackward ==> r.backward.None?) <==>
            !(Answerable(run, a) && a.IsInitial() && Matching(StreamOf(run, a), a.filters) != []
              && (a.reverse ==> run.state.IsTerminal()))
  {
    if Answerable(run, a) {
      var taken, timedOut := AnswerTook(run, a, expired, r);
    }
  }

  /** The run has started, and there is nowhere to read its lines from, now or later. */
  predicate NowhereToRead(run: RunLogs) {
    && !run.notStarted && run.state != CREATED
    && ((run.isInline && run.localRunner) || (run.Files() == [] && !run.StillRunning()))
  }

  /** The converse: an answer that says one can go on forwards has no cursor to go on with exactly
      if it is the answer to a first request, read backwards, that finds no line, and the run is
      not in a terminal state. Backwards there is always a cursor. */
  lemma FlagWithoutTokenIff(run: RunLogs, a: Request, expired: nat -> bool, r: LogLineResult)
    requires Answers(run, a, expired, r)
    ensures r.canContinueForward && r.forward.None? <==>
            a.IsInitial() && a.reverse && !run.state.IsTerminal()
            && (if Answerable(run, a) then Matching(StreamOf(run, a), a.filters) == [] else NowhereToRead(run))
    ensures r.canContinueBackward ==> r.backward.Some?
  {
    if Answerable(run, a) {
      var taken, timedOut := AnswerTook(run, a, expired, r);
    }
  }

  /** A cursor to go on with: it is for the same run and the same filters, it points to a file, and
      it remembers whether a line was shown, now or before. */
  ghost predicate Continues(a: Request, lines: seq<string>, cursor: Cursor, reverse: bool) {
    && cursor.runId == a.runId && cursor.filters == a.filters && cursor.reverse == reverse && cursor.file.Some?
    && (cursor.hadLines <==> lines != [] || (Given(a).Some? && Given(a).value.hadLines))
  }

  /** The cursors that the page made of some lines has. */
  lemma ResultCursors(q: Query, taken: seq<LogLine>, timedOut: bool)
    ensures var r := ResultOf(q, taken, timedOut);
            var cut := |taken| == q.maxLines || timedOut;
            && |r.lines| == |taken|
            && (r.forward.Some? <==>
                  if taken == [] then q.cursorFile.Some? && (q.reverse || q.stillRunning)
                  else q.reverse || cut || q.stillRunning)
            && (r.backward.Some? <==> if taken == [] then q.cursorFile.Some? && !q.reverse else !q.reverse || cut)
            && (r.forward.Some? ==> IsCursorOf(q, taken, r.forward.value, false))
            && (r.backward.Some? ==> IsCursorOf(q, taken, r.backward.value, true))
  {
  }

  ghost predicate IsCursorOf(q: Query, taken: seq<LogLine>, c: Cursor, reverse: bool) {
    && c.runId == q.runId && c.filters == q.filters && c.reverse == reverse && c.file.Some?
    && (c.hadLines <==> taken != [] || q.hadLines)
  }

  /** When an answer has cursors: forwards, a page that is not full and was not cut by the clock has
      one only while the run is executing or is to be retried; a RAN run has no more lines. Where
      nothing was found, a page never goes on further than the request did. */
  lemma CursorsIff(run: RunLogs, a: Request, expired: nat -> bool, r: LogLineResult)
    requires Answerable(run, a) && IsAnswer(run, a, expired, r)
    ensures var cut := |r.lines| == a.maxLines || expired(|r.lines|);
            var going := run.state in {SCHEDULED, RETRYING};
            var pointed := Given(a).Some? && Given(a).value.file.Some?;
            && (r.forward.Some? <==>
                  if r.lines == [] then pointed && (a.reverse || going) else a.reverse || cut || going)
            && (r.backward.Some? <==> if r.lines == [] then pointed && !a.reverse else !a.reverse || cut)
  {
    var taken, timedOut := AnswerTook(run, a, expired, r);
    ResultCursors(a.Asks(run), taken, timedOut);
  }

  /** What the cursors of an answer are like. */
  lemma CursorsContinue(run: RunLogs, a: Request, expired: nat -> bool, r: LogLineResult)
    requires IsAnswer(run, a, expired, r)
    ensures r.forward.Some? ==> Continues(a, r.lines, r.forward.value, false)
    ensures r.backward.Some? ==> Continues(a, r.lines, r.backward.value, true)
  {
    var taken, timedOut := AnswerTook(run, a, expired, r);
    ResultCursors(a.Asks(run), taken, timedOut);
  }

  /** While the run goes on, an answer has no cursor to try again with if and only if the request
      came with none and no line matches yet. */
  lemma TryAgainIff(run: RunLogs, a: Request, expired: nat -> bool, r: LogLineResult)
    requires Answerable(run, a) && IsAnswer(run, a, expired, r) && run.StillRunning()
    ensures r.forward.None? <==> a.Start().file.None? && Matching(StreamOf(run, a), a.filters) == []
  {
    var taken, timedOut := AnswerTook(run, a, expired, r);
  }

  /** Whether a line matches can be told from the run's lines: one does exactly if there is one
      ahead of the cursor, which on a first request is any of them. */
  lemma MatchesAheadIff(run: RunLogs, a: Request, v: View)
    requires Views(run, a.runId, v) && CursorOk(v, a.Start()) && Readable(v, a.Start())
    ensures v.lo <= v.hi <= |v.All()|
    ensures Matching(StreamOf(run, a), a.filters) == [] <==>
            var (from, to) := Ahead(v, a.Start()); v.Matches(from, to, a.filters) == []
    ensures a.Start().file.None? ==> Ahead(v, a.Start()) == (v.lo, v.hi)
  {
    StreamIs(v, a.Start(), a.filters);
    CursorPlace(v, a.Start());
    var (from, to) := Ahead(v, a.Start());
    assert |v.Matches(from, to, a.filters)| == |MatchesIn(v.All(), from, to, a.filters)|;
  }

  function FirstRequest(filters: seq<string>, reverse: bool): Request {
    Request("r", None, None, 10, filters, reverse, None)
  }

  const ONE_LINE := RunLogs(false, false, SCHEDULED, false, [LogFile(1600000000000, ["hello"])], [])

  lemma OneLine(filters: seq<string>, reverse: bool)
    ensures var a := FirstRequest(filters, reverse);
            Answerable(ONE_LINE, a) && |StreamOf(ONE_LINE, a)| == 1 && StreamOf(ONE_LINE, a)[0].text == "hello"
  {
    var file := LogFile(1600000000000, ["hello"]);
    assert SortFiles([file]) == InsertFile(file, SortFiles([])) == [file];
    assert AllLines([file]) == Lines(file) + AllLines([]);
    assert [file][..0] == [];
  }

  /** The first page of a run's lines says that one cannot go back, and has a cursor for it. */
  lemma FlagsCanDiffer(expired: nat -> bool, r: LogLineResult)
    requires IsAnswer(ONE_LINE, FirstRequest([], false), expired, r)
    ensures Answerable(ONE_LINE, FirstRequest([], false)) && !r.canContinueBackward && r.backward.Some?
  {
    OneLine([], false);
    assert PassesFilter(StreamOf(ONE_LINE, FirstRequest([], false))[0], []);
    FlagsMatchTokensIff(ONE_LINE, FirstRequest([], false), expired, r);
  }

  /** A run that goes on has no line yet that passes the filter. Its first page, whichever way it
      is read, has no cursor to try again with, and if it is read backwards it says one can. */
  lemma TryAgainCanBeMissing(reverse: bool, expired: nat -> bool, r: LogLineResult)
    requires IsAnswer(ONE_LINE, FirstRequest(["good morning"], reverse), expired, r)
    ensures Answerable(ONE_LINE, FirstRequest(["good morning"], reverse)) && ONE_LINE.StillRunning()
    ensures r.forward.None? && (reverse ==> r.canContinueForward)
  {
    var a := FirstRequest(["good morning"], reverse);
    OneLine(a.filters, reverse);
    ShortLine("hello", "good morning");
    var line := StreamOf(ONE_LINE, a)[0];
    assert "good morning" in a.filters && !PassesFilter(line, a.filters);
    TryAgainIff(ONE_LINE, a, expired, r);
    FlagWithoutTokenIff(ONE_LINE, a, expired, r);
  }
}
