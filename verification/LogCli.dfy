/** Following the logs of a run while it goes on (sematic/cli/logs.py). */
module LogCli {
  import opened FutureStates
  import opened LogStreams
  import opened InlineLogs
  import opened LogReader
  import opened LogPages
  import opened LogLoading

  const DEFAULT_LOG_LOAD_MAX_SIZE := 1000

  // ----------------------------------------------------------------- logs grow

  /** What reading from the start shows: of an inline run, its first attempt. */
  ghost predicate FromStart(v: View) {
    v.Valid() && Shown(v.All(), v.inline, v.runId, v.lo, v.hi, false)
  }

  /** Later logs of the same run: files are added, and the rest stays. */
  ghost predicate Grows(v: View, w: View) {
    && FromStart(v) && FromStart(w) && v.inline == w.inline && v.runId == w.runId
    && v.files <= w.files
  }

  lemma GrownLines(v: View, w: View)
    requires Grows(v, w)
    ensures v.All() <= w.All() && w.files == v.files + w.files[|v.files|..]
  {
    AllLinesAppend(v.files, w.files[|v.files|..]);
    assert w.files == v.files + w.files[|v.files|..];
  }

  /** The view has the lines of the run, or at least knows where they begin. */
  ghost predicate Begun(v: View) {
    !v.inline || Attempt(v.All(), v.runId, v.lo, v.hi)
  }

  /** The run's lines stay where they are; they begin later only if none was there. */
  lemma WindowGrows(v: View, w: View)
    requires Grows(v, w)
    ensures v.hi <= |v.All()| <= |w.All()|
    ensures v.lo < v.hi ==> Begun(v)
    ensures Begun(v) ==> Begun(w) && v.lo == w.lo && v.hi <= w.hi
  {
    GrownLines(v, w);
    if v.inline && Begun(v) {
      AttemptGrows(v, w);
    }
  }

  lemma AttemptGrows(v: View, w: View)
    requires Grows(v, w) && v.inline && Attempt(v.All(), v.runId, v.lo, v.hi) && v.All() <= w.All()
    ensures Attempt(w.All(), w.runId, w.lo, w.hi) && v.lo == w.lo && v.hi <= w.hi
  {
    assert IsStart(w.All(), w.runId, v.lo - 1);
    assert IsMarked(w.All(), w.runId, v.lo - 1);
    if w.lo < v.lo {
      assert IsStart(v.All(), v.runId, w.lo - 1);
    }
    if w.hi < v.hi {
      assert IsMarked(v.All(), v.runId, w.hi);
    }
  }

  lemma CursorStays(v: View, w: View, c: Cursor)
    requires Grows(v, w) && CursorOk(v, c) && c.file.Some?
    ensures CursorOk(w, c) && PlaceOf(w.files, c) == PlaceOf(v.files, c)
  {
    GrownLines(v, w);
    WindowGrows(v, w);
    OffsetStays(v.files, w.files[|v.files|..], c.file.value, c.index);
  }

  lemma {:induction false} SameMatches(a: seq<LogLine>, b: seq<LogLine>, from: nat, to: nat, filters: seq<string>)
    requires a <= b && from <= to <= |a|
    ensures MatchesIn(a, from, to, filters) == MatchesIn(b, from, to, filters)
    decreases Gap(from, to)
  {
    if from < to {
      SameMatches(a, b, from + 1, to, filters);
    }
  }

  lemma {:induction false} Unfiltered(all: seq<LogLine>, from: nat, to: nat)
    requires from <= to <= |all|
    ensures |MatchesIn(all, from, to, [])| == to - from
    decreases Gap(from, to)
  {
    if from < to {
      Unfiltered(all, from + 1, to);
      assert PassesFilter(all[from], []);
    }
  }

  /** All lines of the run. */
  function Everything(w: View): seq<string>
    requires w.lo <= w.hi <= |w.All()|
  {
    w.Matches(w.lo, w.hi, [])
  }

  /** How far a reader with this cursor has come. */
  function Reached(v: View, c: Option<Cursor>): nat
    requires v.lo <= v.hi
  {
    if c.Some? then Max(v.lo, Min(v.hi, PlaceOf(v.files, c.value))) else v.lo
  }

  /** The lines before a cursor. */
  function Before(v: View, c: Option<Cursor>): seq<string>
    requires v.lo <= v.hi <= |v.All()|
  {
    v.Matches(v.lo, Reached(v, c), [])
  }

  /** A cursor that an earlier page gave. */
  ghost predicate CursorGood(v: View, c: Option<Cursor>) {
    c.Some? ==>
      CursorOk(v, c.value) && c.value.file.Some? && !c.value.reverse && c.value.filters == []
        && c.value.runId == v.runId
  }

  function Asking(runId: string, c: Option<Cursor>): Request {
    Request(runId, c, None, DEFAULT_LOG_LOAD_MAX_SIZE, [], false, None)
  }

  /** What was read stays what it was when files are added. */
  lemma BeforeStays(v: View, w: View, c: Option<Cursor>)
    requires Grows(v, w) && CursorGood(v, c)
    ensures CursorGood(w, c) && Before(w, c) == Before(v, c)
  {
    if c.Some? {
      CursorStays(v, w, c.value);
      WindowGrows(v, w);
      GrownLines(v, w);
      SameMatches(v.All(), w.All(), v.lo, Reached(v, c), []);
    }
  }

  /** What can be read at one time is what can be read first of the final logs, and it is all of
      them if and only if the run has no line after it. */
  lemma EverythingGrows(v: View, w: View)
    requires Grows(v, w)
    ensures Everything(v) <= Everything(w)
    ensures Everything(v) == Everything(w) <==> w.hi - w.lo == v.hi - v.lo
  {
    WindowGrows(v, w);
    GrownLines(v, w);
    Unfiltered(v.All(), v.lo, v.hi);
    Unfiltered(w.All(), w.lo, w.hi);
    if v.lo < v.hi {
      SameMatches(v.All(), w.All(), v.lo, v.hi, []);
      MatchesSplit(w, w.lo, v.hi, w.hi, []);
    }
  }

  lemma BeforeSize(v: View, c: Option<Cursor>)
    requires v.lo <= v.hi <= |v.All()|
    ensures |Before(v, c)| == Reached(v, c) - v.lo && |Everything(v)| == v.hi - v.lo
    ensures Before(v, c) <= Everything(v)
  {
    Unfiltered(v.All(), v.lo, Reached(v, c));
    Unfiltered(v.All(), v.lo, v.hi);
    MatchesSplit(v, v.lo, Reached(v, c), v.hi, []);
  }

  // --------------------------------------------------------------- one request

  lemma FreshPlace(v: View, runId: string)
    requires FromStart(v) && runId == v.runId
    ensures PlaceOf(v.files, NothingFound([], runId, false)) == 0
  {
    CursorPlace(v, NothingFound([], runId, false));
  }

  lemma AheadIs(v: View, c: Option<Cursor>)
    requires FromStart(v) && CursorGood(v, c)
    ensures Ahead(v, Asking(v.runId, c).Start()) == (Reached(v, c), v.hi)
  {
    if c.None? {
      FreshPlace(v, v.runId);
    }
  }

  /** The lines of a page follow those before the cursor it was read with. */
  lemma PageAdds(v: View, c: Option<Cursor>, r: LogLineResult)
    requires FromStart(v) && CursorGood(v, c) && GoesOn(v, Asking(v.runId, c).Start(), [], r)
    ensures Reached(v, c) <= ForwardStart(v, r) <= v.hi
    ensures v.Matches(v.lo, ForwardStart(v, r), []) == Before(v, c) + r.lines
  {
    AheadIs(v, c);
    var from, next := Reached(v, c), ForwardStart(v, r);
    MatchesSplit(v, from, next, v.hi, []);
    assert v.Matches(from, next, []) == r.lines by {
      SamePrefix(v.Matches(from, next, []), r.lines, v.Matches(next, v.hi, []));
    }
    MatchesSplit(v, v.lo, from, next, []);
  }

  lemma SamePrefix(a: seq<string>, b: seq<string>, c: seq<string>)
    requires a + c == b + c
    ensures a == b
  {
    assert |a| == |b|;
    assert a == (a + c)[..|a|] == (b + c)[..|b|] == b;
  }

  // ---------------------------------------------------------------- the command

  /** The run and its logs at each request, as time goes by. The run ends at some time; lines may
      be added to its logs even later, as the last upload follows the end of the run. */
  ghost predicate Followed(worlds: seq<RunLogs>, runId: string, views: seq<View>) {
    && worlds != [] && |views| == |worlds|
    && (forall i {:trigger Snapshot(worlds[i], runId, views[i])} | 0 <= i < |worlds| ::
         Snapshot(worlds[i], runId, views[i]))
    && (forall i, j {:trigger Grows(views[i], views[j])} | 0 <= i <= j < |worlds| :: Grows(views[i], views[j]))
    && (forall i {:trigger SameRunner(worlds[i], worlds[0])} | 0 <= i < |worlds| :: SameRunner(worlds[i], worlds[0]))
    && HasEnded(worlds[|worlds| - 1])
  }

  ghost predicate SameRunner(a: RunLogs, b: RunLogs) {
    a.isInline == b.isInline && a.localRunner == b.localRunner
  }

  ghost predicate Snapshot(run: RunLogs, runId: string, v: View) {
    Directory(run.Files()) && Views(run, runId, v) && FromStart(v)
  }

  predicate HasEnded(run: RunLogs) {
    !run.StillRunning() && !run.notStarted
  }

  /** The answer will be to wait and to try again. */
  predicate Waits(run: RunLogs) {
    || run.notStarted || run.state == CREATED
    || (!(run.isInline && run.localRunner) && run.Files() == [] && run.StillRunning())
  }

  /** There is no line of the run to be read. */
  predicate NothingThere(run: RunLogs, v: View) {
    !run.HasLogs() || v.lo == v.hi
  }

  /** At the first request that is not answered with waiting, there is no line of the run. */
  ghost predicate GivesUp(worlds: seq<RunLogs>, views: seq<View>)
    requires |views| == |worlds|
  {
    exists i {:trigger FirstAnswer(worlds, i)} ::
      0 <= i < |worlds| && FirstAnswer(worlds, i) && NothingThere(worlds[i], views[i])
  }

  ghost predicate FirstAnswer(worlds: seq<RunLogs>, i: nat) {
    i < |worlds| && !Waits(worlds[i]) && forall j | 0 <= j < i :: Waits(worlds[j])
  }

  /** The request did not get all lines that there were. */
  ghost predicate CutShort(expired: nat -> bool, r: LogLineResult) {
    |r.lines| == DEFAULT_LOG_LOAD_MAX_SIZE || exists k: nat :: expired(k)
  }

  /** What a request adds to the lines `before` its cursor. */
  ghost predicate Adds(run: RunLogs, v: View, c: Option<Cursor>, expired: nat -> bool, r: LogLineResult)
    requires v.lo <= v.hi <= |v.All()|
  {
    && (r.lines != [] ==> CursorGood(v, r.forward) && (r.canContinueForward <==> r.forward.Some?))
    && (r.lines != [] && r.forward.Some? ==> Before(v, r.forward) == Before(v, c) + r.lines)
    && (r.lines != [] && r.forward.None? ==> Everything(v) == Before(v, c) + r.lines && HasEnded(run))
    && (r.lines != [] && r.forward.Some? && HasEnded(run) ==> CutShort(expired, r))
    && (r.lines == [] && c.Some? ==> Before(v, c) == Everything(v) || Waits(run))
    && (r.lines == [] && c.Some? ==> (r.canContinueForward <==> !HasEnded(run)))
    && (c.None? ==> (r.lines != [] <==> !Waits(run) && !NothingThere(run, v)))
    && (c.None? && r.lines == [] ==> (r.canContinueForward <==> Waits(run)))
  }

  lemma CursorFits(run: RunLogs, v: View, c: Option<Cursor>)
    requires Snapshot(run, v.runId, v) && CursorGood(v, c)
    ensures var a := Asking(v.runId, c);
            && a.Fits(a.ForwardCursor()) && a.Fits(a.BackwardCursor())
            && (c.Some? ==> HasFile(run.Files(), c.value.file.value) && run.Files() != [])
            && (Answerable(run, a) <==> run.HasLogs())
  {
    SortedByStamp(run.Files());
  }

  /** A request that cannot be answered with a page. */
  lemma UnreadAdds(run: RunLogs, v: View, c: Option<Cursor>, expired: nat -> bool, r: LogLineResult)
    requires Snapshot(run, v.runId, v) && CursorGood(v, c) && (c.Some? ==> !(run.isInline && run.localRunner))
    requires !run.HasLogs() && Unread(run, Asking(v.runId, c)) == Loaded(r)
    ensures Adds(run, v, c, expired, r)
  {
    CursorFits(run, v, c);
    UnreadIs(run, Asking(v.runId, c), r);
  }

  lemma UnreadIs(run: RunLogs, a: Request, r: LogLineResult)
    requires !run.HasLogs() && a.Fits(a.ForwardCursor()) && a.Fits(a.BackwardCursor())
    requires Unread(run, a) == Loaded(r) && !a.reverse
    ensures r.lines == [] && (r.canContinueForward <==> Waits(run))
  {
  }

  ghost predicate Answers(run: RunLogs, v: View, c: Option<Cursor>, taken: seq<LogLine>, timedOut: bool,
      r: LogLineResult) {
    && Snapshot(run, v.runId, v) && CursorGood(v, c) && Answerable(run, Asking(v.runId, c))
    && Takes(Asking(v.runId, c).Asks(run), StreamOf(run, Asking(v.runId, c)), taken, timedOut)
    && r == ResultOf(Asking(v.runId, c).Asks(run), taken, timedOut)
  }

  lemma AnswerAdds(run: RunLogs, v: View, c: Option<Cursor>, expired: nat -> bool, taken: seq<LogLine>,
      timedOut: bool, r: LogLineResult)
    requires Answers(run, v, c, taken, timedOut, r) && (timedOut ==> expired(|taken|))
    ensures Adds(run, v, c, expired, r)
  {
    AnswerIsPage(run, Asking(v.runId, c), v, taken, timedOut);
    PageAdds(v, c, r);
    if r.lines != [] {
      FullAnswer(run, v, c, expired, taken, timedOut, r);
    } else if c.Some? {
      EmptyAnswer(run, v, c, taken, timedOut, r);
    }
    if c.None? {
      AnswerIsEmptyIff(run, v, taken, timedOut, r);
    }
  }

  /** What the cursor of a page with lines says. */
  lemma FullAnswer(run: RunLogs, v: View, c: Option<Cursor>, expired: nat -> bool, taken: seq<LogLine>,
      timedOut: bool, r: LogLineResult)
    requires Answers(run, v, c, taken, timedOut, r) && (timedOut ==> expired(|taken|)) && TokensOk(v, r)
             && r.lines != []
    ensures CursorGood(v, r.forward) && (r.forward.None? ==> HasEnded(run))
    ensures r.forward.Some? && HasEnded(run) ==> CutShort(expired, r)
    ensures v.lo <= ForwardStart(v, r) <= v.hi ==>
              ForwardStart(v, r) == if r.forward.Some? then Reached(v, r.forward) else v.hi
  {
  }

  /** The first page is empty if and only if the run has no lines. */
  lemma AnswerIsEmptyIff(run: RunLogs, v: View, taken: seq<LogLine>, timedOut: bool, r: LogLineResult)
    requires Answers(run, v, None, taken, timedOut, r)
    ensures taken == [] <==> v.lo == v.hi
  {
    var start := Asking(v.runId, None).Start();
    StreamIs(v, start, []);
    FreshPlace(v, v.runId);
    Unfiltered(v.All(), v.lo, v.hi);
  }

  /** A later page is empty only if there is nothing after the cursor. */
  lemma EmptyAnswer(run: RunLogs, v: View, c: Option<Cursor>, taken: seq<LogLine>, timedOut: bool, r: LogLineResult)
    requires Answers(run, v, c, taken, timedOut, r) && c.Some? && r.lines == []
    ensures Before(v, c) == Everything(v)
  {
    StreamIs(v, Asking(v.runId, c).Start(), []);
    AheadIs(v, c);
    Unfiltered(v.All(), Reached(v, c), v.hi);
  }

  /** One request of the command. */
  method LoadNext(run: RunLogs, runId: string, c: Option<Cursor>, expired: nat -> bool, ghost v: View)
    returns (r: LogLineResult)
    requires Snapshot(run, runId, v) && CursorGood(v, c) && (c.Some? ==> !(run.isInline && run.localRunner))
    ensures Adds(run, v, c, expired, r)
    ensures c.None? && run.isInline && run.localRunner ==> r.lines == []
  {
    var a := Asking(runId, c);
    CursorFits(run, v, c);
    var loaded := LoadRunLogs(run, a, expired);
    r := loaded.result;
    if run.HasLogs() {
      ghost var page :| IsPage(a.Asks(run), StreamOf(run, a), expired, page) && r == Initially(run, a, page);
      ghost var taken, timedOut :| Took(a.Asks(run), StreamOf(run, a), expired, taken, timedOut)
                                   && page == ResultOf(a.Asks(run), taken, timedOut);
      AnswerAdds(run, v, c, expired, taken, timedOut, page);
    } else {
      UnreadAdds(run, v, c, expired, r);
    }
  }

  // ------------------------------------------------------------------ the loop

  function Now(k: nat, n: nat): (i: nat)
    requires n > 0
    ensures i < n
  {
    if k < n then k else n - 1
  }

  /** When the run is first seen to have ended. */
  function FirstEnded(worlds: seq<RunLogs>, k: nat): (e: nat)
    requires k < |worlds| && HasEnded(worlds[|worlds| - 1])
    ensures k <= e < |worlds| && HasEnded(worlds[e]) && forall j | k <= j < e :: !HasEnded(worlds[j])
    decreases |worlds| - k
  {
    if HasEnded(worlds[k]) then k else FirstEnded(worlds, k + 1)
  }

  /** Requests are answered in time, and the run has fewer lines than a page holds. */
  ghost predicate Prompt(clocks: nat -> (nat -> bool), v: View)
    requires v.lo <= v.hi <= |v.All()|
  {
    v.hi - v.lo < DEFAULT_LOG_LOAD_MAX_SIZE && forall k: nat, n: nat :: !clocks(k)(n)
  }

  /** Before request `k`: what was printed is what is before the cursor. */
  ghost predicate Printing(worlds: seq<RunLogs>, runId: string, views: seq<View>, k: nat,
      hadAny: bool, cursor: Option<Cursor>, printed: seq<string>)
    requires Followed(worlds, runId, views)
  {
    var v := views[Now(k, |worlds|)];
    && v.lo <= v.hi <= |v.All()|
    && CursorGood(v, cursor) && printed == Before(v, cursor) && (hadAny <==> cursor.Some?)
    && (if hadAny then !GivesUp(worlds, views) && !(worlds[0].isInline && worlds[0].localRunner)
        else forall j | 0 <= j < k && j < |worlds| :: Waits(worlds[j]))
  }

  /** After the last request, made when the run had ended: everything there was is printed. */
  ghost predicate Finished(worlds: seq<RunLogs>, runId: string, views: seq<View>, last: nat, printed: seq<string>)
    requires Followed(worlds, runId, views)
  {
    var i := Now(last, |worlds|);
    && views[i].lo <= views[i].hi <= |views[i].All()|
    && HasEnded(worlds[i]) && !GivesUp(worlds, views) && printed == Everything(views[i])
  }

  lemma SnapshotAt(worlds: seq<RunLogs>, runId: string, views: seq<View>, now: nat)
    requires Followed(worlds, runId, views) && now < |worlds|
    ensures Snapshot(worlds[now], runId, views[now]) && Grows(views[now], views[|views| - 1])
    ensures views[now].lo <= views[now].hi <= |views[now].All()|
    ensures SameRunner(worlds[now], worlds[0])
  {
  }

  lemma FirstAnswerUnique(worlds: seq<RunLogs>, views: seq<View>, i: nat)
    requires |views| == |worlds| && FirstAnswer(worlds, i)
    ensures GivesUp(worlds, views) <==> NothingThere(worlds[i], views[i])
  {
    if GivesUp(worlds, views) {
      var j :| 0 <= j < |worlds| && FirstAnswer(worlds, j) && NothingThere(worlds[j], views[j]);
      assert i == j;
    }
  }

  lemma CursorMoves(worlds: seq<RunLogs>, runId: string, views: seq<View>, k: nat, c: Option<Cursor>)
    requires Followed(worlds, runId, views) && CursorGood(views[Now(k, |worlds|)], c)
    ensures var v, w := views[Now(k, |worlds|)], views[Now(k + 1, |worlds|)];
            && v.lo <= v.hi <= |v.All()| && w.lo <= w.hi <= |w.All()|
            && CursorGood(w, c) && Before(w, c) == Before(v, c)
  {
    var v, w := views[Now(k, |worlds|)], views[Now(k + 1, |worlds|)];
    assert Grows(v, w);
    BeforeStays(v, w, c);
  }

  lemma AfterLines(worlds: seq<RunLogs>, runId: string, views: seq<View>, k: nat, expired: nat -> bool,
      hadAny: bool, cursor: Option<Cursor>, printed: seq<string>, r: LogLineResult)
    requires Followed(worlds, runId, views) && Printing(worlds, runId, views, k, hadAny, cursor, printed)
    requires Adds(worlds[Now(k, |worlds|)], views[Now(k, |worlds|)], cursor, expired, r) && r.lines != []
    ensures if r.canContinueForward then Printing(worlds, runId, views, k + 1, true, r.forward, printed + r.lines)
            else Finished(worlds, runId, views, k, printed + r.lines)
    ensures r.canContinueForward && HasEnded(worlds[Now(k, |worlds|)]) ==> CutShort(expired, r)
  {
    var now := Now(k, |worlds|);
    CursorMoves(worlds, runId, views, k, r.forward);
    if !hadAny {
      SnapshotAt(worlds, runId, views, now);
      assert FirstAnswer(worlds, now);
      FirstAnswerUnique(worlds, views, now);
    }
  }

  lemma AfterNothing(worlds: seq<RunLogs>, runId: string, views: seq<View>, k: nat, expired: nat -> bool,
      hadAny: bool, cursor: Option<Cursor>, printed: seq<string>, r: LogLineResult)
    requires Followed(worlds, runId, views) && Printing(worlds, runId, views, k, hadAny, cursor, printed)
    requires Adds(worlds[Now(k, |worlds|)], views[Now(k, |worlds|)], cursor, expired, r) && r.lines == []
    ensures r.canContinueForward ==>
              !HasEnded(worlds[Now(k, |worlds|)]) && Printing(worlds, runId, views, k + 1, hadAny, cursor, printed)
    ensures hadAny && !r.canContinueForward ==> Finished(worlds, runId, views, k, printed)
    ensures !hadAny && !r.canContinueForward ==> GivesUp(worlds, views)
    ensures r.canContinueForward ==> Waits(worlds[Now(k, |worlds|)]) || printed == Everything(views[Now(k, |worlds|)])
  {
    CursorMoves(worlds, runId, views, k, cursor);
    var now := Now(k, |worlds|);
    if !hadAny && !r.canContinueForward {
      assert FirstAnswer(worlds, now);
      FirstAnswerUnique(worlds, views, now);
    }
  }

  /** What is printed never exceeds what the final logs have. */
  lemma PrintedFits(worlds: seq<RunLogs>, runId: string, views: seq<View>, k: nat, hadAny: bool,
      cursor: Option<Cursor>, printed: seq<string>)
    requires Followed(worlds, runId, views) && Printing(worlds, runId, views, k, hadAny, cursor, printed)
    ensures var i := Now(k, |worlds|);
            && views[i].lo <= views[i].hi <= |views[i].All()| && printed <= Everything(views[i])
            && |printed| <= views[i].hi - views[i].lo
    ensures views[|views| - 1].lo <= views[|views| - 1].hi <= |views[|views| - 1].All()|
    ensures |printed| <= |Everything(views[|views| - 1])|
  {
    var i := Now(k, |worlds|);
    SnapshotAt(worlds, runId, views, i);
    SnapshotAt(worlds, runId, views, |views| - 1);
    BeforeSize(views[i], cursor);
    EverythingGrows(views[i], views[|views| - 1]);
  }

  /** With prompt answers, the first request made after the run has ended is the last one. */
  lemma PromptEnds(v: View, c: Option<Cursor>, clocks: nat -> (nat -> bool), k: nat, r: LogLineResult)
    requires v.lo <= v.hi <= |v.All()| && Prompt(clocks, v) && r.lines != []
    requires r.forward.Some? && Before(v, r.forward) == Before(v, c) + r.lines
    ensures !CutShort(clocks(k), r)
  {
    BeforeSize(v, r.forward);
  }

  /** The state of the loop after `k` requests. */
  ghost predicate Loop(worlds: seq<RunLogs>, clocks: nat -> (nat -> bool), runId: string, follow: bool,
      views: seq<View>, k: nat, hasMore: bool, hadAny: bool, cursor: Option<Cursor>, printed: seq<string>)
    requires Followed(worlds, runId, views)
  {
    var e := FirstEnded(worlds, 0);
    && (if hasMore then Printing(worlds, runId, views, k, hadAny, cursor, printed)
        else k > 0 && Finished(worlds, runId, views, k - 1, printed))
    && (k == 0 ==> !hadAny) && (!follow && k > 0 ==> hadAny && !NothingThere(worlds[0], views[0]))
    && views[e].lo <= views[e].hi <= |views[e].All()|
    && (Prompt(clocks, views[e]) ==> if hasMore then k <= e else k == e + 1)
  }

  /** The lines that may still be printed. */
  function Left(views: seq<View>, printed: seq<string>): nat
    requires views != []
  {
    var w := views[|views| - 1];
    if w.lo <= w.hi <= |w.All()| && |printed| <= |Everything(w)| then |Everything(w)| - |printed| else 0
  }

  lemma LeftDrops(worlds: seq<RunLogs>, runId: string, views: seq<View>, k: nat, cursor: Option<Cursor>,
      printed: seq<string>, more: seq<string>)
    requires Followed(worlds, runId, views) && Printing(worlds, runId, views, k, true, cursor, printed + more)
    requires more != []
    ensures Left(views, printed + more) < Left(views, printed)
  {
    PrintedFits(worlds, runId, views, k, true, cursor, printed + more);
  }

  lemma StepWithLines(worlds: seq<RunLogs>, clocks: nat -> (nat -> bool), runId: string, follow: bool,
      views: seq<View>, k: nat, hadAny: bool, cursor: Option<Cursor>, printed: seq<string>, r: LogLineResult)
    requires Followed(worlds, runId, views)
    requires Loop(worlds, clocks, runId, follow, views, k, true, hadAny, cursor, printed) && r.lines != []
    requires Adds(worlds[Now(k, |worlds|)], views[Now(k, |worlds|)], cursor, clocks(k), r)
    ensures Loop(worlds, clocks, runId, follow, views, k + 1, r.canContinueForward, true, r.forward, printed + r.lines)
    ensures r.canContinueForward ==> Left(views, printed + r.lines) < Left(views, printed)
  {
    AfterLines(worlds, runId, views, k, clocks(k), hadAny, cursor, printed, r);
    if r.canContinueForward {
      LeftDrops(worlds, runId, views, k + 1, r.forward, printed, r.lines);
      if k == FirstEnded(worlds, 0) && Prompt(clocks, views[k]) {
        PromptEnds(views[k], cursor, clocks, k, r);
      }
    }
  }

  lemma StepWithout(worlds: seq<RunLogs>, clocks: nat -> (nat -> bool), runId: string, follow: bool,
      views: seq<View>, k: nat, hadAny: bool, cursor: Option<Cursor>, printed: seq<string>, r: LogLineResult)
    requires Followed(worlds, runId, views)
    requires Loop(worlds, clocks, runId, follow, views, k, true, hadAny, cursor, printed) && r.lines == []
    requires Adds(worlds[Now(k, |worlds|)], views[Now(k, |worlds|)], cursor, clocks(k), r)
    ensures follow && (hadAny || r.canContinueForward) ==>
              Loop(worlds, clocks, runId, follow, views, k + 1, r.canContinueForward, hadAny, cursor, printed)
    ensures !follow && (hadAny || r.canContinueForward) ==>
              Ends(worlds, clocks, runId, follow, views, printed, false, k + 1)
    ensures !(hadAny || r.canContinueForward) ==> Ends(worlds, clocks, runId, follow, views, printed, true, k + 1)
    ensures k >= |worlds| - 1 ==> !r.canContinueForward
  {
    AfterNothing(worlds, runId, views, k, clocks(k), hadAny, cursor, printed, r);
    PrintedFits(worlds, runId, views, k, hadAny, cursor, printed);
  }

  /** How the command ends: it prints what there is at its last request, in order, or fails. With
      `follow` it fails exactly if the first request not answered with waiting finds no line, and
      otherwise goes on until the run has ended; with prompt answers, no further than that. */
  ghost predicate Ends(worlds: seq<RunLogs>, clocks: nat -> (nat -> bool), runId: string, follow: bool,
      views: seq<View>, printed: seq<string>, failed: bool, requests: nat)
    requires Followed(worlds, runId, views)
  {
    var e := FirstEnded(worlds, 0);
    && requests > 0
    && var i := Now(requests - 1, |worlds|);
       && views[i].lo <= views[i].hi <= |views[i].All()| && views[e].lo <= views[e].hi <= |views[e].All()|
       && printed <= Everything(views[i]) && (failed ==> printed == [])
       && (if follow then failed <==> GivesUp(worlds, views)
           else failed <==> !Waits(worlds[0]) && NothingThere(worlds[0], views[0]))
       && (!failed ==> printed == Everything(views[i]) || (!follow && Waits(worlds[i])))
       && (!failed && follow ==> HasEnded(worlds[i]) && worlds[i].state !in {CREATED, SCHEDULED, RETRYING})
       && (!failed && follow && Prompt(clocks, views[e]) ==> i == e)
  }

  lemma Finish(worlds: seq<RunLogs>, clocks: nat -> (nat -> bool), runId: string, follow: bool,
      views: seq<View>, k: nat, hadAny: bool, cursor: Option<Cursor>, printed: seq<string>)
    requires Followed(worlds, runId, views)
    requires Loop(worlds, clocks, runId, follow, views, k, false, hadAny, cursor, printed)
    ensures Ends(worlds, clocks, runId, follow, views, printed, false, k)
  {
  }

  lemma Start(worlds: seq<RunLogs>, clocks: nat -> (nat -> bool), runId: string, follow: bool, views: seq<View>)
    requires Followed(worlds, runId, views)
    ensures Loop(worlds, clocks, runId, follow, views, 0, true, false, None, [])
  {
    SnapshotAt(worlds, runId, views, 0);
    SnapshotAt(worlds, runId, views, FirstEnded(worlds, 0));
  }

  /** The next request, of the run as it is then, and what the loop makes of the answer. */
  method LoadAt(worlds: seq<RunLogs>, clocks: nat -> (nat -> bool), runId: string, ghost follow: bool, k: nat,
      cursor: Option<Cursor>, ghost views: seq<View>, ghost hadAny: bool, ghost printed: seq<string>)
    returns (r: LogLineResult)
    requires Followed(worlds, runId, views)
    requires Loop(worlds, clocks, runId, follow, views, k, true, hadAny, cursor, printed)
    ensures r.lines != [] ==>
              && Loop(worlds, clocks, runId, follow, views, k + 1, r.canContinueForward, true, r.forward,
                      printed + r.lines)
              && (r.canContinueForward ==> Left(views, printed + r.lines) < Left(views, printed))
    ensures r.lines == [] && follow && (hadAny || r.canContinueForward) ==>
              && Loop(worlds, clocks, runId, follow, views, k + 1, r.canContinueForward, hadAny, cursor, printed)
              && (k >= |worlds| - 1 ==> !r.canContinueForward)
    ensures r.lines == [] && !(follow && (hadAny || r.canContinueForward)) ==>
              Ends(worlds, clocks, runId, follow, views, printed, !(hadAny || r.canContinueForward), k + 1)
  {
    var now := Now(k, |worlds|);
    SnapshotAt(worlds, runId, views, now);
    r := LoadNext(worlds[now], runId, cursor, clocks(k), views[now]);
    if r.lines == [] {
      StepWithout(worlds, clocks, runId, follow, views, k, hadAny, cursor, printed, r);
    } else {
      StepWithLines(worlds, clocks, runId, follow, views, k, hadAny, cursor, printed, r);
    }
  }

  /** `sematic logs`: prints the lines of a run, and with `follow` goes on until it has ended. */
  method Logs(worlds: seq<RunLogs>, clocks: nat -> (nat -> bool), runId: string, follow: bool, ghost views: seq<View>)
    returns (printed: seq<string>, failed: bool, requests: nat)
    requires Followed(worlds, runId, views)
    ensures Ends(worlds, clocks, runId, follow, views, printed, failed, requests)
  {
    Start(worlds, clocks, runId, follow, views);
    var hasMore, hadAny, cursor: Option<Cursor> := true, false, None;
    printed, failed, requests := [], false, 0;
    while hasMore
      invariant Loop(worlds, clocks, runId, follow, views, requests, hasMore, hadAny, cursor, printed)
      decreases Max(|worlds|, requests) - requests, hasMore, Left(views, printed)
    {
      var r := LoadAt(worlds, clocks, runId, follow, requests, cursor, views, hadAny, printed);
      hasMore, requests := r.canContinueForward, requests + 1;
      if r.lines == [] {
        if !(hadAny || hasMore) {
          return printed, true, requests;
        }
        if !follow {
          return;
        }
      } else {
        cursor := r.forward;
        printed := printed + r.lines;
        hadAny := true;
      }
    }
    Finish(worlds, clocks, runId, follow, views, requests, hadAny, cursor, printed);
  }

  /** A run that is followed is printed in full if and only if its logs are complete at the last
      request; with prompt answers, if and only if they were when it was first seen to have ended. */
  lemma FollowedInFullIff(worlds: seq<RunLogs>, clocks: nat -> (nat -> bool), runId: string, views: seq<View>,
      printed: seq<string>, requests: nat)
    requires Followed(worlds, runId, views) && Ends(worlds, clocks, runId, true, views, printed, false, requests)
    ensures var i, w, e := Now(requests - 1, |worlds|), views[|views| - 1], FirstEnded(worlds, 0);
            && w.lo <= w.hi <= |w.All()| && printed <= Everything(w)
            && (printed == Everything(w) <==> w.hi - w.lo == views[i].hi - views[i].lo)
            && (Prompt(clocks, views[e]) ==>
                  (printed == Everything(w) <==> w.hi - w.lo == views[e].hi - views[e].lo))
  {
    var i := Now(requests - 1, |worlds|);
    SnapshotAt(worlds, runId, views, i);
    SnapshotAt(worlds, runId, views, |views| - 1);
    EverythingGrows(views[i], views[|views| - 1]);
  }

  // --------------------------------------------- what following can miss

  const EARLY := LogFile(1600000000000, ["runner output"])
  const LATER := LogFile(1600000010000, [StartIndicator("r"), "hello", EndIndicator("r")])

  function InlineRun(state: FutureState, files: seq<LogFile>): RunLogs {
    RunLogs(false, false, state, true, [], files)
  }

  lemma EarlyView()
    ensures View([EARLY], true, "r", 1, 1).Valid()
            && Snapshot(InlineRun(SCHEDULED, [EARLY]), "r", View([EARLY], true, "r", 1, 1))
  {
    assert AllLines([EARLY]) == Lines(EARLY) + AllLines([]);
    ShortLine("runner output", StartIndicator("r"));
    ShortLine("runner output", EndIndicator("r"));
    assert SortFiles([EARLY]) == InsertFile(EARLY, SortFiles([]));
  }

  lemma LaterLines()
    ensures AllLines([EARLY, LATER]) ==
              [LogLine(EARLY.stamp, 0, "runner output"), LogLine(LATER.stamp, 0, StartIndicator("r")),
               LogLine(LATER.stamp, 1, "hello"), LogLine(LATER.stamp, 2, EndIndicator("r"))]
    ensures SortFiles([EARLY, LATER]) == [EARLY, LATER]
  {
    assert AllLines([LATER]) == Lines(LATER) + AllLines([]);
    assert [EARLY, LATER][1..] == [LATER];
    assert AllLines([EARLY, LATER]) == Lines(EARLY) + AllLines([LATER]);
    assert [LATER][1..] == [];
    assert SortFiles([LATER]) == InsertFile(LATER, SortFiles([])) == [LATER];
    assert SortFiles([EARLY, LATER]) == InsertFile(EARLY, [LATER]);
  }

  lemma LaterView()
    ensures View([EARLY, LATER], true, "r", 2, 3).Valid()
    ensures Snapshot(InlineRun(RESOLVED, [EARLY, LATER]), "r", View([EARLY, LATER], true, "r", 2, 3))
    ensures Everything(View([EARLY, LATER], true, "r", 2, 3)) != []
  {
    LaterLines();
    IndicatorsDiffer();
    ShortLine("runner output", StartIndicator("r"));
    ShortLine("runner output", EndIndicator("r"));
    ShortLine("hello", StartIndicator("r"));
    ShortLine("hello", EndIndicator("r"));
    Unfiltered(AllLines([EARLY, LATER]), 2, 3);
  }

  lemma EarlyGrows(v: View, w: View)
    requires v == View([EARLY], true, "r", 1, 1) && w == View([EARLY, LATER], true, "r", 2, 3)
    ensures Grows(v, w) && Grows(v, v) && Grows(w, w)
  {
    EarlyView();
    LaterView();
    assert [EARLY] <= [EARLY, LATER];
  }

  /** Following an inline run stops with an error, and prints nothing, if its runner has
      logged something but has not started the run yet, although lines are still to come. */
  lemma FollowingCanEndTooEarly(worlds: seq<RunLogs>, views: seq<View>, clocks: nat -> (nat -> bool),
      printed: seq<string>, failed: bool, requests: nat)
    requires worlds == [InlineRun(SCHEDULED, [EARLY]), InlineRun(RESOLVED, [EARLY, LATER])]
    requires views == [View([EARLY], true, "r", 1, 1), View([EARLY, LATER], true, "r", 2, 3)]
    ensures Followed(worlds, "r", views)
    ensures Ends(worlds, clocks, "r", true, views, printed, failed, requests) ==> failed && printed == []
    ensures views[1].lo <= views[1].hi <= |views[1].All()| && Everything(views[1]) != []
  {
    EarlyView();
    LaterView();
    EarlyGrows(views[0], views[1]);
    assert FirstAnswer(worlds, 0);
    assert GivesUp(worlds, views);
  }

  // the run has ended, and its last lines are uploaded a little later
  const TAIL := LogFile(1600000020000, ["bye"])

  function JobRun(state: FutureState, files: seq<LogFile>): RunLogs {
    RunLogs(false, false, state, false, files, [])
  }

  lemma JobFiles()
    ensures AllLines([EARLY]) == [LogLine(EARLY.stamp, 0, "runner output")]
    ensures AllLines([EARLY, TAIL]) == [LogLine(EARLY.stamp, 0, "runner output"), LogLine(TAIL.stamp, 0, "bye")]
  {
    assert AllLines([EARLY]) == Lines(EARLY) + AllLines([]);
    assert AllLines([TAIL]) == Lines(TAIL) + AllLines([]);
    assert [EARLY, TAIL][1..] == [TAIL] && [TAIL][1..] == [];
    assert AllLines([EARLY, TAIL]) == Lines(EARLY) + AllLines([TAIL]);
  }

  lemma JobView()
    ensures Snapshot(JobRun(RESOLVED, [EARLY]), "r", View([EARLY], false, "r", 0, 1))
    ensures Everything(View([EARLY], false, "r", 0, 1)) == ["runner output"]
  {
    JobFiles();
    assert SortFiles([EARLY]) == InsertFile(EARLY, SortFiles([]));
  }

  lemma JobTailView()
    ensures Snapshot(JobRun(RESOLVED, [EARLY, TAIL]), "r", View([EARLY, TAIL], false, "r", 0, 2))
    ensures Everything(View([EARLY, TAIL], false, "r", 0, 2)) == ["runner output", "bye"]
  {
    JobFiles();
    assert [EARLY, TAIL][1..] == [TAIL];
    assert SortFiles([TAIL]) == InsertFile(TAIL, SortFiles([])) == [TAIL];
    assert SortFiles([EARLY, TAIL]) == InsertFile(EARLY, [TAIL]);
  }

  /** Two looks at a run, the second one at more files. */
  lemma TwoViews(worlds: seq<RunLogs>, v: View, w: View)
    requires |worlds| == 2 && Snapshot(worlds[0], "r", v) && Snapshot(worlds[1], "r", w) && Grows(v, w)
    requires SameRunner(worlds[1], worlds[0]) && HasEnded(worlds[1])
    ensures Followed(worlds, "r", [v, w])
  {
    var views := [v, w];
    forall i | 0 <= i < 2 ensures Snapshot(worlds[i], "r", views[i]) {
      assert i == 0 || i == 1;
    }
    forall i, j | 0 <= i <= j < 2 ensures Grows(views[i], views[j]) {
      assert (i == j || (i == 0 && j == 1)) && (i == 0 || i == 1);
    }
  }

  lemma JobFollowed(worlds: seq<RunLogs>, views: seq<View>)
    requires worlds == [JobRun(RESOLVED, [EARLY]), JobRun(RESOLVED, [EARLY, TAIL])]
    requires views == [View([EARLY], false, "r", 0, 1), View([EARLY, TAIL], false, "r", 0, 2)]
    ensures Followed(worlds, "r", views) && !GivesUp(worlds, views) && FirstEnded(worlds, 0) == 0
  {
    JobView();
    JobTailView();
    assert [EARLY] <= [EARLY, TAIL];
    TwoViews(worlds, views[0], views[1]);
    assert views == [views[0], views[1]];
    assert FirstAnswer(worlds, 0);
    FirstAnswerUnique(worlds, views, 0);
  }

  /** Following a run ends with success without its last lines, if they are uploaded after it
      was seen to have ended. */
  lemma FollowingCanMissTheEnd(worlds: seq<RunLogs>, views: seq<View>, clocks: nat -> (nat -> bool),
      printed: seq<string>, failed: bool, requests: nat)
    requires worlds == [JobRun(RESOLVED, [EARLY]), JobRun(RESOLVED, [EARLY, TAIL])]
    requires views == [View([EARLY], false, "r", 0, 1), View([EARLY, TAIL], false, "r", 0, 2)]
    requires forall k: nat, n: nat :: !clocks(k)(n)
    ensures Followed(worlds, "r", views)
    ensures forall i | 0 <= i < 2 :: views[i].lo <= views[i].hi <= |views[i].All()|
    ensures Ends(worlds, clocks, "r", true, views, printed, failed, requests) ==>
              !failed && printed == ["runner output"] && Everything(views[1]) == ["runner output", "bye"]
  {
    JobFollowed(worlds, views);
    JobView();
    JobTailView();
    assert Prompt(clocks, views[0]);
  }
}
