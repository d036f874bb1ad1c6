/** Reading logs page by page, forwards and backwards (sematic/log_reader.py). */
module LogReader {
  import opened FutureStates
  import opened LogStreams
  import opened InlineLogs

  datatype Cursor = Cursor(file: Option<nat>, index: int, filters: seq<string>, runId: string, hadLines: bool,
      reverse: bool)

  datatype LogLineResult = LogLineResult(
    canContinueForward: bool,
    canContinueBackward: bool,
    lines: seq<string>,
    lineIds: seq<int>,
    forward: Option<Cursor>,
    backward: Option<Cursor>,
    info: Option<string>)

  function NothingFound(filters: seq<string>, runId: string, reverse: bool): Cursor {
    Cursor(None, if reverse then DEFAULT_END_INDEX else DEFAULT_START_INDEX, filters, runId, false, reverse)
  }

  function ToLineId(file: nat, index: int): int {
    10 * MAX_LINES_PER_LOG_FILE * (file - 1500000000000) + index
  }

  predicate PassesFilter(line: LogLine, filters: seq<string>) {
    forall f | f in filters :: Contains(line.text, f)
  }

  function Matching(stream: seq<LogLine>, filters: seq<string>): seq<LogLine> {
    if stream == [] then []
    else Pick(stream[0], filters) + Matching(stream[1..], filters)
  }

  function Pick(line: LogLine, filters: seq<string>): seq<LogLine> {
    if PassesFilter(line, filters) then [line] else []
  }

  function Texts(lines: seq<LogLine>): seq<string> {
    seq(|lines|, i requires 0 <= i < |lines| => lines[i].text)
  }

  function LineIds(lines: seq<LogLine>): seq<int> {
    seq(|lines|, i requires 0 <= i < |lines| => ToLineId(lines[i].file, lines[i].index))
  }

  /** What is asked of a page: the run's state, the limits, and the place to go on from. */
  datatype Query = Query(
    stillRunning: bool, hadLines: bool, maxLines: int, filters: seq<string>, runId: string,
    cursorFile: Option<nat>, cursorIndex: int, info: Option<string>, reverse: bool)
  {
    /** A page is full when it has this many lines: the first line is always taken. */
    function Full(): nat {
      if maxLines < 1 then 1 else maxLines
    }
  }

  /** The lines taken for a page: matching lines in reading order, none left out, until the
      page is full, time is up, or the stream ends. */
  ghost predicate Takes(q: Query, stream: seq<LogLine>, taken: seq<LogLine>, timedOut: bool) {
    && taken <= Matching(stream, q.filters) && |taken| <= q.Full()
    && (timedOut ==> taken != [])
    && (taken == Matching(stream, q.filters) || timedOut || |taken| == q.Full())
  }

  /** The lines taken with this clock: time is not up before the last of them. */
  ghost predicate Took(q: Query, stream: seq<LogLine>, expired: nat -> bool, taken: seq<LogLine>, timedOut: bool) {
    && Takes(q, stream, taken, timedOut) && (timedOut <==> taken != [] && expired(|taken|))
    && forall k | 1 <= k < |taken| :: !expired(k)
  }

  datatype Place = Place(file: nat, index: int)

  function Original(q: Query): Option<Place> {
    if q.cursorFile.Some? then Some(Place(q.cursorFile.value, q.cursorIndex)) else None
  }

  /** The earliest of some lines in reading order. */
  function Earliest(taken: seq<LogLine>, reverse: bool): LogLine
    requires taken != []
  {
    if reverse then taken[|taken| - 1] else taken[0]
  }

  function Latest(taken: seq<LogLine>, reverse: bool): LogLine
    requires taken != []
  {
    if reverse then taken[0] else taken[|taken| - 1]
  }

  /** Just after the latest line taken, or else where the cursor was. */
  function ForwardPlace(q: Query, taken: seq<LogLine>): Option<Place> {
    if taken != [] then
      var latest := Latest(taken, q.reverse);
      Some(Place(latest.file, latest.index + 1))
    else if q.reverse || q.stillRunning then Original(q) else None
  }

  /** At the earliest line taken, or else where the cursor was. */
  function BackwardPlace(q: Query, taken: seq<LogLine>): Option<Place> {
    if taken != [] then
      var earliest := Earliest(taken, q.reverse);
      Some(Place(earliest.file, earliest.index))
    else if q.reverse then None else Original(q)
  }

  function Token(q: Query, place: Option<Place>, found: bool, reverse: bool): Option<Cursor> {
    if place.None? then None
    else Some(Cursor(Some(place.value.file), place.value.index, q.filters, q.runId, q.hadLines || found, reverse))
  }

  /** The page made of the lines taken. */
  function ResultOf(q: Query, taken: seq<LogLine>, timedOut: bool): LogLineResult {
    var cut := |taken| == q.maxLines || timedOut;
    var forward :=
      if q.reverse || cut || q.stillRunning then Token(q, ForwardPlace(q, taken), taken != [], false) else None;
    var backward := if !q.reverse || cut then Token(q, BackwardPlace(q, taken), taken != [], true) else None;
    var lines := Directed(taken, q.reverse);
    LogLineResult(
      forward.Some?, backward.Some?, Texts(lines), LineIds(lines), forward, backward,
      if taken != [] then q.info else Some("No matching log lines."))
  }

  ghost predicate IsPage(q: Query, stream: seq<LogLine>, expired: nat -> bool, r: LogLineResult) {
    exists taken: seq<LogLine>, timedOut: bool ::
      Took(q, stream, expired, taken, timedOut) && r == ResultOf(q, taken, timedOut)
  }

  /** What is remembered of the lines taken: earliest and latest refer to their time. */
  ghost predicate Noted(q: Query, taken: seq<LogLine>, lines: seq<string>, lineIds: seq<int>,
      earliest: Option<Place>, latest: Option<Place>) {
    && lines == Texts(taken) && lineIds == LineIds(taken)
    && earliest == (if taken == [] then None else PlaceAt(Earliest(taken, q.reverse)))
    && latest == (if taken == [] then None else PlaceAt(Latest(taken, q.reverse)))
  }

  lemma NoteLine(q: Query, taken: seq<LogLine>, lines: seq<string>, lineIds: seq<int>, earliest: Option<Place>,
      latest: Option<Place>, line: LogLine)
    requires Noted(q, taken, lines, lineIds, earliest, latest)
    ensures Noted(q, taken + [line], lines + [line.text], lineIds + [ToLineId(line.file, line.index)],
                  if q.reverse || earliest.None? then PlaceAt(line) else earliest,
                  if !q.reverse || latest.None? then PlaceAt(line) else latest)
  {
  }

  lemma NextLine(stream: seq<LogLine>, filters: seq<string>, k: nat, taken: seq<LogLine>)
    requires k < |stream|
    ensures taken + Matching(stream[k..], filters)
         == (if PassesFilter(stream[k], filters) then taken + [stream[k]] else taken)
           + Matching(stream[k + 1..], filters)
  {
    assert stream[k..][0] == stream[k] && stream[k..][1..] == stream[k + 1..];
  }

  /** The first `next` lines of the stream were looked at and `taken` are those that matched. */
  ghost predicate Taking(q: Query, stream: seq<LogLine>, expired: nat -> bool, next: nat, taken: seq<LogLine>,
      keepGoing: bool, timedOut: bool) {
    && next <= |stream| && taken + Matching(stream[next..], q.filters) == Matching(stream, q.filters)
    && |taken| <= q.Full() && (timedOut <==> taken != [] && expired(|taken|))
    && (forall k | 1 <= k < |taken| :: !expired(k))
    && if keepGoing then |taken| < q.Full() && !timedOut else next == |stream| || timedOut || |taken| == q.Full()
  }

  lemma TakeNext(q: Query, stream: seq<LogLine>, expired: nat -> bool, next: nat, taken: seq<LogLine>)
    requires Taking(q, stream, expired, next, taken, true, false) && next < |stream|
    ensures if PassesFilter(stream[next], q.filters)
            then Taking(q, stream, expired, next + 1, taken + [stream[next]],
                        |taken| + 1 < q.maxLines && !expired(|taken| + 1), expired(|taken| + 1))
            else Taking(q, stream, expired, next + 1, taken, true, false)
  {
    NextLine(stream, q.filters, next, taken);
  }

  lemma TakenAll(q: Query, stream: seq<LogLine>, expired: nat -> bool, next: nat, taken: seq<LogLine>, timedOut: bool)
    requires Taking(q, stream, expired, next, taken, false, timedOut)
    ensures Took(q, stream, expired, taken, timedOut)
  {
    assert next == |stream| ==> stream[next..] == [];
    assert taken <= taken + Matching(stream[next..], q.filters);
  }

  /** Takes lines from the stream. `expired` tells whether time is up when the `k`-th line has
      been taken. */
  method TakeLines(stream: seq<LogLine>, q: Query, expired: nat -> bool)
    returns (lines: seq<string>, lineIds: seq<int>, earliest: Option<Place>, latest: Option<Place>, timedOut: bool,
      ghost taken: seq<LogLine>)
    ensures Took(q, stream, expired, taken, timedOut) && Noted(q, taken, lines, lineIds, earliest, latest)
  {
    var keepGoing, next := true, 0;
    lines, lineIds, earliest, latest, timedOut, taken := [], [], None, None, false, [];
    while keepGoing
      invariant 0 <= next <= |stream| && Taking(q, stream, expired, next, taken, keepGoing, timedOut)
      invariant Noted(q, taken, lines, lineIds, earliest, latest)
      decreases keepGoing, |stream| - next
    {
      if next == |stream| {
        keepGoing := false;
      } else {
        var line := stream[next];
        TakeNext(q, stream, expired, next, taken);
        next := next + 1;
        if PassesFilter(line, q.filters) {
          NoteLine(q, taken, lines, lineIds, earliest, latest, line);
          if q.reverse {
            if latest.None? {
              latest := PlaceAt(line);
            }
            earliest := PlaceAt(line);
          } else {
            if earliest.None? {
              earliest := PlaceAt(line);
            }
            latest := PlaceAt(line);
          }
          lines := lines + [line.text];
          lineIds := lineIds + [ToLineId(line.file, line.index)];
          taken := taken + [line];
          if |lines| >= q.maxLines {
            keepGoing := false;
          }
          if expired(|lines|) {
            keepGoing, timedOut := false, true;
          }
        }
      }
    }
    TakenAll(q, stream, expired, next, taken, timedOut);
  }

  // --------------------------------------------------------- which lines match

  /** All of the filters are in the text. */
  ghost predicate HasAll(text: string, filters: seq<string>) {
    forall f | f in filters :: Within(text, f)
  }

  lemma PassesIff(line: LogLine, filters: seq<string>)
    ensures PassesFilter(line, filters) <==> HasAll(line.text, filters)
  {
    forall f | f in filters ensures Contains(line.text, f) <==> Within(line.text, f) {
      ContainsIff(line.text, f);
    }
  }

  ghost predicate Increasing(at: seq<nat>) {
    forall i, j | 0 <= i < j < |at| :: at[i] < at[j]
  }

  /** From place `k` on, the lines of the stream at these places are all that have the filters. */
  ghost predicate AllAt(stream: seq<LogLine>, filters: seq<string>, k: nat, at: seq<nat>) {
    Increasing(at) && forall j: nat :: j in at <==> k <= j < |stream| && HasAll(stream[j].text, filters)
  }

  /** The lines at these places. */
  ghost predicate AreAt(stream: seq<LogLine>, lines: seq<LogLine>, at: seq<nat>) {
    |lines| == |at| && forall i | 0 <= i < |at| :: at[i] < |stream| && lines[i] == stream[at[i]]
  }

  lemma {:induction false} MatchingAt(stream: seq<LogLine>, filters: seq<string>, k: nat) returns (at: seq<nat>)
    requires k <= |stream|
    ensures AllAt(stream, filters, k, at) && AreAt(stream, Matching(stream[k..], filters), at)
    decreases |stream| - k
  {
    if k == |stream| {
      at := [];
    } else {
      var rest := MatchingAt(stream, filters, k + 1);
      assert stream[k..][0] == stream[k] && stream[k..][1..] == stream[k + 1..];
      PassesIff(stream[k], filters);
      at := if PassesFilter(stream[k], filters) then [k] + rest else rest;
      AllAtMore(stream, filters, k, rest, at);
    }
  }

  lemma AllAtMore(stream: seq<LogLine>, filters: seq<string>, k: nat, rest: seq<nat>, at: seq<nat>)
    requires k < |stream| && AllAt(stream, filters, k + 1, rest)
    requires at == if HasAll(stream[k].text, filters) then [k] + rest else rest
    ensures AllAt(stream, filters, k, at)
  {
    forall i | 0 <= i < |rest| ensures k < rest[i] {
      assert rest[i] in rest;
    }
  }

  /** The page shows, in order of time, the lines of the stream at the places `at`: lines that have
      all of the filters, and none that has them is left out before the last one shown, or at
      all unless the page is full or time is up. */
  ghost predicate ShowsLines(q: Query, stream: seq<LogLine>, expired: nat -> bool, at: seq<nat>, r: LogLineResult) {
    && |r.lines| == |r.lineIds| == |at| && (|at| <= q.maxLines || |at| <= 1) && Increasing(at)
    && (forall i | 0 <= i < |at| ::
          && at[i] < |stream| && HasAll(stream[at[i]].text, q.filters)
          && var k := if q.reverse then |at| - 1 - i else i;
             && r.lines[k] == stream[at[i]].text
             && r.lineIds[k] == 10000 * (stream[at[i]].file - 1500000000000) + stream[at[i]].index)
    && (forall j: nat | j < |stream| && HasAll(stream[j].text, q.filters) && j !in at ::
          at != [] && at[|at| - 1] < j && (|at| >= q.maxLines || expired(|at|)))
  }

  lemma PageShowsLines(q: Query, stream: seq<LogLine>, expired: nat -> bool, r: LogLineResult)
    requires IsPage(q, stream, expired, r)
    ensures exists at :: ShowsLines(q, stream, expired, at, r)
  {
    var taken, timedOut :| Took(q, stream, expired, taken, timedOut) && r == ResultOf(q, taken, timedOut);
    var at := TookShowsLines(q, stream, expired, taken, timedOut);
  }

  lemma TookShowsLines(q: Query, stream: seq<LogLine>, expired: nat -> bool, taken: seq<LogLine>, timedOut: bool)
    returns (at: seq<nat>)
    requires Took(q, stream, expired, taken, timedOut)
    ensures ShowsLines(q, stream, expired, at, ResultOf(q, taken, timedOut))
  {
    var all := MatchingAt(stream, q.filters, 0);
    assert stream[0..] == stream;
    at := all[..|taken|];
    FirstShown(q, stream, expired, all, taken, ResultOf(q, taken, timedOut));
  }

  lemma FirstShown(q: Query, stream: seq<LogLine>, expired: nat -> bool, all: seq<nat>, taken: seq<LogLine>,
      r: LogLineResult)
    requires AllAt(stream, q.filters, 0, all) && |taken| <= |all| && AreAt(stream, taken, all[..|taken|])
    requires |taken| < |all| ==> taken != [] && (|taken| >= q.maxLines || expired(|taken|))
    requires |taken| <= q.maxLines || |taken| <= 1
    requires r.lines == Texts(Directed(taken, q.reverse)) && r.lineIds == LineIds(Directed(taken, q.reverse))
    ensures ShowsLines(q, stream, expired, all[..|taken|], r)
  {
    FirstOfAll(q, stream, all, |taken|);
    TakenShown(q, stream, all[..|taken|], taken);
  }

  /** The first `n` of all places: the lines there match, and what is left out comes later. */
  lemma FirstOfAll(q: Query, stream: seq<LogLine>, all: seq<nat>, n: nat)
    requires AllAt(stream, q.filters, 0, all) && n <= |all|
    ensures Increasing(all[..n])
    ensures forall i | 0 <= i < n :: all[i] < |stream| && HasAll(stream[all[i]].text, q.filters)
    ensures forall j: nat | j < |stream| && HasAll(stream[j].text, q.filters) && j !in all[..n] ::
              n < |all| && (n > 0 ==> all[n - 1] < j)
  {
    forall i | 0 <= i < n ensures all[i] < |stream| && HasAll(stream[all[i]].text, q.filters) {
      assert all[i] in all;
    }
    assert forall i | 0 <= i < n :: all[..n][i] == all[i] && all[i] in all[..n];
    forall j: nat | j < |stream| && HasAll(stream[j].text, q.filters) && j !in all[..n]
      ensures n < |all| && (n > 0 ==> all[n - 1] < j)
    {
      var i :| 0 <= i < |all| && all[i] == j;
    }
  }

  /** Where the `i`-th line taken is shown. */
  function OnPage(reverse: bool, n: nat, i: nat): (k: nat)
    requires i < n
    ensures k < n
  {
    if reverse then n - 1 - i else i
  }

  lemma LineShown(taken: seq<LogLine>, reverse: bool, i: nat)
    requires i < |taken|
    ensures var lines := Directed(taken, reverse);
            var k := OnPage(reverse, |taken|, i);
            && |Texts(lines)| == |LineIds(lines)| == |taken|
            && Texts(lines)[k] == taken[i].text && LineIds(lines)[k] == ToLineId(taken[i].file, taken[i].index)
  {
    assert Directed(taken, reverse)[OnPage(reverse, |taken|, i)] == taken[i];
  }

  lemma TakenShown(q: Query, stream: seq<LogLine>, at: seq<nat>, taken: seq<LogLine>)
    requires AreAt(stream, taken, at)
    ensures var lines := Directed(taken, q.reverse);
            && |Texts(lines)| == |LineIds(lines)| == |at|
            && forall i | 0 <= i < |at| ::
                 var k := OnPage(q.reverse, |at|, i);
                 && Texts(lines)[k] == stream[at[i]].text
                 && LineIds(lines)[k] == 10000 * (stream[at[i]].file - 1500000000000) + stream[at[i]].index
  {
    forall i | 0 <= i < |at|
      ensures var lines := Directed(taken, q.reverse);
              var k := OnPage(q.reverse, |at|, i);
              && Texts(lines)[k] == stream[at[i]].text
              && LineIds(lines)[k] == 10000 * (stream[at[i]].file - 1500000000000) + stream[at[i]].index
    {
      LineShown(taken, q.reverse, i);
    }
  }

  /** `get_log_lines_from_line_stream` */
  method GetLogLinesFromLineStream(stream: seq<LogLine>, q: Query, expired: nat -> bool) returns (r: LogLineResult)
    ensures IsPage(q, stream, expired, r)
    ensures exists at :: ShowsLines(q, stream, expired, at, r)
  {
    var lines, lineIds, earliest, latest, searchTimedOut;
    ghost var taken;
    lines, lineIds, earliest, latest, searchTimedOut, taken := TakeLines(stream, q, expired);
    var forwardPlace, backwardPlace: Option<Place> := None, earliest;
    if latest.Some? {
      forwardPlace := Some(Place(latest.value.file, latest.value.index + 1));
    }
    if lines == [] && !q.reverse {
      backwardPlace := Original(q);
    }
    if lines == [] && (q.reverse || q.stillRunning) {
      forwardPlace := Original(q);
    }
    var forward, backward: Option<Cursor> := None, None;
    if q.reverse || |lines| == q.maxLines || q.stillRunning || searchTimedOut {
      forward := Token(q, forwardPlace, lines != [], false);
    }
    if !q.reverse || |lines| == q.maxLines || searchTimedOut {
      backward := Token(q, backwardPlace, lines != [], true);
    }
    ReversedTexts(taken);
    r := LogLineResult(
      forward.Some?, backward.Some?, Directed(lines, q.reverse), Directed(lineIds, q.reverse), forward, backward,
      if lines != [] then q.info else Some("No matching log lines."));
    PageShowsLines(q, stream, expired, r);
  }

  function PlaceAt(line: LogLine): Option<Place> {
    Some(Place(line.file, line.index))
  }

  lemma ReversedTexts(lines: seq<LogLine>)
    ensures Texts(Reversed(lines)) == Reversed(Texts(lines)) && LineIds(Reversed(lines)) == Reversed(LineIds(lines))
  {
  }
}
