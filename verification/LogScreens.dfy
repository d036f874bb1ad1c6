/** Reading the logs of a run that has ended: from either end and in both directions. */
module LogScreens {
  import opened FutureStates
  import opened LogStreams
  import opened InlineLogs
  import opened LogReader
  import opened LogPages
  import opened LogLineIds

  /** No page of at most `maxLines` lines ever loses a line. */
  ghost predicate AlwaysSplits(maxLines: int) {
    forall v: View, c: Cursor, q: Query, taken: seq<LogLine>, timedOut: bool, r: LogLineResult |
      v.Valid() && CursorOk(v, c) && Readable(v, c) && PageOf(v, c, q, taken, timedOut, r) && q.maxLines == maxLines ::
      Splits(v, q.filters, r)
  }

  const TWO_LINES := [LogFile(1600000000000, ["first", "second"])]

  /** With a limit below one, a page of one line ends the traversal whatever follows. */
  lemma TwoLinesLost(maxLines: int)
    requires maxLines < 1
    ensures !AlwaysSplits(maxLines)
  {
    var v := View(TWO_LINES, false, "run", 0, 2);
    var c := NothingFound([], "run", false);
    var q := Query(false, false, maxLines, [], "run", None, DEFAULT_START_INDEX, None, false);
    var all := v.All();
    assert all == Lines(TWO_LINES[0]) + AllLines([]);
    var taken := [all[0]];
    assert all == [all[0], all[1]];
    MatchingAppend([all[0]], [all[1]], []);
    var r := ResultOf(q, taken, false);
    assert all[0..] == all;
    assert PageOf(v, c, q, taken, false, r);
    assert v.Valid() && CursorOk(v, c) && Readable(v, c);
    assert r.forward.None? && ForwardStart(v, r) == 2;
    PointsAt(v, 0, []);
    assert BackwardEnd(v, r) == 0;
    assert all[0..2] == all && |v.Matches(0, 2, [])| == 2;
    assert |v.Matches(0, 0, [])| == 0 && |v.Matches(2, 2, [])| == 0;
    assert !Splits(v, [], r);
  }

  /** Pages lose nothing if and only if at least one line is asked for. */
  lemma SplitsIff(maxLines: int)
    ensures AlwaysSplits(maxLines) <==> maxLines >= 1
  {
    if maxLines < 1 {
      TwoLinesLost(maxLines);
    } else {
      forall v: View, c: Cursor, q: Query, taken: seq<LogLine>, timedOut: bool, r: LogLineResult |
        v.Valid() && CursorOk(v, c) && Readable(v, c) && PageOf(v, c, q, taken, timedOut, r) && q.maxLines == maxLines
        ensures Splits(v, q.filters, r)
      {
        PageSplits(v, c, q, taken, timedOut, r);
      }
    }
  }

  // ------------------------------------------------------------------- screens

  /** The lines a reader has, and the cursors to go on with at either end. */
  datatype Screen = Screen(lines: seq<string>, backward: Option<Cursor>, forward: Option<Cursor>) {
    function BackwardEnd(v: View): nat {
      if backward.Some? then PlaceOf(v.files, backward.value) else v.lo
    }

    function ForwardStart(v: View): nat {
      if forward.Some? then PlaceOf(v.files, forward.value) else v.hi
    }

    /** The lines on screen are exactly the matching ones between the two cursors. */
    ghost predicate Ok(v: View, filters: seq<string>) {
      && (forward.Some? ==> !forward.value.reverse && forward.value.file.Some? && CursorOk(v, forward.value))
      && (backward.Some? ==> backward.value.reverse && backward.value.file.Some? && CursorOk(v, backward.value))
      && v.lo <= BackwardEnd(v) <= ForwardStart(v) <= v.hi <= |v.All()|
      && v.Matches(v.lo, BackwardEnd(v), filters) + lines + v.Matches(ForwardStart(v), v.hi, filters)
         == v.Matches(v.lo, v.hi, filters)
    }
  }

  /** A page that may be read of a run that has ended. */
  ghost predicate EndedPage(v: View, c: Cursor, filters: seq<string>, r: LogLineResult) {
    exists q: Query, taken: seq<LogLine>, timedOut: bool ::
      PageOf(v, c, q, taken, timedOut, r) && !q.stillRunning && q.maxLines >= 1 && q.filters == filters
  }

  /** The first page, from the start or the end of the logs. */
  ghost predicate OpensWith(v: View, filters: seq<string>, reverse: bool, s: Screen, r: LogLineResult) {
    EndedPage(v, NothingFound(filters, v.runId, reverse), filters, r) && s == Screen(r.lines, r.backward, r.forward)
  }

  ghost predicate Opens(v: View, filters: seq<string>, reverse: bool, s: Screen) {
    exists r: LogLineResult :: OpensWith(v, filters, reverse, s, r)
  }

  ghost predicate NextWith(v: View, filters: seq<string>, s: Screen, t: Screen, r: LogLineResult) {
    && s.forward.Some? && EndedPage(v, s.forward.value, filters, r)
    && t == Screen(s.lines + r.lines, s.backward, r.forward)
  }

  ghost predicate Next(v: View, filters: seq<string>, s: Screen, t: Screen) {
    exists r: LogLineResult :: NextWith(v, filters, s, t, r)
  }

  ghost predicate PreviousWith(v: View, filters: seq<string>, s: Screen, t: Screen, r: LogLineResult) {
    && s.backward.Some? && EndedPage(v, s.backward.value, filters, r)
    && t == Screen(r.lines + s.lines, r.backward, s.forward)
  }

  ghost predicate Previous(v: View, filters: seq<string>, s: Screen, t: Screen) {
    exists r: LogLineResult :: PreviousWith(v, filters, s, t, r)
  }

  /** The screens of a reader who pages about, each from the one before. */
  ghost predicate Scrolled(v: View, filters: seq<string>, reverse: bool, screens: seq<Screen>) {
    && screens != [] && Opens(v, filters, reverse, screens[0])
    && forall i | 0 < i < |screens| ::
         Next(v, filters, screens[i - 1], screens[i]) || Previous(v, filters, screens[i - 1], screens[i])
  }

  /** The view is of the attempt that reading from the start, or the end, of the logs shows. */
  ghost predicate OpenFrom(v: View, reverse: bool) {
    Shown(v.All(), v.inline, v.runId, v.lo, v.hi, reverse)
  }

  lemma OpensOk(v: View, filters: seq<string>, reverse: bool, s: Screen)
    requires v.Valid() && OpenFrom(v, reverse) && Opens(v, filters, reverse, s)
    ensures s.Ok(v, filters)
  {
    var c := NothingFound(filters, v.runId, reverse);
    var r: LogLineResult :| OpensWith(v, filters, reverse, s, r);
    var q: Query, taken: seq<LogLine>, timedOut: bool :|
      PageOf(v, c, q, taken, timedOut, r) && !q.stillRunning && q.maxLines >= 1 && q.filters == filters;
    PageSplits(v, c, q, taken, timedOut, r);
  }

  /** Going on forwards appends a page, and leaves fewer lines ahead or none to ask for. */
  lemma NextOk(v: View, filters: seq<string>, s: Screen, t: Screen)
    requires v.Valid() && s.Ok(v, filters) && Next(v, filters, s, t)
    ensures t.Ok(v, filters) && Unread(v, filters, t) < Unread(v, filters, s)
  {
    var r: LogLineResult :| NextWith(v, filters, s, t, r);
    var c := s.forward.value;
    var q: Query, taken: seq<LogLine>, timedOut: bool :|
      PageOf(v, c, q, taken, timedOut, r) && !q.stillRunning && q.maxLines >= 1 && q.filters == filters;
    PageSplits(v, c, q, taken, timedOut, r);
    NextLines(v, filters, s, t, r);
  }

  lemma NextLines(v: View, filters: seq<string>, s: Screen, t: Screen, r: LogLineResult)
    requires v.Valid() && s.Ok(v, filters) && s.forward.Some? && t == Screen(s.lines + r.lines, s.backward, r.forward)
    requires TokensOk(v, r) && GoesOn(v, s.forward.value, filters, r) && (r.forward.Some? ==> r.lines != [])
    ensures t.Ok(v, filters) && Unread(v, filters, t) < Unread(v, filters, s)
  {
    var before, after := v.Matches(v.lo, s.BackwardEnd(v), filters), v.Matches(t.ForwardStart(v), v.hi, filters);
    assert v.Matches(s.ForwardStart(v), v.hi, filters) == r.lines + after;
    Associative(before, s.lines, r.lines);
    Associative(before + s.lines, r.lines, after);
    assert s.ForwardStart(v) <= t.ForwardStart(v);
  }

  lemma PreviousOk(v: View, filters: seq<string>, s: Screen, t: Screen)
    requires v.Valid() && s.Ok(v, filters) && Previous(v, filters, s, t)
    ensures t.Ok(v, filters) && Unread(v, filters, t) < Unread(v, filters, s)
  {
    var r: LogLineResult :| PreviousWith(v, filters, s, t, r);
    var c := s.backward.value;
    var q: Query, taken: seq<LogLine>, timedOut: bool :|
      PageOf(v, c, q, taken, timedOut, r) && !q.stillRunning && q.maxLines >= 1 && q.filters == filters;
    PageSplits(v, c, q, taken, timedOut, r);
    PreviousLines(v, filters, s, t, r);
  }

  lemma PreviousLines(v: View, filters: seq<string>, s: Screen, t: Screen, r: LogLineResult)
    requires v.Valid() && s.Ok(v, filters) && s.backward.Some? && t == Screen(r.lines + s.lines, r.backward, s.forward)
    requires TokensOk(v, r) && GoesOn(v, s.backward.value, filters, r) && (r.backward.Some? ==> r.lines != [])
    ensures t.Ok(v, filters) && Unread(v, filters, t) < Unread(v, filters, s)
  {
    var before, after := v.Matches(v.lo, t.BackwardEnd(v), filters), v.Matches(s.ForwardStart(v), v.hi, filters);
    assert v.Matches(v.lo, s.BackwardEnd(v), filters) == before + r.lines;
    Associative(before, r.lines, s.lines);
    assert t.BackwardEnd(v) <= s.BackwardEnd(v);
  }

  lemma StepOk(v: View, filters: seq<string>, s: Screen, t: Screen)
    requires v.Valid() && s.Ok(v, filters) && (Next(v, filters, s, t) || Previous(v, filters, s, t))
    ensures t.Ok(v, filters) && Unread(v, filters, t) < Unread(v, filters, s)
  {
    if Next(v, filters, s, t) {
      NextOk(v, filters, s, t);
    } else {
      PreviousOk(v, filters, s, t);
    }
  }

  lemma OkScreen(v: View, filters: seq<string>, s: Screen)
    requires v.Valid() && s.Ok(v, filters)
    ensures s.forward.None? && s.backward.None? ==> s.lines == v.Matches(v.lo, v.hi, filters)
    ensures Unread(v, filters, s) <= |v.Matches(v.lo, v.hi, filters)| + 2
  {
    assert |v.Matches(v.lo, v.lo, filters)| == |v.Matches(v.hi, v.hi, filters)| == 0;
  }

  /** The lines ahead on both sides, and the cursors to ask for them with. */
  function Unread(v: View, filters: seq<string>, s: Screen): nat
    requires v.lo <= s.BackwardEnd(v) <= s.ForwardStart(v) <= v.hi <= |v.All()|
  {
    |v.Matches(v.lo, s.BackwardEnd(v), filters)| + |v.Matches(s.ForwardStart(v), v.hi, filters)|
    + (if s.backward.Some? then 1 else 0) + (if s.forward.Some? then 1 else 0)
  }

  /** However a reader pages about, the lines on screen are the matching lines of one stretch
      of the logs, each once and in order; when there is nowhere left to go, these are all of
      them, and that point comes after at most as many steps as there are matching lines and
      two more. */
  lemma {:induction false} ScrollingLosesNothing(v: View, filters: seq<string>, reverse: bool, screens: seq<Screen>)
    requires v.Valid() && OpenFrom(v, reverse) && Scrolled(v, filters, reverse, screens)
    ensures var s := screens[|screens| - 1];
            && s.Ok(v, filters)
            && (s.forward.None? && s.backward.None? ==> s.lines == v.Matches(v.lo, v.hi, filters))
            && |screens| - 1 + Unread(v, filters, s) <= |v.Matches(v.lo, v.hi, filters)| + 2
    decreases |screens|
  {
    var last := |screens| - 1;
    if last == 0 {
      OpensOk(v, filters, reverse, screens[0]);
    } else {
      ScrolledBefore(v, filters, reverse, screens);
      ScrollingLosesNothing(v, filters, reverse, screens[..last]);
      StepOk(v, filters, screens[last - 1], screens[last]);
    }
    OkScreen(v, filters, screens[last]);
  }

  lemma ScrolledBefore(v: View, filters: seq<string>, reverse: bool, screens: seq<Screen>)
    requires Scrolled(v, filters, reverse, screens) && |screens| > 1
    ensures var last := |screens| - 1;
            && Scrolled(v, filters, reverse, screens[..last])
            && (Next(v, filters, screens[last - 1], screens[last])
                || Previous(v, filters, screens[last - 1], screens[last]))
  {
    var before := screens[..|screens| - 1];
    forall i | 0 < i < |before|
      ensures Next(v, filters, before[i - 1], before[i]) || Previous(v, filters, before[i - 1], before[i])
    {
      assert before[i - 1] == screens[i - 1] && before[i] == screens[i];
    }
  }

  // ------------------------------------------------------------------- pruning

  function SetOf(ids: seq<int>): set<int> {
    set x | x in ids
  }

  /** The first `k` lines without those whose id is known, or came before. */
  function Pruned(known: set<int>, lines: seq<string>, ids: seq<int>, k: nat): seq<string>
    requires k <= |lines| == |ids|
  {
    if k == 0 then []
    else Pruned(known, lines, ids, k - 1) + if ids[k - 1] in known + SetOf(ids[..k - 1]) then [] else [lines[k - 1]]
  }

  /** `pruneLines`: drops lines whose id was seen before, and remembers the ids of the others. */
  method PruneLines(known: set<int>, lines: seq<string>, ids: seq<int>)
    returns (added: Option<seq<string>>, seen: set<int>)
    ensures added.None? <==> |lines| != |ids|
    ensures added.Some? ==> added.value == Pruned(known, lines, ids, |lines|) && seen == known + SetOf(ids)
  {
    seen := known;
    if |lines| != |ids| {
      return None, seen;
    }
    var kept := [];
    for k := 0 to |lines|
      invariant kept == Pruned(known, lines, ids, k) && seen == known + SetOf(ids[..k])
    {
      assert ids[..k + 1] == ids[..k] + [ids[k]];
      if ids[k] !in seen {
        kept := kept + [lines[k]];
        seen := seen + {ids[k]};
      }
    }
    assert ids[..|ids|] == ids;
    added := Some(kept);
  }

  lemma {:induction false} NothingPruned(known: set<int>, lines: seq<string>, ids: seq<int>, k: nat)
    requires k <= |lines| == |ids|
    requires forall i, j | 0 <= i < j < |ids| :: ids[i] != ids[j]
    requires forall i | 0 <= i < |ids| :: ids[i] !in known
    ensures Pruned(known, lines, ids, k) == lines[..k]
    decreases k
  {
    if k > 0 {
      NothingPruned(known, lines, ids, k - 1);
    }
  }

  /** What the user interface holds: the lines shown, and the ids of lines seen. */
  datatype Hook = Hook(lines: seq<string>, ids: set<int>)

  function Appended(h: Hook, r: LogLineResult): Hook
    requires |r.lines| == |r.lineIds|
  {
    Hook(h.lines + Pruned(h.ids, r.lines, r.lineIds, |r.lines|), h.ids + SetOf(r.lineIds))
  }

  function Prepended(h: Hook, r: LogLineResult): Hook
    requires |r.lines| == |r.lineIds|
  {
    Hook(Pruned(h.ids, r.lines, r.lineIds, |r.lines|) + h.lines, h.ids + SetOf(r.lineIds))
  }

  ghost predicate HookOpens(v: View, filters: seq<string>, reverse: bool, s: Screen, h: Hook) {
    exists r: LogLineResult :: OpensWith(v, filters, reverse, s, r) && h == Hook(r.lines, SetOf(r.lineIds))
  }

  ghost predicate HookNext(v: View, filters: seq<string>, s: Screen, t: Screen, h: Hook, h': Hook) {
    exists r: LogLineResult :: NextWith(v, filters, s, t, r) && |r.lines| == |r.lineIds| && h' == Appended(h, r)
  }

  ghost predicate HookPrevious(v: View, filters: seq<string>, s: Screen, t: Screen, h: Hook, h': Hook) {
    exists r: LogLineResult :: PreviousWith(v, filters, s, t, r) && |r.lines| == |r.lineIds| && h' == Prepended(h, r)
  }

  /** The screens of a reader who pages about, and what the user interface holds meanwhile. */
  ghost predicate Shows(v: View, filters: seq<string>, reverse: bool, screens: seq<Screen>, hooks: seq<Hook>) {
    && screens != [] && |hooks| == |screens| && HookOpens(v, filters, reverse, screens[0], hooks[0])
    && forall i | 0 < i < |screens| ::
         || HookNext(v, filters, screens[i - 1], screens[i], hooks[i - 1], hooks[i])
         || HookPrevious(v, filters, screens[i - 1], screens[i], hooks[i - 1], hooks[i])
  }

  lemma {:induction false} MatchAt(all: seq<LogLine>, from: nat, to: nat, filters: seq<string>, j: nat) returns (p: nat)
    requires from <= to <= |all| && j < |MatchesIn(all, from, to, filters)|
    ensures from <= p < to && all[p] == MatchesIn(all, from, to, filters)[j]
  {
    p := StartIn(all, from, to, filters, j);
  }

  /** The ids of matching lines increase as those of all lines do. */
  lemma {:induction false} MatchingIdsIncrease(all: seq<LogLine>, from: nat, to: nat, filters: seq<string>, i: nat,
      j: nat)
    requires IdsIncrease(all) && from <= to <= |all| && i < j < |MatchesIn(all, from, to, filters)|
    ensures LineIds(MatchesIn(all, from, to, filters))[i] < LineIds(MatchesIn(all, from, to, filters))[j]
    decreases Gap(from, to)
  {
    var n, rest := |Pick(all[from], filters)|, MatchesIn(all, from + 1, to, filters);
    if n <= i {
      MatchingIdsIncrease(all, from + 1, to, filters, i - n, j - n);
    } else {
      var p := MatchAt(all, from + 1, to, filters, j - n);
      assert IdOf(all[from]) < IdOf(all[p]);
    }
  }

  /** Lines of different stretches have different ids. */
  lemma {:induction false} StretchesApart(all: seq<LogLine>, from: nat, mid: nat, to: nat, filters: seq<string>)
    requires IdsIncrease(all) && from <= mid <= to <= |all|
    ensures SetOf(LineIds(MatchesIn(all, from, mid, filters))) !! SetOf(LineIds(MatchesIn(all, mid, to, filters)))
  {
    var a, b := MatchesIn(all, from, mid, filters), MatchesIn(all, mid, to, filters);
    forall i, j | 0 <= i < |a| && 0 <= j < |b| ensures LineIds(a)[i] < LineIds(b)[j] {
      var p := MatchAt(all, from, mid, filters, i);
      var q := MatchAt(all, mid, to, filters, j);
      assert IdOf(all[p]) < IdOf(all[q]);
    }
  }

  /** Lines that lie apart from those on screen are not pruned. */
  lemma {:induction false} StretchNotPruned(v: View, filters: seq<string>, known: set<int>, from: nat, to: nat,
      lines: seq<string>, ids: seq<int>)
    requires from <= to <= |v.All()| && IdsIncrease(v.All()) && ids == v.Ids(from, to, filters) && |lines| == |ids|
    requires known !! SetOf(ids)
    ensures Pruned(known, lines, ids, |lines|) == lines
  {
    forall i, j | 0 <= i < j < |ids| ensures ids[i] != ids[j] {
      MatchingIdsIncrease(v.All(), from, to, filters, i, j);
    }
    forall i | 0 <= i < |ids| ensures ids[i] !in known {
      assert ids[i] in SetOf(ids);
    }
    NothingPruned(known, lines, ids, |lines|);
  }

  ghost predicate HookOk(v: View, filters: seq<string>, s: Screen, h: Hook) {
    && s.Ok(v, filters) && h.lines == s.lines
    && h.ids == SetOf(v.Ids(s.BackwardEnd(v), s.ForwardStart(v), filters))
  }

  lemma IdsSplit(v: View, from: nat, mid: nat, to: nat, filters: seq<string>)
    requires from <= mid <= to <= |v.All()|
    ensures v.Ids(from, to, filters) == v.Ids(from, mid, filters) + v.Ids(mid, to, filters)
    ensures SetOf(v.Ids(from, to, filters)) == SetOf(v.Ids(from, mid, filters)) + SetOf(v.Ids(mid, to, filters))
  {
    InSplit(v.All(), from, mid, to, filters);
    IdsAppend(MatchesIn(v.All(), from, mid, filters), MatchesIn(v.All(), mid, to, filters));
  }

  lemma Cancel(a: seq<int>, x: seq<int>, y: seq<int>, b: seq<int>)
    requires a + x + b == a + y + b
    ensures x == y
  {
    assert |x| == |y|;
    assert x == (a + x + b)[|a|..|a| + |x|] == (a + y + b)[|a|..|a| + |y|] == y;
  }

  lemma PageIds(v: View, c: Cursor, filters: seq<string>, r: LogLineResult)
    requires v.Valid() && CursorOk(v, c) && Readable(v, c) && EndedPage(v, c, filters, r)
    ensures GoesOn(v, c, filters, r) && IdsGoOn(v, c, filters, r)
    ensures r.lineIds == v.Ids(BackwardEnd(v, r), ForwardStart(v, r), filters)
  {
    var q: Query, taken: seq<LogLine>, timedOut: bool :|
      PageOf(v, c, q, taken, timedOut, r) && !q.stillRunning && q.maxLines >= 1 && q.filters == filters;
    PageSplits(v, c, q, taken, timedOut, r);
    var b, f := BackwardEnd(v, r), ForwardStart(v, r);
    IdsSplit(v, v.lo, b, v.hi, filters);
    IdsSplit(v, b, f, v.hi, filters);
    Associative(v.Ids(v.lo, b, filters), v.Ids(b, f, filters), v.Ids(f, v.hi, filters));
    Cancel(v.Ids(v.lo, b, filters), r.lineIds, v.Ids(b, f, filters), v.Ids(f, v.hi, filters));
  }

  lemma OpensShown(v: View, filters: seq<string>, reverse: bool, s: Screen, h: Hook)
    requires v.Valid() && OpenFrom(v, reverse) && HookOpens(v, filters, reverse, s, h)
    ensures Opens(v, filters, reverse, s) && HookOk(v, filters, s, h)
  {
    var r: LogLineResult :| OpensWith(v, filters, reverse, s, r) && h == Hook(r.lines, SetOf(r.lineIds));
    OpensOk(v, filters, reverse, s);
    PageIds(v, NothingFound(filters, v.runId, reverse), filters, r);
  }

  lemma SameStart(x: seq<int>, y: seq<int>, b: seq<int>)
    requires x + b == y + b
    ensures x == y
  {
    assert |x| == |y|;
    assert x == (x + b)[..|x|] == (y + b)[..|y|] == y;
  }

  lemma SameEnd(a: seq<int>, x: seq<int>, y: seq<int>)
    requires a + x == a + y
    ensures x == y
  {
    assert x == (a + x)[|a|..] == (a + y)[|a|..] == y;
  }

  /** The ids of the next page are those of the lines between the two forward cursors. */
  lemma NextIds(v: View, filters: seq<string>, s: Screen, t: Screen, r: LogLineResult)
    requires v.Valid() && s.Ok(v, filters) && NextWith(v, filters, s, t, r)
    ensures v.lo <= s.BackwardEnd(v) <= s.ForwardStart(v) <= t.ForwardStart(v) <= v.hi <= |v.All()|
    ensures |r.lines| == |r.lineIds| && r.lineIds == v.Ids(s.ForwardStart(v), t.ForwardStart(v), filters)
  {
    PageIds(v, s.forward.value, filters, r);
    assert t.ForwardStart(v) == ForwardStart(v, r);
    NextBetween(v, filters, s.ForwardStart(v), t.ForwardStart(v), r.lineIds);
  }

  lemma NextBetween(v: View, filters: seq<string>, b: nat, c: nat, ids: seq<int>)
    requires b <= c <= v.hi <= |v.All()| && v.Ids(b, v.hi, filters) == ids + v.Ids(c, v.hi, filters)
    ensures ids == v.Ids(b, c, filters)
  {
    IdsSplit(v, b, c, v.hi, filters);
    SameStart(ids, v.Ids(b, c, filters), v.Ids(c, v.hi, filters));
  }

  lemma PreviousIds(v: View, filters: seq<string>, s: Screen, t: Screen, r: LogLineResult)
    requires v.Valid() && s.Ok(v, filters) && PreviousWith(v, filters, s, t, r)
    ensures v.lo <= t.BackwardEnd(v) <= s.BackwardEnd(v) <= s.ForwardStart(v) <= v.hi <= |v.All()|
    ensures |r.lines| == |r.lineIds| && r.lineIds == v.Ids(t.BackwardEnd(v), s.BackwardEnd(v), filters)
  {
    PageIds(v, s.backward.value, filters, r);
    PreviousStretch(v, filters, s, t, r);
  }

  lemma PreviousStretch(v: View, filters: seq<string>, s: Screen, t: Screen, r: LogLineResult)
    requires s.Ok(v, filters) && s.backward.Some? && t.BackwardEnd(v) == BackwardEnd(v, r)
    requires IdsGoOn(v, s.backward.value, filters, r)
    ensures v.lo <= t.BackwardEnd(v) <= s.BackwardEnd(v) <= |v.All()| && |r.lines| == |r.lineIds|
    ensures r.lineIds == v.Ids(t.BackwardEnd(v), s.BackwardEnd(v), filters)
  {
    PreviousBetween(v, filters, t.BackwardEnd(v), s.BackwardEnd(v), r.lineIds);
  }

  lemma PreviousBetween(v: View, filters: seq<string>, a: nat, b: nat, ids: seq<int>)
    requires v.lo <= a <= b <= |v.All()| && v.Ids(v.lo, b, filters) == v.Ids(v.lo, a, filters) + ids
    ensures ids == v.Ids(a, b, filters)
  {
    IdsSplit(v, v.lo, a, b, filters);
    SameEnd(v.Ids(v.lo, a, filters), ids, v.Ids(a, b, filters));
  }

  lemma {:induction false} NothingDropped(v: View, filters: seq<string>, a: nat, b: nat, c: nat, h: Hook,
      lines: seq<string>, ids: seq<int>, forward: bool)
    requires a <= b <= c <= |v.All()| && IdsIncrease(v.All()) && |lines| == |ids|
    requires h.ids == SetOf(if forward then v.Ids(a, b, filters) else v.Ids(b, c, filters))
    requires ids == if forward then v.Ids(b, c, filters) else v.Ids(a, b, filters)
    ensures Pruned(h.ids, lines, ids, |lines|) == lines && h.ids + SetOf(ids) == SetOf(v.Ids(a, c, filters))
  {
    StretchesApart(v.All(), a, b, c, filters);
    StretchNotPruned(v, filters, h.ids, if forward then b else a, if forward then c else b, lines, ids);
    IdsSplit(v, a, b, c, filters);
  }

  lemma {:induction false} NextShown(v: View, filters: seq<string>, s: Screen, t: Screen, h: Hook, h': Hook)
    requires v.Valid() && IdsIncrease(v.All()) && HookOk(v, filters, s, h) && HookNext(v, filters, s, t, h, h')
    ensures Next(v, filters, s, t) && HookOk(v, filters, t, h')
  {
    var r: LogLineResult :| NextWith(v, filters, s, t, r) && |r.lines| == |r.lineIds| && h' == Appended(h, r);
    NextOk(v, filters, s, t);
    NextIds(v, filters, s, t, r);
    NothingDropped(v, filters, s.BackwardEnd(v), s.ForwardStart(v), t.ForwardStart(v), h, r.lines, r.lineIds, true);
  }

  lemma {:induction false} PreviousShown(v: View, filters: seq<string>, s: Screen, t: Screen, h: Hook, h': Hook)
    requires v.Valid() && IdsIncrease(v.All()) && HookOk(v, filters, s, h) && HookPrevious(v, filters, s, t, h, h')
    ensures Previous(v, filters, s, t) && HookOk(v, filters, t, h')
  {
    var r: LogLineResult :| PreviousWith(v, filters, s, t, r) && |r.lines| == |r.lineIds| && h' == Prepended(h, r);
    PreviousOk(v, filters, s, t);
    PreviousIds(v, filters, s, t, r);
    NothingDropped(v, filters, t.BackwardEnd(v), s.BackwardEnd(v), s.ForwardStart(v), h, r.lines, r.lineIds, false);
  }

  lemma {:induction false} StepShown(v: View, filters: seq<string>, s: Screen, t: Screen, h: Hook, h': Hook)
    requires v.Valid() && IdsIncrease(v.All()) && HookOk(v, filters, s, h)
    requires HookNext(v, filters, s, t, h, h') || HookPrevious(v, filters, s, t, h, h')
    ensures (Next(v, filters, s, t) || Previous(v, filters, s, t)) && HookOk(v, filters, t, h')
  {
    if HookNext(v, filters, s, t, h, h') {
      NextShown(v, filters, s, t, h, h');
    } else {
      PreviousShown(v, filters, s, t, h, h');
    }
  }

  lemma {:induction false} ShownAt(v: View, filters: seq<string>, reverse: bool, screens: seq<Screen>,
      hooks: seq<Hook>, k: nat)
    requires v.Valid() && OpenFrom(v, reverse) && IdsIncrease(v.All()) && Shows(v, filters, reverse, screens, hooks)
    requires k < |screens|
    ensures HookOk(v, filters, screens[k], hooks[k])
    ensures if k == 0 then Opens(v, filters, reverse, screens[0])
            else Next(v, filters, screens[k - 1], screens[k]) || Previous(v, filters, screens[k - 1], screens[k])
    decreases k
  {
    if k == 0 {
      OpensShown(v, filters, reverse, screens[0], hooks[0]);
    } else {
      ShownAt(v, filters, reverse, screens, hooks, k - 1);
      StepShown(v, filters, screens[k - 1], screens[k], hooks[k - 1], hooks[k]);
    }
  }

  /** Pruning by ids drops no line, however a reader pages about, if files are spaced: what the
      user interface shows is what the pages have. */
  lemma {:induction false} PruningDropsNothing(v: View, filters: seq<string>, reverse: bool, screens: seq<Screen>,
      hooks: seq<Hook>)
    requires v.Valid() && OpenFrom(v, reverse) && Spaced(v.files) && Shows(v, filters, reverse, screens, hooks)
    ensures Scrolled(v, filters, reverse, screens)
    ensures forall k | 0 <= k < |screens| :: hooks[k].lines == screens[k].lines
  {
    LineIdsIncreaseIff(v.files);
    forall k | 0 <= k < |screens|
      ensures hooks[k].lines == screens[k].lines
      ensures if k == 0 then Opens(v, filters, reverse, screens[0])
              else Next(v, filters, screens[k - 1], screens[k]) || Previous(v, filters, screens[k - 1], screens[k])
    {
      ShownAt(v, filters, reverse, screens, hooks, k);
    }
  }
}
