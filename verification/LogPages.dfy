/** Pages split the matching lines of a run: none is lost and none is read twice. */
module LogPages {
  import opened FutureStates
  import opened LogStreams
  import opened InlineLogs
  import opened LogReader

  // ------------------------------------------------------------------ matching

  lemma {:induction false} MatchingAppend(a: seq<LogLine>, b: seq<LogLine>, filters: seq<string>)
    ensures Matching(a + b, filters) == Matching(a, filters) + Matching(b, filters)
    decreases |a|
  {
    if a == [] {
      assert a + b == b;
    } else {
      MatchingAppend(a[1..], b, filters);
      assert (a + b)[0] == a[0] && (a + b)[1..] == a[1..] + b;
      Associative(Pick(a[0], filters), Matching(a[1..], filters), Matching(b, filters));
    }
  }

  lemma {:induction false} MatchingReversed(s: seq<LogLine>, filters: seq<string>)
    ensures Matching(Reversed(s), filters) == Reversed(Matching(s, filters))
    decreases |s|
  {
    if s != [] {
      MatchingReversed(s[1..], filters);
      assert Reversed(s) == Reversed(s[1..]) + [s[0]];
      MatchingAppend(Reversed(s[1..]), [s[0]], filters);
      var head := Pick(s[0], filters);
      assert Matching([s[0]], filters) == head;
      ReversedAppend(head, Matching(s[1..], filters));
      assert Reversed(head) == head;
    }
  }

  function Gap(from: nat, to: nat): nat {
    if from <= to then to - from else 0
  }

  /** The matching lines from one place to another. */
  function MatchesIn(all: seq<LogLine>, from: nat, to: nat, filters: seq<string>): seq<LogLine>
    requires from <= to <= |all|
    decreases Gap(from, to)
  {
    if from == to then [] else Pick(all[from], filters) + MatchesIn(all, from + 1, to, filters)
  }

  lemma {:induction false} MatchingIs(all: seq<LogLine>, from: nat, to: nat, filters: seq<string>)
    requires from <= to <= |all|
    ensures Matching(all[from..to], filters) == MatchesIn(all, from, to, filters)
    decreases Gap(from, to)
  {
    if from < to {
      MatchingIs(all, from + 1, to, filters);
      assert all[from..to][0] == all[from] && all[from..to][1..] == all[from + 1..to];
    }
  }

  /** What a stream of these lines in either direction matches. */
  lemma MatchingDirected(all: seq<LogLine>, from: nat, to: nat, filters: seq<string>, reverse: bool)
    requires from <= to <= |all|
    ensures Matching(Directed(all[from..to], reverse), filters) == Directed(MatchesIn(all, from, to, filters), reverse)
  {
    MatchingIs(all, from, to, filters);
    MatchingReversed(all[from..to], filters);
  }

  lemma {:induction false} InSplit(all: seq<LogLine>, from: nat, mid: nat, to: nat, filters: seq<string>)
    requires from <= mid <= to <= |all|
    ensures MatchesIn(all, from, to, filters) == MatchesIn(all, from, mid, filters) + MatchesIn(all, mid, to, filters)
    decreases Gap(from, mid)
  {
    if from < mid {
      InSplit(all, from + 1, mid, to, filters);
      Associative(Pick(all[from], filters), MatchesIn(all, from + 1, mid, filters), MatchesIn(all, mid, to, filters));
    }
  }

  /** The place of the `j`-th matching line. */
  lemma {:induction false} StartIn(all: seq<LogLine>, from: nat, to: nat, filters: seq<string>, j: nat) returns (p: nat)
    requires from <= to <= |all| && j < |MatchesIn(all, from, to, filters)|
    ensures from <= p < to && all[p] == MatchesIn(all, from, to, filters)[j] && PassesFilter(all[p], filters)
    ensures MatchesIn(all, from, p, filters) == MatchesIn(all, from, to, filters)[..j]
    ensures MatchesIn(all, p, to, filters) == MatchesIn(all, from, to, filters)[j..]
    decreases Gap(from, to)
  {
    var n := |Pick(all[from], filters)|;
    if j < n {
      p := from;
    } else {
      p := StartIn(all, from + 1, to, filters, j - n);
    }
  }

  /** The place after the first `k` matching lines, the last of which is just before it. */
  lemma CutIn(all: seq<LogLine>, from: nat, to: nat, filters: seq<string>, k: nat) returns (p: nat)
    requires from <= to <= |all| && 1 <= k <= |MatchesIn(all, from, to, filters)|
    ensures from < p <= to && all[p - 1] == MatchesIn(all, from, to, filters)[k - 1]
    ensures MatchesIn(all, from, p, filters) == MatchesIn(all, from, to, filters)[..k]
    ensures MatchesIn(all, p, to, filters) == MatchesIn(all, from, to, filters)[k..]
  {
    var q := StartIn(all, from, to, filters, k - 1);
    var m := MatchesIn(all, from, to, filters);
    p := q + 1;
    assert MatchesIn(all, q, to, filters) == [all[q]] + MatchesIn(all, p, to, filters);
    assert MatchesIn(all, q, p, filters) == [all[q]] + MatchesIn(all, p, p, filters);
    InSplit(all, from, q, p, filters);
    assert m[k - 1..][1..] == m[k..] && m[..k] == m[..k - 1] + [m[k - 1]];
  }

  lemma TextsAppend(a: seq<LogLine>, b: seq<LogLine>)
    ensures Texts(a + b) == Texts(a) + Texts(b)
  {
  }

  // --------------------------------------------------------------------- views

  /** The logs a run's lines are read from, and the window that holds them. */
  datatype View = View(files: seq<LogFile>, inline: bool, runId: string, lo: nat, hi: nat) {
    function All(): seq<LogLine> {
      AllLines(files)
    }

    ghost predicate Valid() {
      ByStamp(files) && Directory(files) && Window(All(), inline, runId, lo, hi)
    }

    /** The texts of the matching lines from one place to another. */
    function Matches(from: nat, to: nat, filters: seq<string>): seq<string>
      requires from <= to <= |All()|
    {
      Texts(MatchesIn(All(), from, to, filters))
    }

    /** Their ids. */
    function Ids(from: nat, to: nat, filters: seq<string>): seq<int>
      requires from <= to <= |All()|
    {
      LineIds(MatchesIn(All(), from, to, filters))
    }
  }

  lemma MatchesSplit(v: View, from: nat, mid: nat, to: nat, filters: seq<string>)
    requires from <= mid <= to <= |v.All()|
    ensures v.Matches(from, to, filters) == v.Matches(from, mid, filters) + v.Matches(mid, to, filters)
  {
    InSplit(v.All(), from, mid, to, filters);
    TextsAppend(MatchesIn(v.All(), from, mid, filters), MatchesIn(v.All(), mid, to, filters));
  }

  function PlaceOf(files: seq<LogFile>, c: Cursor): (r: nat)
    ensures r <= |AllLines(files)|
  {
    StartPlace(files, c.file, Some(c.index), c.reverse)
  }

  /** A cursor nothing was read with yet, or one that points between the lines of the run. */
  ghost predicate CursorOk(v: View, c: Cursor) {
    && c.runId == v.runId
    && if c.file.None? then c == NothingFound(c.filters, c.runId, c.reverse)
       else
         && HasFile(v.files, c.file.value) && c.hadLines && v.lo <= PlaceOf(v.files, c) <= v.hi
         && (v.inline ==> Attempt(v.All(), v.runId, v.lo, v.hi))
  }

  /** A first request shows the attempt the view is of. */
  ghost predicate Readable(v: View, c: Cursor) {
    c.file.None? ==> Shown(v.All(), v.inline, v.runId, v.lo, v.hi, c.reverse)
  }

  lemma CursorPlace(v: View, c: Cursor)
    requires v.Valid() && CursorOk(v, c) && Readable(v, c)
    ensures PlaceOk(v.All(), v.inline, v.runId, v.lo, v.hi, PlaceOf(v.files, c), c.hadLines, c.reverse)
  {
    if c.file.None? && v.files != [] {
      OffsetAt(v.files, if c.reverse then |v.files| - 1 else 0, c.index);
      if c.reverse {
        AllAround(v.files, |v.files| - 1);
        assert v.files[|v.files|..] == [];
      } else {
        assert v.files[..0] == [];
      }
    }
  }

  /** The lines still to be read with a cursor. */
  function Ahead(v: View, c: Cursor): (r: (nat, nat))
    requires v.lo <= v.hi <= |v.All()|
    ensures r.0 <= r.1 <= |v.All()|
  {
    var place := PlaceOf(v.files, c);
    if c.reverse then (v.lo, Max(v.lo, Min(place, v.hi))) else (Min(v.hi, Max(place, v.lo)), v.hi)
  }

  /** `r` is a page that may be read with cursor `c`. */
  ghost predicate PageOf(v: View, c: Cursor, q: Query, taken: seq<LogLine>, timedOut: bool, r: LogLineResult) {
    && q.cursorFile == c.file && q.cursorIndex == c.index && q.hadLines == c.hadLines
    && q.runId == c.runId && q.reverse == c.reverse
    && Takes(q, Visible(v.All(), v.inline, v.runId, PlaceOf(v.files, c), c.hadLines, c.reverse), taken, timedOut)
    && r == ResultOf(q, taken, timedOut)
  }

  /** Where the lines before, and after, a page end, or begin: at the cursor to go on with, or
      if there is none at the end of the run's lines. */
  function BackwardEnd(v: View, r: LogLineResult): nat {
    if r.backward.Some? then PlaceOf(v.files, r.backward.value) else v.lo
  }

  function ForwardStart(v: View, r: LogLineResult): nat {
    if r.forward.Some? then PlaceOf(v.files, r.forward.value) else v.hi
  }

  /** The page and the lines on both sides of it are the matching lines, each once. */
  ghost predicate Splits(v: View, filters: seq<string>, r: LogLineResult) {
    && v.lo <= BackwardEnd(v, r) <= ForwardStart(v, r) <= v.hi <= |v.All()|
    && v.Matches(v.lo, BackwardEnd(v, r), filters) + r.lines + v.Matches(ForwardStart(v, r), v.hi, filters)
       == v.Matches(v.lo, v.hi, filters)
  }

  /** The page comes first of what the cursor had ahead of it, and the rest follows. */
  ghost predicate GoesOn(v: View, c: Cursor, filters: seq<string>, r: LogLineResult)
    requires v.lo <= v.hi <= |v.All()|
  {
    && v.lo <= BackwardEnd(v, r) <= ForwardStart(v, r) <= v.hi
    && var (from, to) := Ahead(v, c);
       if c.reverse
       then BackwardEnd(v, r) <= to
            && v.Matches(from, to, filters) == v.Matches(v.lo, BackwardEnd(v, r), filters) + r.lines
       else from <= ForwardStart(v, r)
            && v.Matches(from, to, filters) == r.lines + v.Matches(ForwardStart(v, r), v.hi, filters)
  }

  /** The ids of a page are those of its lines. */
  ghost predicate IdsGoOn(v: View, c: Cursor, filters: seq<string>, r: LogLineResult)
    requires v.lo <= v.hi <= |v.All()|
  {
    && v.lo <= BackwardEnd(v, r) <= ForwardStart(v, r) <= v.hi && |r.lineIds| == |r.lines|
    && v.Ids(v.lo, BackwardEnd(v, r), filters) + r.lineIds + v.Ids(ForwardStart(v, r), v.hi, filters)
       == v.Ids(v.lo, v.hi, filters)
    && var (from, to) := Ahead(v, c);
       if c.reverse
       then BackwardEnd(v, r) <= to && v.Ids(from, to, filters) == v.Ids(v.lo, BackwardEnd(v, r), filters) + r.lineIds
       else from <= ForwardStart(v, r)
            && v.Ids(from, to, filters) == r.lineIds + v.Ids(ForwardStart(v, r), v.hi, filters)
  }

  ghost predicate TokensOk(v: View, r: LogLineResult) {
    && (r.forward.Some? ==> !r.forward.value.reverse && r.forward.value.file.Some? && CursorOk(v, r.forward.value))
    && (r.backward.Some? ==> r.backward.value.reverse && r.backward.value.file.Some? && CursorOk(v, r.backward.value))
  }

  // ----------------------------------------------------------- the page theorem

  /** The lines of the page are the matching ones of `first..after`, at the near end of what
      the cursor had ahead of it. */
  ghost predicate Covers(v: View, c: Cursor, filters: seq<string>, lines: seq<LogLine>, first: nat, after: nat)
    requires v.lo <= v.hi <= |v.All()|
  {
    var all := v.All();
    var (from, to) := Ahead(v, c);
    && v.lo <= first <= after <= v.hi && (if c.reverse then first <= to else from <= after)
    && if c.reverse
       then MatchesIn(all, after, v.hi, filters) == MatchesIn(all, to, v.hi, filters)
            && MatchesIn(all, v.lo, to, filters) == MatchesIn(all, v.lo, first, filters) + lines
       else MatchesIn(all, v.lo, first, filters) == MatchesIn(all, v.lo, from, filters)
            && MatchesIn(all, from, v.hi, filters) == lines + MatchesIn(all, after, v.hi, filters)
  }

  /** The stream of a page, in the order of time, is what the cursor has ahead of it. */
  lemma StreamIs(v: View, c: Cursor, filters: seq<string>)
    requires v.Valid() && CursorOk(v, c) && Readable(v, c)
    ensures Matching(Visible(v.All(), v.inline, v.runId, PlaceOf(v.files, c), c.hadLines, c.reverse), filters)
         == Directed(MatchesIn(v.All(), Ahead(v, c).0, Ahead(v, c).1, filters), c.reverse)
  {
    MatchingDirected(v.All(), Ahead(v, c).0, Ahead(v, c).1, filters, c.reverse);
    CursorPlace(v, c);
    VisibleIsInWindow(v.All(), v.inline, v.runId, v.lo, v.hi, PlaceOf(v.files, c), c.hadLines, c.reverse);
  }

  /** Where the first `k` matching lines are. */
  lemma ForwardCovers(all: seq<LogLine>, from: nat, to: nat, filters: seq<string>, k: nat) returns (first: nat,
      after: nat)
    requires from <= to <= |all| && 1 <= k <= |MatchesIn(all, from, to, filters)|
    ensures var m := MatchesIn(all, from, to, filters);
            && from <= first < after <= to && all[first] == m[0] && all[after - 1] == m[k - 1]
            && MatchesIn(all, from, first, filters) == [] && MatchesIn(all, after, to, filters) == m[k..]
  {
    first := StartIn(all, from, to, filters, 0);
    after := CutIn(all, from, to, filters, k);
    if after <= first {
      InSplit(all, from, after, first, filters);
    }
  }

  /** Where the last `k` matching lines are. */
  lemma BackwardCovers(all: seq<LogLine>, from: nat, to: nat, filters: seq<string>,
      k: nat) returns (first: nat, after: nat)
    requires from <= to <= |all| && 1 <= k <= |MatchesIn(all, from, to, filters)|
    ensures var m := MatchesIn(all, from, to, filters);
            && from <= first < after <= to && all[first] == m[|m| - k] && all[after - 1] == m[|m| - 1]
            && MatchesIn(all, from, first, filters) == m[..|m| - k] && MatchesIn(all, after, to, filters) == []
  {
    var n := |MatchesIn(all, from, to, filters)|;
    first := StartIn(all, from, to, filters, n - k);
    after := CutIn(all, from, to, filters, n);
    if after <= first {
      InSplit(all, after, first, to, filters);
    }
  }

  /** Where the lines of a page are. */
  lemma PageCoversForward(v: View, c: Cursor, filters: seq<string>, taken: seq<LogLine>) returns (first: nat,
      after: nat)
    requires v.Valid() && CursorOk(v, c) && taken != [] && !c.reverse
    requires taken <= Directed(MatchesIn(v.All(), Ahead(v, c).0, Ahead(v, c).1, filters), c.reverse)
    ensures first < after <= |v.All()| && Covers(v, c, filters, Directed(taken, c.reverse), first, after)
    ensures v.All()[first] == Earliest(taken, c.reverse) && v.All()[after - 1] == Latest(taken, c.reverse)
  {
    var (from, to) := Ahead(v, c);
    first, after := ForwardTaken(v.All(), v.lo, from, to, filters, taken);
  }

  /** The first matching lines are in one stretch, and none is before it. */
  lemma {:induction false} ForwardTaken(all: seq<LogLine>, lo: nat, from: nat, to: nat, filters: seq<string>,
      taken: seq<LogLine>) returns (first: nat, after: nat)
    requires lo <= from <= to <= |all| && taken != [] && taken <= MatchesIn(all, from, to, filters)
    ensures from <= first < after <= to && all[first] == taken[0] && all[after - 1] == taken[|taken| - 1]
    ensures MatchesIn(all, lo, first, filters) == MatchesIn(all, lo, from, filters)
    ensures MatchesIn(all, from, to, filters) == taken + MatchesIn(all, after, to, filters)
  {
    var m := MatchesIn(all, from, to, filters);
    first, after := ForwardCovers(all, from, to, filters, |taken|);
    InSplit(all, lo, from, first, filters);
    assert m == taken + m[|taken|..];
  }

  lemma PageCoversBackward(v: View, c: Cursor, filters: seq<string>, taken: seq<LogLine>) returns (first: nat,
      after: nat)
    requires v.Valid() && CursorOk(v, c) && taken != [] && c.reverse
    requires taken <= Directed(MatchesIn(v.All(), Ahead(v, c).0, Ahead(v, c).1, filters), c.reverse)
    ensures first < after <= |v.All()| && Covers(v, c, filters, Directed(taken, c.reverse), first, after)
    ensures v.All()[first] == Earliest(taken, c.reverse) && v.All()[after - 1] == Latest(taken, c.reverse)
  {
    var (from, to) := Ahead(v, c);
    var m := MatchesIn(v.All(), from, to, filters);
    TakenLast(m, taken);
    first, after := BackwardCovers(v.All(), from, to, filters, |taken|);
    InSplit(v.All(), after, to, v.hi, filters);
  }

  lemma TwiceReversed<T>(s: seq<T>)
    ensures Reversed(Reversed(s)) == s
  {
  }

  /** What is taken in reverse is the end of the list. */
  lemma TakenLast(m: seq<LogLine>, taken: seq<LogLine>)
    requires taken != [] && taken <= Reversed(m)
    ensures |taken| <= |m| && m == m[..|m| - |taken|] + Reversed(taken)
    ensures taken[0] == m[|m| - 1] && taken[|taken| - 1] == m[|m| - |taken|]
  {
    var n := |m| - |taken|;
    var a, b := m[..n], m[n..];
    assert m == a + b;
    ReversedAppend(a, b);
    CutAt(Reversed(b), Reversed(a));
    assert taken == Reversed(m)[..|taken|];
    TwiceReversed(b);
  }

  /** A page that was not cut short took everything that matches. */
  lemma PageTookAll(v: View, c: Cursor, filters: seq<string>, taken: seq<LogLine>, first: nat, after: nat)
    requires v.Valid() && CursorOk(v, c)
    requires taken == Directed(MatchesIn(v.All(), Ahead(v, c).0, Ahead(v, c).1, filters), c.reverse)
    requires Covers(v, c, filters, Directed(taken, c.reverse), first, after)
    ensures if c.reverse then v.Matches(v.lo, first, filters) == [] else v.Matches(after, v.hi, filters) == []
  {
    var (from, to) := Ahead(v, c);
    assert |v.Matches(from, to, filters)| == |taken|;
  }

  /** The cursors of a page point at its first line and after its last one. */
  lemma PageTokens(v: View, q: Query, taken: seq<LogLine>, timedOut: bool, r: LogLineResult, first: nat, after: nat)
    requires v.Valid() && taken != [] && r == ResultOf(q, taken, timedOut) && q.runId == v.runId
    requires v.lo <= first < after <= v.hi
    requires v.All()[first] == Earliest(taken, q.reverse) && v.All()[after - 1] == Latest(taken, q.reverse)
    ensures TokensOk(v, r)
    ensures r.backward.Some? ==> PlaceOf(v.files, r.backward.value) == first
    ensures r.forward.Some? ==> PlaceOf(v.files, r.forward.value) == after
  {
    TokensOf(q, taken, timedOut);
    PointsAt(v, first, q.filters);
    PointsAt(v, after - 1, q.filters);
  }

  lemma TokensOf(q: Query, taken: seq<LogLine>, timedOut: bool)
    requires taken != []
    ensures var r, a, z := ResultOf(q, taken, timedOut), Earliest(taken, q.reverse), Latest(taken, q.reverse);
            && r.backward in {None, Some(Cursor(Some(a.file), a.index, q.filters, q.runId, true, true))}
            && r.forward in {None, Some(Cursor(Some(z.file), z.index + 1, q.filters, q.runId, true, false))}
  {
  }

  /** A cursor at a line of the run, or after it, is good to go on with. */
  lemma PointsAt(v: View, p: nat, filters: seq<string>)
    requires v.Valid() && v.lo <= p < v.hi
    ensures var line := v.All()[p];
            var at := Cursor(Some(line.file), line.index, filters, v.runId, true, true);
            var after := Cursor(Some(line.file), line.index + 1, filters, v.runId, true, false);
            && CursorOk(v, at) && PlaceOf(v.files, at) == p && CursorOk(v, after) && PlaceOf(v.files, after) == p + 1
  {
    LineOffset(v.files, p);
  }

  /** What is covered by a page is split by its cursors, if a missing one means that there is
      nothing left on its side. */
  lemma CoverSplits(v: View, c: Cursor, filters: seq<string>, r: LogLineResult, lines: seq<LogLine>,
      first: nat, after: nat)
    requires v.Valid() && Covers(v, c, filters, lines, first, after) && r.lines == Texts(lines)
    requires BackwardEnd(v, r) == first || (BackwardEnd(v, r) == v.lo && v.Matches(v.lo, first, filters) == [])
    requires ForwardStart(v, r) == after || (ForwardStart(v, r) == v.hi && v.Matches(after, v.hi, filters) == [])
    ensures Splits(v, filters, r) && GoesOn(v, c, filters, r)
  {
    var (from, to) := Ahead(v, c);
    MatchesSplit(v, v.lo, if c.reverse then to else from, v.hi, filters);
    TextsAppend(MatchesIn(v.All(), v.lo, first, filters), lines);
    TextsAppend(lines, MatchesIn(v.All(), after, v.hi, filters));
    Associative(v.Matches(v.lo, first, filters), r.lines, v.Matches(after, v.hi, filters));
    assert v.Matches(v.lo, BackwardEnd(v, r), filters) == v.Matches(v.lo, first, filters);
    assert v.Matches(ForwardStart(v, r), v.hi, filters) == v.Matches(after, v.hi, filters);
  }

  lemma IdsAppend(a: seq<LogLine>, b: seq<LogLine>)
    ensures LineIds(a + b) == LineIds(a) + LineIds(b)
  {
  }

  /** The same for the ids of the lines. */
  lemma CoverIds(v: View, c: Cursor, filters: seq<string>, r: LogLineResult, lines: seq<LogLine>,
      first: nat, after: nat)
    requires v.Valid() && Covers(v, c, filters, lines, first, after) && r.lines == Texts(lines)
             && r.lineIds == LineIds(lines)
    requires BackwardEnd(v, r) == first || (BackwardEnd(v, r) == v.lo && v.Matches(v.lo, first, filters) == [])
    requires ForwardStart(v, r) == after || (ForwardStart(v, r) == v.hi && v.Matches(after, v.hi, filters) == [])
    ensures IdsGoOn(v, c, filters, r)
  {
    var (from, to) := Ahead(v, c);
    InSplit(v.All(), v.lo, if c.reverse then to else from, v.hi, filters);
    var before, after' := MatchesIn(v.All(), v.lo, first, filters), MatchesIn(v.All(), after, v.hi, filters);
    assert BackwardEnd(v, r) != first ==> |before| == |v.Matches(v.lo, first, filters)| == 0;
    assert ForwardStart(v, r) != after ==> |after'| == |v.Matches(after, v.hi, filters)| == 0;
    assert v.Ids(v.lo, BackwardEnd(v, r), filters) == LineIds(before);
    assert v.Ids(ForwardStart(v, r), v.hi, filters) == LineIds(after');
    IdsAppend(before, lines);
    IdsAppend(lines, after');
    IdsAppend(before, lines + after');
    IdsAppend(before + lines, after');
    Associative(before, lines, after');
  }

  lemma PageWithLines(v: View, c: Cursor, q: Query, taken: seq<LogLine>, timedOut: bool, r: LogLineResult)
    requires v.Valid() && CursorOk(v, c) && Readable(v, c) && PageOf(v, c, q, taken, timedOut, r)
    requires taken != [] && q.maxLines >= 1
    ensures TokensOk(v, r) && Splits(v, q.filters, r) && GoesOn(v, c, q.filters, r) && IdsGoOn(v, c, q.filters, r)
  {
    StreamIs(v, c, q.filters);
    if c.reverse {
      var first, after := PageCoversBackward(v, c, q.filters, taken);
      CoveredPage(v, c, q, taken, timedOut, r, first, after);
    } else {
      var first, after := PageCoversForward(v, c, q.filters, taken);
      CoveredPage(v, c, q, taken, timedOut, r, first, after);
    }
  }

  lemma {:induction false} CoveredPage(v: View, c: Cursor, q: Query, taken: seq<LogLine>, timedOut: bool,
      r: LogLineResult, first: nat, after: nat)
    requires v.Valid() && CursorOk(v, c) && q.reverse == c.reverse && q.runId == c.runId
             && r == ResultOf(q, taken, timedOut)
    requires taken != [] && q.maxLines >= 1 && first < after <= |v.All()|
    requires Covers(v, c, q.filters, Directed(taken, c.reverse), first, after)
    requires v.All()[first] == Earliest(taken, c.reverse) && v.All()[after - 1] == Latest(taken, c.reverse)
    requires || timedOut || |taken| == q.maxLines
             || taken == Directed(MatchesIn(v.All(), Ahead(v, c).0, Ahead(v, c).1, q.filters), c.reverse)
    ensures TokensOk(v, r) && Splits(v, q.filters, r) && GoesOn(v, c, q.filters, r) && IdsGoOn(v, c, q.filters, r)
  {
    PageTokens(v, q, taken, timedOut, r, first, after);
    if !timedOut && |taken| != q.maxLines {
      PageTookAll(v, c, q.filters, taken, first, after);
    }
    CoverSplits(v, c, q.filters, r, Directed(taken, c.reverse), first, after);
    CoverIds(v, c, q.filters, r, Directed(taken, c.reverse), first, after);
  }

  /** A page without lines: nothing ahead matches, and one can go back to where one was. */
  lemma EmptyPage(v: View, c: Cursor, q: Query, timedOut: bool, r: LogLineResult)
    requires v.Valid() && CursorOk(v, c) && Readable(v, c) && PageOf(v, c, q, [], timedOut, r) && q.maxLines >= 1
    ensures TokensOk(v, r) && Splits(v, q.filters, r) && GoesOn(v, c, q.filters, r) && IdsGoOn(v, c, q.filters, r)
  {
    NothingAhead(v, c, q, timedOut, r);
    var (from, to) := Ahead(v, c);
    var place := if c.reverse then to else from;
    CoverSplits(v, c, q.filters, r, [], place, place);
    CoverIds(v, c, q.filters, r, [], place, place);
  }

  lemma NoneMatches(v: View, c: Cursor, q: Query, timedOut: bool, r: LogLineResult)
    requires v.Valid() && CursorOk(v, c) && Readable(v, c) && PageOf(v, c, q, [], timedOut, r) && q.maxLines >= 1
    ensures MatchesIn(v.All(), Ahead(v, c).0, Ahead(v, c).1, q.filters) == []
  {
    StreamIs(v, c, q.filters);
  }

  /** The cursors of a page without lines are where one was, or not given. */
  lemma EmptyTokens(v: View, c: Cursor, q: Query, timedOut: bool, r: LogLineResult)
    requires v.Valid() && CursorOk(v, c) && PageOf(v, c, q, [], timedOut, r)
    ensures TokensOk(v, r) && r.lines == [] && r.lineIds == []
    ensures r.backward.Some? ==> c.file.Some? && PlaceOf(v.files, r.backward.value) == PlaceOf(v.files, c)
    ensures r.forward.Some? ==> c.file.Some? && PlaceOf(v.files, r.forward.value) == PlaceOf(v.files, c)
    ensures !c.reverse && c.file.Some? ==> r.backward.Some?
    ensures c.reverse && c.file.Some? ==> r.forward.Some?
  {
  }

  /** No line ahead of the cursor matches, and the page's cursors are where it was or at the ends. */
  lemma NothingAhead(v: View, c: Cursor, q: Query, timedOut: bool, r: LogLineResult)
    requires v.Valid() && CursorOk(v, c) && Readable(v, c) && PageOf(v, c, q, [], timedOut, r) && q.maxLines >= 1
    ensures TokensOk(v, r) && r.lines == [] && r.lineIds == []
    ensures var (from, to) := Ahead(v, c);
            var place := if c.reverse then to else from;
            && v.Matches(from, to, q.filters) == [] && Covers(v, c, q.filters, [], place, place)
            && (BackwardEnd(v, r) == place || (c.reverse && BackwardEnd(v, r) == v.lo))
            && (ForwardStart(v, r) == place || (!c.reverse && ForwardStart(v, r) == v.hi))
  {
    NoneMatches(v, c, q, timedOut, r);
    EmptyTokens(v, c, q, timedOut, r);
    CursorPlace(v, c);
  }

  /** Every page splits the matching lines of the run, in either direction and whether it is
      full, short, empty or cut by the time limit; the cursors it gives are good to go on. */
  lemma PageSplits(v: View, c: Cursor, q: Query, taken: seq<LogLine>, timedOut: bool, r: LogLineResult)
    requires v.Valid() && CursorOk(v, c) && Readable(v, c) && PageOf(v, c, q, taken, timedOut, r) && q.maxLines >= 1
    ensures TokensOk(v, r) && Splits(v, q.filters, r) && GoesOn(v, c, q.filters, r) && IdsGoOn(v, c, q.filters, r)
  {
    if taken == [] {
      EmptyPage(v, c, q, timedOut, r);
    } else {
      PageWithLines(v, c, q, taken, timedOut, r);
    }
  }
}
