/** The lines of a log directory as streams (sematic/log_reader.py). */
module LogStreams {
  import opened FutureStates

  /** A file of a log directory; its name is the time of its upload. */
  datatype LogFile = LogFile(stamp: nat, lines: seq<string>)

  datatype LogLine = LogLine(file: nat, index: nat, text: string)

  const MAX_LINES_PER_LOG_FILE := 1000

  const DEFAULT_START_INDEX := -1
  const DEFAULT_END_INDEX := 0x7fff_ffff_ffff_ffff

  /** File names differ, and line numbers fit a machine word. */
  ghost predicate Directory(files: seq<LogFile>) {
    && (forall i, j | 0 <= i < j < |files| :: files[i].stamp != files[j].stamp)
    && (forall i | 0 <= i < |files| :: |files[i].lines| <= DEFAULT_END_INDEX)
  }

  ghost predicate ByStamp(files: seq<LogFile>) {
    forall i, j | 0 <= i < j < |files| :: files[i].stamp < files[j].stamp
  }

  // ------------------------------------------------------------------- sorting

  function InsertFile(f: LogFile, files: seq<LogFile>): (r: seq<LogFile>)
    ensures multiset(r) == multiset(files) + multiset{f}
  {
    if files == [] then [f]
    else
      assert files == [files[0]] + files[1..];
      if f.stamp <= files[0].stamp then [f] + files else [files[0]] + InsertFile(f, files[1..])
  }

  function SortFiles(files: seq<LogFile>): (r: seq<LogFile>)
    ensures multiset(r) == multiset(files)
  {
    if files == [] then []
    else
      assert files == [files[0]] + files[1..];
      InsertFile(files[0], SortFiles(files[1..]))
  }

  lemma {:induction false} InsertKeepsOrder(f: LogFile, files: seq<LogFile>)
    requires ByStamp(files) && forall g | g in files :: g.stamp != f.stamp
    ensures ByStamp(InsertFile(f, files))
    decreases |files|
  {
    if files != [] && f.stamp > files[0].stamp {
      InsertKeepsOrder(f, files[1..]);
      forall g | g in InsertFile(f, files[1..]) ensures files[0].stamp < g.stamp {
        InInserted(f, files[1..], g);
      }
      FirstByStamp(files[0], InsertFile(f, files[1..]));
    }
  }

  lemma FirstByStamp(f: LogFile, rest: seq<LogFile>)
    requires ByStamp(rest) && forall g | g in rest :: f.stamp < g.stamp
    ensures ByStamp([f] + rest)
  {
  }

  lemma {:induction false} InInserted(f: LogFile, files: seq<LogFile>, g: LogFile)
    requires g in InsertFile(f, files)
    ensures g == f || g in files
  {
    assert g in multiset(InsertFile(f, files));
  }

  lemma {:induction false} InSorted(files: seq<LogFile>, f: LogFile)
    ensures f in SortFiles(files) <==> f in files
  {
    assert f in multiset(SortFiles(files)) <==> f in multiset(files);
  }

  lemma {:induction false} SortKeepsOrder(files: seq<LogFile>)
    requires forall i, j | 0 <= i < j < |files| :: files[i].stamp != files[j].stamp
    ensures ByStamp(SortFiles(files))
    decreases |files|
  {
    if files != [] {
      SortKeepsOrder(files[1..]);
      forall g | g in SortFiles(files[1..]) ensures g.stamp != files[0].stamp {
        InSorted(files[1..], g);
      }
      InsertKeepsOrder(files[0], SortFiles(files[1..]));
    }
  }

  /** The files of a directory in the order of their names. */
  lemma {:induction false} SortedByStamp(files: seq<LogFile>)
    requires Directory(files)
    ensures ByStamp(SortFiles(files)) && Directory(SortFiles(files)) && |SortFiles(files)| == |files|
    ensures forall stamp :: HasFile(SortFiles(files), stamp) <==> HasFile(files, stamp)
  {
    var sorted := SortFiles(files);
    assert |multiset(sorted)| == |multiset(files)|;
    SortKeepsOrder(files);
    forall i | 0 <= i < |sorted| ensures |sorted[i].lines| <= DEFAULT_END_INDEX {
      InSorted(files, sorted[i]);
    }
    forall stamp ensures HasFile(sorted, stamp) <==> HasFile(files, stamp) {
      SameStamps(files, sorted, stamp);
      SameStamps(sorted, files, stamp);
    }
  }

  lemma SameStamps(a: seq<LogFile>, b: seq<LogFile>, stamp: nat)
    requires multiset(a) == multiset(b)
    ensures HasFile(a, stamp) ==> HasFile(b, stamp)
  {
    if HasFile(a, stamp) {
      var i :| 0 <= i < |a| && a[i].stamp == stamp;
      assert a[i] in multiset(b);
      var j :| 0 <= j < |b| && b[j] == a[i];
    }
  }

  // ------------------------------------------------------- all lines, in order

  function Lines(f: LogFile): seq<LogLine> {
    seq(|f.lines|, i requires 0 <= i < |f.lines| => LogLine(f.stamp, i, f.lines[i]))
  }

  function AllLines(files: seq<LogFile>): seq<LogLine> {
    if files == [] then [] else Lines(files[0]) + AllLines(files[1..])
  }

  lemma {:induction false} AllLinesAppend(a: seq<LogFile>, b: seq<LogFile>)
    ensures AllLines(a + b) == AllLines(a) + AllLines(b)
    decreases |a|
  {
    if a == [] {
      assert a + b == b;
    } else {
      AllLinesAppend(a[1..], b);
      assert (a + b)[1..] == a[1..] + b;
    }
  }

  function Clamp(i: int, n: nat): nat {
    if i < 0 then 0 else if i > n then n else i
  }

  ghost predicate HasFile(files: seq<LogFile>, stamp: nat) {
    exists i :: 0 <= i < |files| && files[i].stamp == stamp
  }

  /** How many lines come before line `index` of a file. */
  function Offset(files: seq<LogFile>, stamp: nat, index: int): (r: nat)
    ensures r <= |AllLines(files)|
  {
    if files == [] then 0
    else if files[0].stamp == stamp then Clamp(index, |files[0].lines|)
    else |files[0].lines| + Offset(files[1..], stamp, index)
  }

  lemma {:induction false} OffsetAt(files: seq<LogFile>, i: nat, index: int)
    requires ByStamp(files) && i < |files|
    ensures Offset(files, files[i].stamp, index) == |AllLines(files[..i])| + Clamp(index, |files[i].lines|)
    decreases i
  {
    if i > 0 {
      OffsetAt(files[1..], i - 1, index);
      assert files[..i] == [files[0]] + files[1..][..i - 1];
    } else {
      assert files[..i] == [];
    }
  }

  /** A line is found again by its file and its number, and so is the place after it. */
  lemma {:induction false} LineOffset(files: seq<LogFile>, p: nat)
    requires ByStamp(files) && p < |AllLines(files)|
    ensures var line := AllLines(files)[p];
            && HasFile(files, line.file)
            && Offset(files, line.file, line.index) == p && Offset(files, line.file, line.index + 1) == p + 1
    decreases |files|
  {
    var n := |files[0].lines|;
    if p >= n {
      var line := AllLines(files)[p];
      assert line == AllLines(files[1..])[p - n];
      LineOffset(files[1..], p - n);
      var i :| 0 <= i < |files[1..]| && files[1..][i].stamp == line.file;
      assert files[i + 1].stamp == line.file;
    } else {
      assert files[0].stamp == AllLines(files)[p].file;
    }
  }

  /** A cursor keeps its place when later files are added. */
  lemma {:induction false} OffsetStays(files: seq<LogFile>, more: seq<LogFile>, stamp: nat, index: int)
    requires HasFile(files, stamp)
    ensures HasFile(files + more, stamp) && Offset(files + more, stamp, index) == Offset(files, stamp, index)
    decreases |files|
  {
    var i :| 0 <= i < |files| && files[i].stamp == stamp;
    assert (files + more)[i].stamp == stamp;
    if files[0].stamp != stamp {
      assert files[1..][i - 1].stamp == stamp;
      OffsetStays(files[1..], more, stamp, index);
      assert (files + more)[1..] == files[1..] + more;
    }
  }

  // ---------------------------------------------------------------- directions

  function Reversed<T>(s: seq<T>): (r: seq<T>)
    ensures |r| == |s| && forall k | 0 <= k < |s| :: r[k] == s[|s| - 1 - k]
  {
    ReversedTo(s, |s|)
  }

  function ReversedTo<T>(s: seq<T>, n: nat): (r: seq<T>)
    requires n <= |s|
    ensures |r| == n && forall k | 0 <= k < n :: r[k] == s[n - 1 - k]
  {
    if n == 0 then [] else [s[n - 1]] + ReversedTo(s, n - 1)
  }

  lemma ReversedAppend<T>(a: seq<T>, b: seq<T>)
    ensures Reversed(a + b) == Reversed(b) + Reversed(a)
  {
    var l, r := Reversed(a + b), Reversed(b) + Reversed(a);
    forall k | 0 <= k < |l| ensures l[k] == r[k] {}
  }

  /** The part of the lines from, or up to, a place: forward its line is included, in reverse
      it is omitted. */
  function Part(lines: seq<LogLine>, place: nat, reverse: bool): seq<LogLine>
    requires place <= |lines|
  {
    if reverse then Reversed(lines[..place]) else lines[place..]
  }

  method StreamFromTextStream(f: LogFile, startIndex: int, reverse: bool) returns (stream: seq<LogLine>)
    ensures stream == Part(Lines(f), Clamp(startIndex, |f.lines|), reverse)
  {
    stream := [];
    var i := 0;
    if reverse {
      var precedingCursor: seq<LogLine> := [];
      while i < |f.lines| && i < startIndex
        invariant 0 <= i <= |f.lines| && (i == 0 || i <= startIndex)
        invariant precedingCursor == Lines(f)[..i]
      {
        precedingCursor := precedingCursor + [LogLine(f.stamp, i, f.lines[i])];
        i := i + 1;
      }
      stream := Reversed(precedingCursor);
    } else {
      while i < |f.lines|
        invariant 0 <= i <= |f.lines|
        invariant stream == if i <= startIndex then [] else Lines(f)[Clamp(startIndex, |f.lines|)..i]
      {
        if i >= startIndex {
          stream := stream + [LogLine(f.stamp, i, f.lines[i])];
        }
        i := i + 1;
      }
    }
  }

  datatype Streamed = Streamed(lines: seq<LogLine>) | UnknownFile

  /** The place at which reading a directory starts. */
  function StartPlace(files: seq<LogFile>, cursorFile: Option<nat>, cursorIndex: Option<int>, reverse: bool): (r: nat)
    ensures r <= |AllLines(files)|
  {
    if files == [] then 0
    else
      var file :=
        if cursorFile.Some? then cursorFile.value else if reverse then files[|files| - 1].stamp else files[0].stamp;
      var index :=
        if cursorIndex.Some? then cursorIndex.value else if reverse then DEFAULT_END_INDEX else DEFAULT_START_INDEX;
      Offset(files, file, index)
  }

  /** The files in the order in which they are read, from the `i`-th on, in order of time. */
  function FromFile(files: seq<LogFile>, i: nat, reverse: bool): seq<LogFile>
    requires i <= |files|
  {
    if reverse then files[..|files| - i] else files[i..]
  }

  function Directed<T>(s: seq<T>, reverse: bool): seq<T> {
    if reverse then Reversed(s) else s
  }

  /** Where a file is in a list, which is its length if it is not there. */
  method IndexOf(files: seq<LogFile>, stamp: nat) returns (k: nat)
    ensures k <= |files| && (k < |files| <==> HasFile(files, stamp))
    ensures k < |files| ==> files[k].stamp == stamp
  {
    k := 0;
    while k < |files| && files[k].stamp != stamp
      invariant 0 <= k <= |files| && forall i | 0 <= i < k :: files[i].stamp != stamp
    {
      k := k + 1;
    }
  }

  /** `line_stream_from_log_directory` */
  method LineStreamFromLogDirectory(files: seq<LogFile>, cursorFile: Option<nat>, cursorIndex: Option<int>,
      reverse: bool)
    returns (r: Streamed)
    requires Directory(files)
    ensures r.UnknownFile? <==> files != [] && cursorFile.Some? && !HasFile(files, cursorFile.value)
    ensures r.Streamed? ==>
              r.lines == Part(AllLines(SortFiles(files)),
                StartPlace(SortFiles(files), cursorFile, cursorIndex, reverse), reverse)
  {
    SortedByStamp(files);
    r := StreamSorted(SortFiles(files), cursorFile, cursorIndex, reverse);
  }

  /** Finds the file of the cursor in the direction of reading, and streams from there. */
  method StreamSorted(sorted: seq<LogFile>, cursorFile: Option<nat>, cursorIndex: Option<int>, reverse: bool)
    returns (r: Streamed)
    requires ByStamp(sorted) && Directory(sorted)
    ensures r.UnknownFile? <==> sorted != [] && cursorFile.Some? && !HasFile(sorted, cursorFile.value)
    ensures r.Streamed? ==>
              r.lines == Part(AllLines(sorted), StartPlace(sorted, cursorFile, cursorIndex, reverse), reverse)
  {
    var logFiles := Directed(sorted, reverse);
    if logFiles == [] {
      return Streamed([]);
    }
    var first := 0;
    if cursorFile.Some? {
      first := IndexOf(logFiles, cursorFile.value);
      DirectedHas(sorted, cursorFile.value, reverse);
      if first == |logFiles| {
        return UnknownFile;
      }
    }
    var start :=
      if cursorIndex.Some? then cursorIndex.value else if reverse then DEFAULT_END_INDEX else DEFAULT_START_INDEX;
    StartsThere(sorted, first, cursorFile, cursorIndex, reverse);
    var stream := StreamFiles(logFiles, first, start, reverse, sorted);
    r := Streamed(stream);
  }

  /** Reading starts in the file of the cursor, and without one in the first file read. */
  lemma StartsThere(files: seq<LogFile>, first: nat, cursorFile: Option<nat>, cursorIndex: Option<int>, reverse: bool)
    requires first < |files|
    requires if cursorFile.Some? then Directed(files, reverse)[first].stamp == cursorFile.value else first == 0
    ensures StartPlace(files, cursorFile, cursorIndex, reverse)
         == Offset(files, Directed(files, reverse)[first].stamp,
                   if cursorIndex.Some? then cursorIndex.value
                   else if reverse then DEFAULT_END_INDEX else DEFAULT_START_INDEX)
  {
  }

  /** Streams the files one after the other. */
  method StreamFiles(logFiles: seq<LogFile>, first: nat, start: int, reverse: bool, ghost sorted: seq<LogFile>)
    returns (stream: seq<LogLine>)
    requires ByStamp(sorted) && Directory(sorted) && logFiles == Directed(sorted, reverse) && first < |logFiles|
    ensures stream == Part(AllLines(sorted), Offset(sorted, logFiles[first].stamp, start), reverse)
  {
    stream := StreamFromTextStream(logFiles[first], start, reverse);
    StartOfFirst(sorted, first, start, reverse);
    ghost var whole := Part(AllLines(sorted), Offset(sorted, logFiles[first].stamp, start), reverse);
    var k := first + 1;
    while k < |logFiles|
      invariant first < k <= |logFiles|
      invariant stream + Directed(AllLines(FromFile(sorted, k, reverse)), reverse) == whole
    {
      var more :=
        StreamFromTextStream(logFiles[k], if reverse then DEFAULT_END_INDEX else DEFAULT_START_INDEX, reverse);
      StreamMore(sorted, k, reverse, stream, more);
      stream := stream + more;
      k := k + 1;
    }
    StreamEnds(sorted, reverse, stream);
  }

  lemma {:induction false} StreamEnds(sorted: seq<LogFile>, reverse: bool, stream: seq<LogLine>)
    ensures stream + Directed(AllLines(FromFile(sorted, |sorted|, reverse)), reverse) == stream
  {
    assert FromFile(sorted, |sorted|, reverse) == [];
  }

  lemma Associative<T>(a: seq<T>, b: seq<T>, c: seq<T>)
    ensures a + (b + c) == (a + b) + c
  {
  }

  lemma DirectedHas(files: seq<LogFile>, stamp: nat, reverse: bool)
    ensures HasFile(Directed(files, reverse), stamp) <==> HasFile(files, stamp)
  {
    var d := Directed(files, reverse);
    if HasFile(files, stamp) {
      var i :| 0 <= i < |files| && files[i].stamp == stamp;
      assert d[if reverse then |files| - 1 - i else i].stamp == stamp;
    }
    if HasFile(d, stamp) {
      var i :| 0 <= i < |d| && d[i].stamp == stamp;
      assert files[if reverse then |files| - 1 - i else i].stamp == stamp;
    }
  }

  lemma {:induction false} AllAround(files: seq<LogFile>, i: nat)
    requires i < |files|
    ensures AllLines(files) == AllLines(files[..i]) + (Lines(files[i]) + AllLines(files[i + 1..]))
  {
    var rest := [files[i]] + files[i + 1..];
    assert files == files[..i] + rest;
    AllLinesAppend(files[..i], rest);
    assert rest[1..] == files[i + 1..];
  }

  /** Reading starts in the middle of the first file, and the others follow. */
  lemma {:induction false} StartOfFirst(sorted: seq<LogFile>, first: nat, start: int, reverse: bool)
    requires ByStamp(sorted) && first < |sorted|
    ensures var f := Directed(sorted, reverse)[first];
            Part(Lines(f), Clamp(start, |f.lines|), reverse)
              + Directed(AllLines(FromFile(sorted, first + 1, reverse)), reverse)
            == Part(AllLines(sorted), Offset(sorted, f.stamp, start), reverse)
  {
    var i := if reverse then |sorted| - 1 - first else first;
    assert sorted[i] == Directed(sorted, reverse)[first];
    StartAt(sorted, i, start, reverse);
  }

  lemma StartAt(sorted: seq<LogFile>, i: nat, start: int, reverse: bool)
    requires ByStamp(sorted) && i < |sorted|
    ensures var f := sorted[i];
            Part(Lines(f), Clamp(start, |f.lines|), reverse)
            + Directed(AllLines(if reverse then sorted[..i] else sorted[i + 1..]), reverse)
            == Part(AllLines(sorted), Offset(sorted, f.stamp, start), reverse)
  {
    var f := sorted[i];
    OffsetAt(sorted, i, start);
    AllAround(sorted, i);
    Around(AllLines(sorted[..i]), Lines(f), AllLines(sorted[i + 1..]), Clamp(start, |f.lines|), reverse);
  }

  lemma {:induction false} Around(before: seq<LogLine>, lines: seq<LogLine>, after: seq<LogLine>, c: nat, reverse: bool)
    requires c <= |lines|
    ensures Part(before + (lines + after), |before| + c, reverse)
         == Part(lines, c, reverse) + if reverse then Reversed(before) else after
  {
    var a, b := before + lines[..c], lines[c..] + after;
    CutInside(before, lines, after, c);
    CutAt(a, b);
    if reverse {
      ReversedAppend(before, lines[..c]);
    }
  }

  lemma CutAt<T>(a: seq<T>, b: seq<T>)
    ensures (a + b)[..|a|] == a && (a + b)[|a|..] == b
  {
  }

  lemma CutInside<T>(a: seq<T>, b: seq<T>, c: seq<T>, k: nat)
    requires k <= |b|
    ensures a + (b + c) == (a + b[..k]) + (b[k..] + c)
  {
    assert b == b[..k] + b[k..];
  }

  /** A whole file more is streamed. */
  lemma {:induction false} StreamMore(sorted: seq<LogFile>, k: nat, reverse: bool, stream: seq<LogLine>,
      more: seq<LogLine>)
    requires Directory(sorted) && k < |sorted|
    requires var f := Directed(sorted, reverse)[k];
             more == Part(Lines(f), Clamp(if reverse then DEFAULT_END_INDEX else DEFAULT_START_INDEX, |f.lines|),
               reverse)
    ensures stream + Directed(AllLines(FromFile(sorted, k, reverse)), reverse)
         == stream + more + Directed(AllLines(FromFile(sorted, k + 1, reverse)), reverse)
  {
    WholePart(Directed(sorted, reverse)[k], reverse);
    WholeFile(sorted, k, reverse);
    Associative(stream, more, Directed(AllLines(FromFile(sorted, k + 1, reverse)), reverse));
  }

  /** By default a file is streamed from the one end to the other. */
  lemma WholePart(f: LogFile, reverse: bool)
    requires |f.lines| <= DEFAULT_END_INDEX
    ensures Part(Lines(f), Clamp(if reverse then DEFAULT_END_INDEX else DEFAULT_START_INDEX, |f.lines|), reverse)
         == Directed(Lines(f), reverse)
  {
    assert Lines(f)[0..] == Lines(f)[..|f.lines|] == Lines(f);
  }

  lemma {:induction false} WholeFile(sorted: seq<LogFile>, k: nat, reverse: bool)
    requires k < |sorted|
    ensures Directed(AllLines(FromFile(sorted, k, reverse)), reverse)
         == Directed(Lines(Directed(sorted, reverse)[k]), reverse)
          + Directed(AllLines(FromFile(sorted, k + 1, reverse)), reverse)
  {
    if reverse {
      var i := |sorted| - 1 - k;
      assert sorted[..i + 1] == sorted[..i] + [sorted[i]];
      AllLinesAppend(sorted[..i], [sorted[i]]);
      LinesOfOne(sorted[i]);
      ReversedAppend(AllLines(sorted[..i]), Lines(sorted[i]));
    } else {
      assert sorted[k..][1..] == sorted[k + 1..];
    }
  }

  lemma LinesOfOne(f: LogFile)
    ensures AllLines([f]) == Lines(f)
  {
    assert AllLines([f]) == Lines(f) + AllLines([]);
  }
}
