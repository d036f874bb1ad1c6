/** The ids of log lines are in the order of time (`to_line_id` in sematic/log_reader.py). */
module LogLineIds {
  import opened FutureStates
  import opened LogStreams
  import opened LogReader

  function IdOf(line: LogLine): int {
    ToLineId(line.file, line.index)
  }

  ghost predicate IdsIncrease(lines: seq<LogLine>) {
    forall p, q | 0 <= p < q < |lines| :: IdOf(lines[p]) < IdOf(lines[q])
  }

  /** A file has no more lines than there are ids before the next line's file. */
  ghost predicate Spaced(files: seq<LogFile>) {
    forall i, j | 0 <= i < j < |files| :: Apart(files[i], files[j])
  }

  ghost predicate Apart(f: LogFile, g: LogFile) {
    g.lines != [] ==> |f.lines| <= 10 * MAX_LINES_PER_LOG_FILE * (g.stamp - f.stamp)
  }

  /** Line `p` of all is line `k` of file `i`. */
  ghost predicate LocatedAt(files: seq<LogFile>, p: nat, i: nat, k: nat) {
    && i < |files| && k < |files[i].lines| && p < |AllLines(files)|
    && p == |AllLines(files[..i])| + k
    && AllLines(files)[p] == LogLine(files[i].stamp, k, files[i].lines[k])
  }

  lemma {:induction false} LineAt(files: seq<LogFile>, i: nat, k: nat) returns (p: nat)
    requires i < |files| && k < |files[i].lines|
    ensures LocatedAt(files, p, i, k)
  {
    p := |AllLines(files[..i])| + k;
    AllAround(files, i);
    assert (Lines(files[i]) + AllLines(files[i + 1..]))[k] == Lines(files[i])[k];
  }

  lemma {:induction false} Locate(files: seq<LogFile>, p: nat) returns (i: nat, k: nat)
    requires p < |AllLines(files)|
    ensures LocatedAt(files, p, i, k)
    decreases |files|
  {
    var n := |files[0].lines|;
    if p < n {
      i, k := 0, p;
      assert files[..0] == [];
    } else {
      var j;
      j, k := Locate(files[1..], p - n);
      i := j + 1;
      assert files[..i] == [files[0]] + files[1..][..j];
    }
  }

  lemma {:induction false} PrefixLines(files: seq<LogFile>, i: nat, j: nat)
    requires i < j <= |files|
    ensures |AllLines(files[..i])| + |files[i].lines| <= |AllLines(files[..j])|
    decreases j
  {
    assert files[..j] == files[..j - 1] + [files[j - 1]];
    AllLinesAppend(files[..j - 1], [files[j - 1]]);
    assert AllLines([files[j - 1]]) == Lines(files[j - 1]) + AllLines([]);
    if i < j - 1 {
      PrefixLines(files, i, j - 1);
    }
  }

  lemma {:induction false} InFileOrder(files: seq<LogFile>, p: nat, i: nat, k: nat, q: nat, j: nat, l: nat)
    requires LocatedAt(files, p, i, k) && LocatedAt(files, q, j, l)
    ensures i < j ==> p < q
    ensures p < q ==> i < j || (i == j && k < l)
  {
    if j < i {
      PrefixLines(files, j, i);
    } else if i < j {
      PrefixLines(files, i, j);
    }
  }

  lemma {:induction false} SpacedIds(files: seq<LogFile>, p: nat, q: nat)
    requires Spaced(files) && p < q < |AllLines(files)|
    ensures IdOf(AllLines(files)[p]) < IdOf(AllLines(files)[q])
  {
    var i, k := Locate(files, p);
    var j, l := Locate(files, q);
    InFileOrder(files, p, i, k, q, j, l);
    if i < j {
      assert Apart(files[i], files[j]);
    }
  }

  lemma {:induction false} IncreasingIds(files: seq<LogFile>, i: nat, j: nat)
    requires IdsIncrease(AllLines(files)) && i < j < |files|
    requires files[i].lines != [] && files[j].lines != []
    ensures Apart(files[i], files[j])
  {
    var p := LineAt(files, i, |files[i].lines| - 1);
    var q := LineAt(files, j, 0);
    InFileOrder(files, p, i, |files[i].lines| - 1, q, j, 0);
    assert IdOf(AllLines(files)[p]) < IdOf(AllLines(files)[q]);
  }

  /** Ids are in the order of the lines if and only if files are spaced. */
  lemma {:induction false} LineIdsIncreaseIff(files: seq<LogFile>)
    requires ByStamp(files)
    ensures IdsIncrease(AllLines(files)) <==> Spaced(files)
  {
    if Spaced(files) {
      forall p, q | 0 <= p < q < |AllLines(files)| ensures IdOf(AllLines(files)[p]) < IdOf(AllLines(files)[q]) {
        SpacedIds(files, p, q);
      }
    } else {
      var i, j :| 0 <= i < j < |files| && !Apart(files[i], files[j]);
      assert files[i].stamp < files[j].stamp;
      if IdsIncrease(AllLines(files)) {
        IncreasingIds(files, i, j);
      }
    }
  }

  /** Files that respect the limit on their lines are spaced. */
  lemma {:induction false} LimitedFilesAreSpaced(files: seq<LogFile>)
    requires ByStamp(files) && forall f | f in files :: |f.lines| <= MAX_LINES_PER_LOG_FILE
    ensures Spaced(files)
  {
    forall i, j | 0 <= i < j < |files| ensures Apart(files[i], files[j]) {
      assert files[i] in files;
      assert files[i].stamp < files[j].stamp;
    }
  }
}
