/** What the log streamer writes is what the log reader reads. */
module WriterToReader {
  import opened FutureStates
  import opened LogStreams
  import opened LogReader
  import opened LogLineIds
  import opened LogStreamer

  /** The lines of a file, each with its line end. */
  function SplitLines(text: string): (lines: seq<string>)
    ensures text == "" <==> lines == []
  {
    if text == "" then []
    else if text[0] == '\n' then ["\n"] + SplitLines(text[1..])
    else if text[1..] == "" then [text]
    else
      var rest := SplitLines(text[1..]);
      [[text[0]] + rest[0]] + rest[1..]
  }

  lemma {:induction false} SplitLinesJoin(text: string)
    ensures Concat(SplitLines(text)) == text
    decreases |text|
  {
    if text != "" {
      assert text == [text[0]] + text[1..];
      SplitLinesJoin(text[1..]);
      var rest := SplitLines(text[1..]);
      if text[0] == '\n' {
        assert (["\n"] + rest)[1..] == rest;
      } else if text[1..] == "" {
        assert Concat([text]) == text + Concat([]);
      } else {
        assert ([[text[0]] + rest[0]] + rest[1..])[1..] == rest[1..];
        Associative([text[0]], rest[0], Concat(rest[1..]));
      }
    }
  }

  /** Joining two texts does not make more lines. */
  lemma {:induction false} SplitLinesAppend(a: string, b: string)
    ensures |SplitLines(a + b)| <= |SplitLines(a)| + |SplitLines(b)|
    decreases |a|
  {
    if a == "" {
      assert a + b == b;
    } else {
      SplitLinesAppend(a[1..], b);
      assert (a + b)[1..] == a[1..] + b;
      if a[0] != '\n' && a[1..] == "" {
        assert a[1..] + b == b;
      }
    }
  }

  /** A result of `readline`: a line end comes at its end only. */
  ghost predicate IsLine(line: string) {
    forall i | 0 <= i < |line| - 1 :: line[i] != '\n'
  }

  /** A line end comes at the end of every line, except perhaps the last, and nowhere else. */
  ghost predicate SplitAtLineEnds(lines: seq<string>) {
    forall i | 0 <= i < |lines| ::
      lines[i] != "" && IsLine(lines[i]) && (i < |lines| - 1 ==> lines[i][|lines[i]| - 1] == '\n')
  }

  lemma {:induction false} SplitLinesShape(text: string)
    ensures SplitAtLineEnds(SplitLines(text))
    decreases |text|
  {
    if text != "" {
      SplitLinesShape(text[1..]);
    }
  }

  lemma {:induction false} LineIsOne(line: string)
    requires IsLine(line)
    ensures |SplitLines(line)| <= 1
    decreases |line|
  {
    if line != "" {
      LineIsOne(line[1..]);
    }
  }

  lemma {:induction false} PayloadIsLine(line: string)
    requires IsLine(line)
    ensures IsLine(Payload(line)) && Payload(line) <= line
    decreases |line|
  {
    if line != [] && line[0] != EOT {
      PayloadIsLine(line[1..]);
      assert line == [line[0]] + line[1..];
    }
  }

  /** As many reads give at most as many lines. */
  lemma {:induction false} LinesWritten(input: seq<string>, p: nat, q: nat)
    requires p <= q <= |input| && forall line | line in input :: IsLine(line)
    ensures |SplitLines(Text(input, p, q))| <= Writes(input, p, q)
    decreases q
  {
    if p < q {
      LinesWritten(input, p, q - 1);
      assert input[q - 1] in input;
      PayloadIsLine(input[q - 1]);
      LineIsOne(Payload(input[q - 1]));
      SplitLinesAppend(Text(input, p, q - 1), Payload(input[q - 1]));
    }
  }

  /** The directory that the uploads make up. */
  function FilesOf(uploads: seq<Upload>): seq<LogFile> {
    seq(|uploads|, i requires 0 <= i < |uploads| => LogFile(uploads[i].stamp, SplitLines(uploads[i].content)))
  }

  function TextOf(lines: seq<LogLine>): string {
    Concat(Texts(lines))
  }

  /** Reading back the first `n` files gives what was uploaded. */
  lemma {:induction false} ReadBack(uploads: seq<Upload>, n: nat)
    requires n <= |uploads|
    ensures TextOf(AllLines(FilesOf(uploads)[..n])) == Content(uploads, n)
    decreases n
  {
    var files := FilesOf(uploads);
    if n == 0 {
      assert files[..0] == [];
    } else {
      ReadBack(uploads, n - 1);
      assert files[..n] == files[..n - 1] + [files[n - 1]];
      ReadOneMore(files[..n - 1], files[n - 1]);
      SplitLinesJoin(uploads[n - 1].content);
    }
  }

  /** One file more is read. */
  lemma {:induction false} ReadOneMore(files: seq<LogFile>, f: LogFile)
    ensures TextOf(AllLines(files + [f])) == TextOf(AllLines(files)) + Concat(f.lines)
  {
    AllLinesAppend(files, [f]);
    LinesOfOne(f);
    assert Texts(AllLines(files) + Lines(f)) == Texts(AllLines(files)) + Texts(Lines(f));
    assert Texts(Lines(f)) == f.lines;
    ConcatAppend(Texts(AllLines(files)), f.lines);
  }

  ghost predicate DistinctStamps(uploads: seq<Upload>, n: nat)
    requires n <= |uploads|
  {
    forall i, j | 0 <= i < j < n :: uploads[i].stamp != uploads[j].stamp
  }

  lemma {:induction false} StoredNames(uploads: seq<Upload>, n: nat, stamp: nat)
    requires n <= |uploads|
    ensures stamp in Stored(uploads, n) <==> exists i :: 0 <= i < n && uploads[i].stamp == stamp
    decreases n
  {
    if n > 0 {
      StoredNames(uploads, n - 1, stamp);
      if stamp in Stored(uploads, n - 1) {
        var i :| 0 <= i < n - 1 && uploads[i].stamp == stamp;
      }
    }
  }

  /** Storing under a name adds a file unless the name was taken. */
  lemma StoreSize(files: map<nat, string>, stamp: nat, content: string)
    ensures |files[stamp := content]| == |files| + if stamp in files then 0 else 1
  {
    var more := files[stamp := content];
    assert more.Keys == files.Keys + {stamp};
    assert |more| == |more.Keys| && |files| == |files.Keys|;
    if stamp in files {
      assert files.Keys + {stamp} == files.Keys;
    }
  }

  lemma DistinctMore(uploads: seq<Upload>, n: nat)
    requires 0 < n <= |uploads|
    ensures DistinctStamps(uploads, n) <==>
            DistinctStamps(uploads, n - 1) && uploads[n - 1].stamp !in Stored(uploads, n - 1)
  {
    StoredNames(uploads, n - 1, uploads[n - 1].stamp);
  }

  /** Storage holds as many files as were uploaded if and only if no two had the same name. */
  lemma {:induction false} NoneReplacedIff(uploads: seq<Upload>, n: nat)
    requires n <= |uploads|
    ensures |Stored(uploads, n)| <= n
    ensures |Stored(uploads, n)| == n <==> DistinctStamps(uploads, n)
    decreases n
  {
    if n > 0 {
      NoneReplacedIff(uploads, n - 1);
      StoreSize(Stored(uploads, n - 1), uploads[n - 1].stamp, uploads[n - 1].content);
      DistinctMore(uploads, n);
    }
  }

  /** Of two uploads at the same time, storage holds the second one only. */
  lemma UploadsCanCollide(stamp: nat)
    ensures var uploads := [Upload(stamp, "first"), Upload(stamp, "second")];
            !DistinctStamps(uploads, 2) && Stored(uploads, 2) == map[stamp := "second"]
  {
    var uploads := [Upload(stamp, "first"), Upload(stamp, "second")];
    assert Stored(uploads, 1) == map[stamp := "first"];
    assert uploads[0].stamp == uploads[1].stamp;
  }

  /** What storage holds, by name, are then exactly the uploads. */
  lemma {:induction false} NoneReplaced(uploads: seq<Upload>, n: nat)
    requires n <= |uploads| && DistinctStamps(uploads, n)
    ensures forall stamp :: stamp in Stored(uploads, n) <==> exists i :: 0 <= i < n && uploads[i].stamp == stamp
    ensures forall i | 0 <= i < n ::
              uploads[i].stamp in Stored(uploads, n) && Stored(uploads, n)[uploads[i].stamp] == uploads[i].content
    decreases n
  {
    if n > 0 {
      NoneReplaced(uploads, n - 1);
      forall stamp ensures stamp in Stored(uploads, n) <==> exists i :: 0 <= i < n && uploads[i].stamp == stamp {
        StoredNames(uploads, n, stamp);
      }
    }
  }

  lemma {:induction false} FilesSplit(uploads: seq<Upload>)
    ensures forall f | f in FilesOf(uploads) :: SplitAtLineEnds(f.lines)
  {
    forall f | f in FilesOf(uploads) ensures SplitAtLineEnds(f.lines) {
      var i :| 0 <= i < |uploads| && FilesOf(uploads)[i] == f;
      SplitLinesShape(uploads[i].content);
    }
  }

  lemma {:induction false} FilesShort(input: seq<string>, uploads: seq<Upload>)
    requires Uploaded(input, uploads) && forall line | line in input :: IsLine(line)
    ensures forall f | f in FilesOf(uploads) :: 0 < |f.lines| <= MAX_LINES_PER_LOG_FILE
  {
    forall f | f in FilesOf(uploads) ensures 0 < |f.lines| <= MAX_LINES_PER_LOG_FILE {
      var i :| 0 <= i < |uploads| && FilesOf(uploads)[i] == f;
      var p: nat, q: nat :| ReadAs(input, p, q, uploads[i].content);
      LinesWritten(input, p, q);
    }
  }

  lemma {:induction false} UploadsAreDirectory(input: seq<string>, uploads: seq<Upload>)
    requires Uploaded(input, uploads) && InOrder(uploads) && forall line | line in input :: IsLine(line)
    ensures var files := FilesOf(uploads);
            && Directory(files) && ByStamp(files) && IdsIncrease(AllLines(files))
            && forall f | f in files :: 0 < |f.lines| <= MAX_LINES_PER_LOG_FILE
  {
    FilesShort(input, uploads);
    LimitedFilesAreSpaced(FilesOf(uploads));
    LineIdsIncreaseIff(FilesOf(uploads));
  }

  /** The files of a directory are those in storage: a file has the lines of what is stored under its
      name, and nothing else is stored. */
  ghost predicate InStorage(files: seq<LogFile>, stored: map<nat, string>) {
    && (forall f | f in files :: f.stamp in stored && stored[f.stamp] == Concat(f.lines))
    && |files| == |stored|
  }

  lemma {:induction false} FilesInStorage(uploads: seq<Upload>)
    requires DistinctStamps(uploads, |uploads|)
    ensures InStorage(FilesOf(uploads), Stored(uploads, |uploads|))
  {
    NoneReplaced(uploads, |uploads|);
    NoneReplacedIff(uploads, |uploads|);
    forall f | f in FilesOf(uploads)
      ensures f.stamp in Stored(uploads, |uploads|) && Stored(uploads, |uploads|)[f.stamp] == Concat(f.lines)
    {
      var i :| 0 <= i < |uploads| && FilesOf(uploads)[i] == f;
      SplitLinesJoin(uploads[i].content);
    }
  }

  /** The uploads of a stream are a log directory with sorted names and short files, split at line
      ends; its lines have increasing ids, and put together they are what was read, one read after
      the other, up to the termination character. */
  lemma {:induction false} ReaderReadsWhatWasWritten(input: seq<string>, uploads: seq<Upload>)
    requires Uploaded(input, uploads) && InOrder(uploads) && Content(uploads, |uploads|) == Text(input, 0, |input|)
    requires forall line | line in input :: IsLine(line)
    ensures |Stored(uploads, |uploads|)| == |uploads|
    ensures var files := FilesOf(uploads);
            && InStorage(files, Stored(uploads, |uploads|)) && Directory(files) && ByStamp(files)
            && (forall f | f in files :: 0 < |f.lines| <= MAX_LINES_PER_LOG_FILE && SplitAtLineEnds(f.lines))
            && IdsIncrease(AllLines(files))
            && TextOf(AllLines(files)) == Text(input, 0, |input|)
            && (EndsOnce(input) ==>
                  EOT !in TextOf(AllLines(files)) && TextOf(AllLines(files)) + [EOT] <= Concat(input))
  {
    UploadsAreDirectory(input, uploads);
    FilesSplit(uploads);
    NoneReplacedIff(uploads, |uploads|);
    FilesInStorage(uploads);
    ReadBack(uploads, |uploads|);
    assert FilesOf(uploads)[..|uploads|] == FilesOf(uploads);
    if EndsOnce(input) {
      WholeText(input);
    }
  }
}
