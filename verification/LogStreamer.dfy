/** Streaming a process's output to remote storage (sematic/resolvers/log_streamer.py). */
module LogStreamer {
  import opened FutureStates
  import opened LogStreams

  const EOT: char := '\U{0004}'

  /** What is kept of a line that was read: what comes before the termination character. */
  function Payload(line: string): string {
    if line == [] || line[0] == EOT then [] else [line[0]] + Payload(line[1..])
  }

  predicate Ends(line: string) {
    EOT in line
  }

  /** The text of the reads `p..q`. */
  function Text(input: seq<string>, p: nat, q: nat): string
    requires q <= |input|
  {
    if q <= p then [] else Text(input, p, q - 1) + Payload(input[q - 1])
  }

  /** Texts one after the other. */
  function Concat(lines: seq<string>): string {
    if lines == [] then "" else lines[0] + Concat(lines[1..])
  }

  lemma {:induction false} ConcatAppend(a: seq<string>, b: seq<string>)
    ensures Concat(a + b) == Concat(a) + Concat(b)
    decreases |a|
  {
    if a == [] {
      assert a + b == b;
    } else {
      ConcatAppend(a[1..], b);
      assert (a + b)[1..] == a[1..] + b;
      Associative(a[0], Concat(a[1..]), Concat(b));
    }
  }

  lemma {:induction false} PayloadStops(line: string)
    ensures EOT !in Payload(line)
    ensures if Ends(line) then Payload(line) + [EOT] <= line else Payload(line) == line
    decreases |line|
  {
    if line != [] && line[0] != EOT {
      PayloadStops(line[1..]);
      assert line == [line[0]] + line[1..];
      if Ends(line) {
        assert [line[0]] + (Payload(line[1..]) + [EOT]) <= [line[0]] + line[1..];
        assert Payload(line) + [EOT] == [line[0]] + (Payload(line[1..]) + [EOT]);
      }
    }
  }

  /** What is kept of the reads `p..q` is what was read, one read after the other, or what comes
      before the termination character if the last of them has it. */
  ghost predicate IsTextOf(input: seq<string>, p: nat, q: nat, text: string)
    requires p <= q <= |input|
  {
    && EOT !in text
    && if p < q && EOT in input[q - 1] then text + [EOT] <= Concat(input[p..q]) else text == Concat(input[p..q])
  }

  lemma {:induction false} TextOfReads(input: seq<string>, p: nat, q: nat)
    requires p <= q <= |input| && forall i | p <= i < q - 1 :: EOT !in input[i]
    ensures IsTextOf(input, p, q, Text(input, p, q))
    decreases q
  {
    if p < q {
      var line := input[q - 1];
      TextOfReads(input, p, q - 1);
      PayloadStops(line);
      assert input[p..q] == input[p..q - 1] + [line];
      ConcatAppend(input[p..q - 1], [line]);
      assert Concat([line]) == line + Concat([]) == line;
      PrefixAppend(Concat(input[p..q - 1]), Payload(line), line);
    }
  }

  lemma PrefixAppend(a: string, x: string, line: string)
    ensures x + [EOT] <= line ==> a + x + [EOT] <= a + line
    ensures EOT in a + x <==> EOT in a || EOT in x
  {
    if x + [EOT] <= line {
      assert line == (x + [EOT]) + line[|x| + 1..];
      assert a + line == (a + x + [EOT]) + line[|x| + 1..];
    }
  }

  /** How many lines are written for what was read: empty reads are not. */
  function Writes(input: seq<string>, p: nat, q: nat): nat
    requires q <= |input|
  {
    if q <= p then 0 else Writes(input, p, q - 1) + if input[q - 1] == "" then 0 else 1
  }

  lemma {:induction false} TextUpTo(input: seq<string>, p: nat, mid: nat, q: nat)
    requires p <= mid <= q <= |input|
    ensures Text(input, p, q) == Text(input, p, mid) + Text(input, mid, q)
    decreases q
  {
    if mid < q {
      TextUpTo(input, p, mid, q - 1);
      Associative(Text(input, p, mid), Text(input, mid, q - 1), Payload(input[q - 1]));
    }
  }

  lemma {:induction false} PayloadOfLine(line: string)
    ensures !Ends(line) ==> Payload(line) == line
    decreases |line|
  {
    if line != [] && line[0] != EOT {
      PayloadOfLine(line[1..]);
      assert line == [line[0]] + line[1..];
    }
  }

  /** An upload: the time in milliseconds that names it, and what it contains. */
  datatype Upload = Upload(stamp: nat, content: string)

  /** What is in storage after the first `n` uploads: one replaces another of the same name. */
  function Stored(uploads: seq<Upload>, n: nat): map<nat, string>
    requires n <= |uploads|
  {
    if n == 0 then map[] else Stored(uploads, n - 1)[uploads[n - 1].stamp := uploads[n - 1].content]
  }

  /** The contents of the first `n` uploads one after the other. */
  function Content(uploads: seq<Upload>, n: nat): string
    requires n <= |uploads|
  {
    if n == 0 then [] else Content(uploads, n - 1) + uploads[n - 1].content
  }

  lemma {:induction false} SameUploads(a: seq<Upload>, b: seq<Upload>, n: nat)
    requires a <= b && n <= |a|
    ensures Stored(b, n) == Stored(a, n) && Content(b, n) == Content(a, n)
    decreases n
  {
    if n > 0 {
      SameUploads(a, b, n - 1);
    }
  }

  class Streamer {
    /** What the calls of `readline` on the pipe return: a line, part of one, or nothing. */
    const input: seq<string>

    var next: nat
    var delta: string
    var previous: Option<string>
    var tee: string
    var remote: map<nat, string>
    ghost var uploads: seq<Upload>

    constructor (input: seq<string>)
      ensures this.input == input && next == 0 && delta == "" && previous == None && tee == "" && remote == map[]
              && uploads == []
    {
      this.input := input;
      next, delta, previous, tee, remote, uploads := 0, "", None, "", map[], [];
    }

    /** What was read was written through, and uploaded in the order in which it was read. */
    ghost predicate Valid()
      reads this
    {
      && next <= |input| && tee == Text(input, 0, next)
      && remote == Stored(uploads, |uploads|) && Content(uploads, |uploads|) == tee
    }

    /** `_do_upload` */
    method DoUpload(stamp: nat)
      modifies this`remote, this`uploads
      ensures if delta == "" then uploads == old(uploads) && remote == old(remote)
              else uploads == old(uploads) + [Upload(stamp, delta)] && remote == old(remote)[stamp := delta]
      ensures Content(uploads, |uploads|) == Content(old(uploads), |old(uploads)|) + delta
      ensures old(remote) == Stored(old(uploads), |old(uploads)|) ==> remote == Stored(uploads, |uploads|)
    {
      ghost var before := uploads;
      if delta != "" {
        remote := remote[stamp := delta];
        uploads := uploads + [Upload(stamp, delta)];
      }
      Flushed(before, uploads, stamp, delta);
    }

    /** The termination character is still to be read. */
    ghost predicate Open()
      reads this
    {
      exists i | next <= i < |input| :: Ends(input[i])
    }

    /** Streams what is read to a new local file, until time is up, the file is full, or the
        stream has ended. */
    method ReadDelta(expired: nat -> bool, maxLines: nat) returns (received: bool)
      requires Open() && maxLines >= 1
      modifies this`next, this`delta, this`tee
      ensures old(next) <= next <= |input|
      ensures received <==> old(next) < next && Ends(input[next - 1])
      ensures forall i | old(next) <= i < next - 1 :: !Ends(input[i])
      ensures delta == Text(input, old(next), next) && Writes(input, old(next), next) <= maxLines
      ensures tee == old(tee) + delta
      ensures forall k | 0 <= k < next - old(next) :: !expired(k)
      ensures received || Writes(input, old(next), next) == maxLines || expired(next - old(next))
    {
      ghost var p := next;
      delta, received := "", false;
      var linesWritten, checks := 0, 0;
      while !expired(checks)
        invariant p <= next < |input| && checks == next - p && forall k | 0 <= k < checks :: !expired(k)
        invariant !received && forall i | p <= i < next :: !Ends(input[i])
        invariant delta == Text(input, p, next) && tee == old(tee) + delta
        invariant linesWritten == Writes(input, p, next) && linesWritten < maxLines
        decreases |input| - next
      {
        var line := input[next];
        PayloadOfLine(line);
        next := next + 1;
        checks := checks + 1;
        if Ends(line) {
          line := Payload(line);
          received := true;
        } else if line == "" {
          continue;
        }
        Associative(old(tee), delta, line);
        delta := delta + line;
        tee := tee + line;
        linesWritten := linesWritten + 1;
        if received || linesWritten >= maxLines {
          break;
        }
      }
    }

    /** `_flush_to_file`: fills a local file and uploads it. */
    method FlushToFile(expired: nat -> bool, stamp: nat, maxLines: nat) returns (received: bool)
      requires Valid() && Open() && maxLines >= 1
      modifies this`next, this`delta, this`previous, this`tee, this`remote, this`uploads
      ensures Valid() && old(next) <= next <= |input|
      ensures received <==> old(next) < next && Ends(input[next - 1])
      ensures forall i | old(next) <= i < next - 1 :: !Ends(input[i])
      ensures delta == Text(input, old(next), next) && Writes(input, old(next), next) <= maxLines
      ensures if delta == "" then uploads == old(uploads) && remote == old(remote)
              else uploads == old(uploads) + [Upload(stamp, delta)] && remote == old(remote)[stamp := delta]
      ensures forall k | 0 <= k < next - old(next) :: !expired(k)
      ensures received || Writes(input, old(next), next) == maxLines || expired(next - old(next))
      ensures previous == if old(delta) != "" then Some(old(delta)) else old(previous)
    {
      ghost var p := next;
      if delta != "" {
        previous := Some(delta);
      }
      received := ReadDelta(expired, maxLines);
      assert tee == Text(input, 0, next) by {
        TextUpTo(input, 0, p, next);
      }
      DoUpload(stamp);
    }

    /** The streaming loop: one file after the other until the stream has ended. `expired` tells
        when the time for a file is up, and `clock` when it is uploaded. */
    method StreamLogsToRemote(expired: nat -> nat -> bool, clock: nat -> nat)
      requires Valid() && next == 0 && delta == "" && uploads == [] && remote == map[]
      requires EndsOnce(input) && Fair(expired)
      modifies this
      ensures Valid() && tee == Text(input, 0, |input|)
      ensures EOT !in tee && tee + [EOT] <= Concat(input) && Content(uploads, |uploads|) == tee
      ensures Uploaded(input, uploads) && (Advances(clock) ==> InOrder(uploads))
    {
      var received, files := false, 0;
      ghost var goal := Later(expired, 0);
      while !received
        invariant Valid() && next <= |input| && (received <==> next == |input|)
        invariant Uploaded(input, uploads) && files <= goal && InTime(expired, goal)
        invariant StampedBy(clock, files, uploads)
        decreases |input| - next, goal - files
      {
        ghost var p, before := next, uploads;
        assert Ends(input[|input| - 1]);
        received := FlushToFile(expired(files), clock(files), MAX_LINES_PER_LOG_FILE);
        EndIsLast(input, p, next);
        FileMore(input, clock, files, before, p, next, delta, uploads);
        goal := NextGoal(expired, files, goal, p < next);
        files := files + 1;
      }
      WholeText(input);
    }
  }

  /** The text of a whole stream is what was read, up to the termination character. */
  lemma WholeText(input: seq<string>)
    requires EndsOnce(input)
    ensures EOT !in Text(input, 0, |input|) && Text(input, 0, |input|) + [EOT] <= Concat(input)
  {
    assert Ends(input[|input| - 1]) && forall i | 0 <= i < |input| - 1 :: !Ends(input[i]);
    TextOfReads(input, 0, |input|);
    assert input[0..|input|] == input;
  }

  /** The last read was the one with the termination character exactly if all was read. */
  lemma EndIsLast(input: seq<string>, p: nat, next: nat)
    requires EndsOnce(input) && p <= next <= |input| && p < |input|
    ensures p < next && Ends(input[next - 1]) <==> next == |input|
  {
  }

  /** One more file was filled from the reads from `p` to `q`, and uploaded unless it is empty. */
  lemma FileMore(input: seq<string>, clock: nat -> nat, files: nat, before: seq<Upload>, p: nat, q: nat,
      delta: string, uploads: seq<Upload>)
    requires Uploaded(input, before) && StampedBy(clock, files, before) && ReadAs(input, p, q, delta)
    requires uploads == if delta == "" then before else before + [Upload(clock(files), delta)]
    ensures Uploaded(input, uploads) && StampedBy(clock, files + 1, uploads)
  {
    if delta != "" {
      UploadedMore(input, before, Upload(clock(files), delta));
    }
    StampedMore(clock, files, before, delta);
  }

  /** Time is not up before the first read for file `k`. */
  predicate InTime(expired: nat -> nat -> bool, k: nat) {
    !expired(k)(0)
  }

  ghost predicate TimeLater(expired: nat -> nat -> bool, k: nat) {
    exists l: nat :: k <= l && InTime(expired, l)
  }

  /** Again and again there is time to read. */
  ghost predicate Fair(expired: nat -> nat -> bool) {
    forall k: nat :: TimeLater(expired, k)
  }

  /** The next file for which there is time to read, after file `k` was read or not. */
  lemma NextGoal(expired: nat -> nat -> bool, k: nat, goal: nat, progress: bool) returns (next: nat)
    requires Fair(expired) && k <= goal && InTime(expired, goal) && (InTime(expired, k) ==> progress)
    ensures k < next && InTime(expired, next) && (!progress ==> next == goal)
  {
    if progress {
      next := Later(expired, k + 1);
    } else {
      next := goal;
    }
  }

  lemma Later(expired: nat -> nat -> bool, k: nat) returns (l: nat)
    requires Fair(expired)
    ensures k <= l && InTime(expired, l)
  {
    assert TimeLater(expired, k);
    l :| k <= l && InTime(expired, l);
  }

  /** Time goes on between two uploads. */
  ghost predicate Advances(clock: nat -> nat) {
    forall j: nat, k: nat | j < k :: clock(j) < clock(k)
  }

  /** The stamps of what was uploaded before file `n`. */
  ghost predicate StampedBy(clock: nat -> nat, n: nat, uploads: seq<Upload>) {
    Advances(clock) ==>
      InOrder(uploads) && (uploads != [] ==> n > 0 && uploads[|uploads| - 1].stamp <= clock(n - 1))
  }

  lemma StampedMore(clock: nat -> nat, n: nat, uploads: seq<Upload>, delta: string)
    requires StampedBy(clock, n, uploads)
    ensures StampedBy(clock, n + 1, if delta == "" then uploads else uploads + [Upload(clock(n), delta)])
  {
    if Advances(clock) && n > 0 {
      assert clock(n - 1) < clock(n);
    }
  }

  /** Uploads of what was read, none of them empty. */
  ghost predicate Uploaded(input: seq<string>, uploads: seq<Upload>) {
    forall i | 0 <= i < |uploads| :: uploads[i].content != "" && FromReads(input, uploads[i].content)
  }

  lemma UploadedMore(input: seq<string>, uploads: seq<Upload>, u: Upload)
    requires Uploaded(input, uploads) && u.content != "" && FromReads(input, u.content)
    ensures Uploaded(input, uploads + [u])
  {
  }

  lemma {:induction false} UploadMore(uploads: seq<Upload>, u: Upload)
    ensures Stored(uploads + [u], |uploads| + 1) == Stored(uploads, |uploads|)[u.stamp := u.content]
    ensures Content(uploads + [u], |uploads| + 1) == Content(uploads, |uploads|) + u.content
  {
    var all := uploads + [u];
    assert uploads <= all && all[|uploads|] == u;
    SameUploads(uploads, all, |uploads|);
  }

  /** A text is uploaded unless it is empty. */
  lemma {:induction false} Flushed(a: seq<Upload>, b: seq<Upload>, stamp: nat, delta: string)
    requires b == if delta == "" then a else a + [Upload(stamp, delta)]
    ensures Content(b, |b|) == Content(a, |a|) + delta
    ensures Stored(b, |b|) == if delta == "" then Stored(a, |a|) else Stored(a, |a|)[stamp := delta]
  {
    if delta != "" {
      UploadMore(a, Upload(stamp, delta));
    }
  }

  /** The termination character is in the last read only. */
  ghost predicate EndsOnce(input: seq<string>) {
    input != [] && forall i | 0 <= i < |input| :: Ends(input[i]) <==> i == |input| - 1
  }

  ghost predicate InOrder(uploads: seq<Upload>) {
    forall i, j | 0 <= i < j < |uploads| :: uploads[i].stamp < uploads[j].stamp
  }

  /** A text that was read with at most as many reads as a file has lines. */
  ghost predicate FromReads(input: seq<string>, content: string) {
    exists p: nat, q: nat :: ReadAs(input, p, q, content)
  }

  ghost predicate ReadAs(input: seq<string>, p: nat, q: nat, content: string) {
    p <= q <= |input| && content == Text(input, p, q) && Writes(input, p, q) <= MAX_LINES_PER_LOG_FILE
  }
}
