/** The part of the runner's logs that belongs to one inline run (sematic/log_reader.py). */
module InlineLogs {
  import opened LogStreams

  /** `sub in text` */
  predicate Contains(text: string, sub: string) {
    exists i | 0 <= i <= |text| - |sub| :: OccursAt(text, sub, i)
  }

  /** `sub` is in `text`, between what comes before it and after it. */
  ghost predicate Within(text: string, sub: string) {
    exists a: string, b: string :: text == a + sub + b
  }

  lemma ContainsIff(text: string, sub: string)
    ensures Contains(text, sub) <==> Within(text, sub)
  {
    if Contains(text, sub) {
      var i :| 0 <= i <= |text| - |sub| && OccursAt(text, sub, i);
      assert text == text[..i] + sub + text[i + |sub|..];
    }
    if Within(text, sub) {
      var a: string, b: string :| text == a + sub + b;
      assert text[|a|..|a| + |sub|] == sub && OccursAt(text, sub, |a|);
    }
  }

  predicate OccursAt(text: string, sub: string, i: nat) {
    i + |sub| <= |text| && text[i..i + |sub|] == sub
  }

  function StartIndicator(runId: string): string {
    "--------- Sematic Start Inline Run " + runId + " ---------"
  }

  function EndIndicator(runId: string): string {
    "--------- Sematic End Inline Run " + runId + " ---------"
  }

  /** The lines after `first`, or from the start if it was `found` before, up to `last`. */
  function Inside(stream: seq<LogLine>, first: string, last: string, found: bool): seq<LogLine> {
    if stream == [] then []
    else if Contains(stream[0].text, first) then Inside(stream[1..], first, last, true)
    else if !found then Inside(stream[1..], first, last, false)
    else if Contains(stream[0].text, last) then []
    else [stream[0]] + Inside(stream[1..], first, last, true)
  }

  function First(runId: string, reverse: bool): string {
    if reverse then EndIndicator(runId) else StartIndicator(runId)
  }

  /** `_filter_for_inline` */
  method FilterForInline(stream: seq<LogLine>, runId: string, skipStart: bool,
      reverse: bool) returns (inline: seq<LogLine>)
    ensures inline == Inside(stream, First(runId, reverse), First(runId, !reverse), skipStart)
  {
    var expectedStart, expectedEnd := First(runId, reverse), First(runId, !reverse);
    inline := [];
    var foundStart := skipStart;
    var k := 0;
    while k < |stream|
      invariant 0 <= k <= |stream|
      invariant inline + Inside(stream[k..], expectedStart, expectedEnd, foundStart)
             == Inside(stream, expectedStart, expectedEnd, skipStart)
    {
      assert stream[k..][0] == stream[k] && stream[k..][1..] == stream[k + 1..];
      if Contains(stream[k].text, expectedStart) {
        foundStart := true;
      } else if foundStart {
        if Contains(stream[k].text, expectedEnd) {
          break;
        }
        Associative(inline, [stream[k]], Inside(stream[k + 1..], expectedStart, expectedEnd, true));
        inline := inline + [stream[k]];
      }
      k := k + 1;
    }
  }

  lemma {:induction false} SkipBefore(stream: seq<LogLine>, first: string, last: string, k: nat)
    requires k <= |stream| && forall i | 0 <= i < k :: !Contains(stream[i].text, first)
    ensures Inside(stream, first, last, false) == Inside(stream[k..], first, last, false)
    decreases k
  {
    if k > 0 {
      SkipBefore(stream[1..], first, last, k - 1);
      assert stream[1..][k - 1..] == stream[k..];
    }
  }

  lemma {:induction false} TakeBefore(stream: seq<LogLine>, first: string, last: string, k: nat)
    requires k <= |stream|
    requires forall i | 0 <= i < k :: !Contains(stream[i].text, first) && !Contains(stream[i].text, last)
    requires k == |stream| || (Contains(stream[k].text, last) && !Contains(stream[k].text, first))
    ensures Inside(stream, first, last, true) == stream[..k]
    decreases k
  {
    if k > 0 {
      TakeBefore(stream[1..], first, last, k - 1);
      assert stream[..k] == [stream[0]] + stream[1..][..k - 1];
    }
  }

  predicate IsStart(all: seq<LogLine>, runId: string, k: nat)
    requires k < |all|
  {
    Contains(all[k].text, StartIndicator(runId))
  }

  predicate IsEnd(all: seq<LogLine>, runId: string, k: nat)
    requires k < |all|
  {
    Contains(all[k].text, EndIndicator(runId))
  }

  predicate IsMarked(all: seq<LogLine>, runId: string, k: nat)
    requires k < |all|
  {
    IsStart(all, runId, k) || IsEnd(all, runId, k)
  }

  /** One attempt of a run: announced in line `lo - 1` of the runner's logs, and its end, if that
      has been logged, in line `hi`; otherwise `hi` is the end of the logs. */
  ghost predicate Attempt(all: seq<LogLine>, runId: string, lo: nat, hi: nat) {
    && 1 <= lo <= hi <= |all|
    && IsStart(all, runId, lo - 1) && !IsEnd(all, runId, lo - 1)
    && (hi < |all| ==> IsEnd(all, runId, hi) && !IsStart(all, runId, hi))
    && forall k | lo <= k < hi :: !IsMarked(all, runId, k)
  }

  ghost predicate NotAnnounced(all: seq<LogLine>, runId: string) {
    forall k | 0 <= k < |all| :: !IsMarked(all, runId, k)
  }

  /** The lines that belong to a run are `lo..hi`: all lines if the run is a job of its own,
      and what is between the indicators of one of its attempts if it is inline. */
  ghost predicate Window(all: seq<LogLine>, inline: bool, runId: string, lo: nat, hi: nat) {
    && lo <= hi <= |all|
    && if !inline then lo == 0 && hi == |all|
       else Attempt(all, runId, lo, hi) || (NotAnnounced(all, runId) && lo == hi == |all|)
  }

  /** Of an inline run that was retried, a first request shows one attempt: forwards the first
      one that was announced, backwards the last one whose end was logged. */
  ghost predicate Shown(all: seq<LogLine>, inline: bool, runId: string, lo: nat, hi: nat, reverse: bool) {
    inline ==>
      if !reverse then forall k | 0 <= k < |all| && k < lo - 1 :: !IsStart(all, runId, k)
      else
        || (hi < |all| && forall k | hi < k < |all| :: !IsEnd(all, runId, k))
        || (lo == hi && forall k | 0 <= k < |all| :: !IsEnd(all, runId, k))
  }

  /** What is read of a run from a place in the logs, in reading order. */
  function Visible(all: seq<LogLine>, inline: bool, runId: string, place: nat, hadLines: bool,
      reverse: bool): seq<LogLine>
    requires place <= |all|
  {
    var part := Part(all, place, reverse);
    if inline then Inside(part, First(runId, reverse), First(runId, !reverse), hadLines) else part
  }

  /** Where a cursor can be: at one end of the logs when nothing was read before, and
      afterwards within the lines of the attempt. */
  ghost predicate PlaceOk(all: seq<LogLine>, inline: bool, runId: string, lo: nat, hi: nat, place: nat,
      hadLines: bool, reverse: bool) {
    && place <= |all|
    && if hadLines then lo <= place <= hi && (inline ==> Attempt(all, runId, lo, hi))
       else place == (if reverse then |all| else 0) && Shown(all, inline, runId, lo, hi, reverse)
  }

  function Min(a: nat, b: nat): nat { if a < b then a else b }

  function Max(a: nat, b: nat): nat { if a < b then b else a }

  /** Reading never leaves the lines of one attempt, on the first page or on any later one. */
  lemma VisibleIsInWindow(all: seq<LogLine>, inline: bool, runId: string, lo: nat, hi: nat, place: nat,
      hadLines: bool, reverse: bool)
    requires Window(all, inline, runId, lo, hi) && PlaceOk(all, inline, runId, lo, hi, place, hadLines, reverse)
    ensures Visible(all, inline, runId, place, hadLines, reverse)
         == if reverse then Reversed(all[lo..Min(place, hi)]) else all[Max(place, lo)..hi]
  {
    if inline && reverse {
      InsideBackward(all, runId, lo, hi, place, hadLines);
    } else if inline {
      InsideForward(all, runId, lo, hi, place, hadLines);
    }
  }

  lemma InsideForward(all: seq<LogLine>, runId: string, lo: nat, hi: nat, place: nat, hadLines: bool)
    requires Window(all, true, runId, lo, hi) && PlaceOk(all, true, runId, lo, hi, place, hadLines, false)
    ensures Inside(all[place..], StartIndicator(runId), EndIndicator(runId), hadLines) == all[Max(place, lo)..hi]
  {
    var first, last := StartIndicator(runId), EndIndicator(runId);
    if !hadLines {
      var before := if Attempt(all, runId, lo, hi) then lo - 1 else |all|;
      forall k | 0 <= k < before ensures !Contains(all[k].text, first) {
        if Attempt(all, runId, lo, hi) {
          assert !IsStart(all, runId, k);
        } else {
          assert !IsMarked(all, runId, k);
        }
      }
      SkipBefore(all, first, last, before);
      assert all[place..] == all;
      if before < |all| {
        assert all[before..][0] == all[before] && all[before..][1..] == all[lo..];
        ForwardFrom(all, runId, lo, hi, lo);
      } else {
        assert all[before..] == [];
      }
    } else {
      ForwardFrom(all, runId, lo, hi, place);
    }
  }

  lemma ForwardFrom(all: seq<LogLine>, runId: string, lo: nat, hi: nat, place: nat)
    requires Attempt(all, runId, lo, hi) && lo <= place <= hi
    ensures Inside(all[place..], StartIndicator(runId), EndIndicator(runId), true) == all[place..hi]
  {
    var stream := all[place..];
    forall k | 0 <= k < hi - place
      ensures !Contains(stream[k].text, StartIndicator(runId)) && !Contains(stream[k].text, EndIndicator(runId))
    {
      assert !IsMarked(all, runId, place + k);
    }
    TakeBefore(stream, StartIndicator(runId), EndIndicator(runId), hi - place);
    assert all[place..][..hi - place] == all[place..hi];
  }

  /** Going backwards, nothing is found before an end indicator. */
  lemma BackwardSkip(all: seq<LogLine>, runId: string, hi: nat)
    requires hi < |all| && IsEnd(all, runId, hi) && forall k | hi < k < |all| :: !IsEnd(all, runId, k)
    ensures Inside(Reversed(all), EndIndicator(runId), StartIndicator(runId), false)
         == Inside(Reversed(all[..hi]), EndIndicator(runId), StartIndicator(runId), true)
  {
    var stream, before := Reversed(all), |all| - 1 - hi;
    forall k | 0 <= k < before ensures !Contains(stream[k].text, EndIndicator(runId)) {
      assert !IsEnd(all, runId, |all| - 1 - k);
    }
    SkipBefore(stream, EndIndicator(runId), StartIndicator(runId), before);
    assert stream[before..][0] == all[hi] && stream[before..][1..] == Reversed(all[..hi]);
  }

  lemma BackwardNothing(all: seq<LogLine>, runId: string)
    requires forall k | 0 <= k < |all| :: !IsEnd(all, runId, k)
    ensures Inside(Reversed(all), EndIndicator(runId), StartIndicator(runId), false) == []
  {
    var stream := Reversed(all);
    forall k | 0 <= k < |all| ensures !Contains(stream[k].text, EndIndicator(runId)) {
      assert !IsEnd(all, runId, |all| - 1 - k);
    }
    SkipBefore(stream, EndIndicator(runId), StartIndicator(runId), |all|);
  }

  lemma InsideBackward(all: seq<LogLine>, runId: string, lo: nat, hi: nat, place: nat, hadLines: bool)
    requires Window(all, true, runId, lo, hi) && PlaceOk(all, true, runId, lo, hi, place, hadLines, true)
    ensures Inside(Reversed(all[..place]), EndIndicator(runId), StartIndicator(runId), hadLines)
         == Reversed(all[lo..Min(place, hi)])
  {
    if hadLines {
      BackwardTo(all, runId, lo, hi, place);
    } else {
      assert all[..place] == all;
      if hi < |all| && forall k | hi < k < |all| :: !IsEnd(all, runId, k) {
        BackwardSkip(all, runId, hi);
        BackwardTo(all, runId, lo, hi, hi);
      } else {
        BackwardNothing(all, runId);
      }
    }
  }

  lemma BackwardTo(all: seq<LogLine>, runId: string, lo: nat, hi: nat, place: nat)
    requires Attempt(all, runId, lo, hi) && lo <= place <= hi
    ensures Inside(Reversed(all[..place]), EndIndicator(runId), StartIndicator(runId), true) == Reversed(all[lo..place])
  {
    var stream := Reversed(all[..place]);
    forall k | 0 <= k < place - lo
      ensures !Contains(stream[k].text, EndIndicator(runId)) && !Contains(stream[k].text, StartIndicator(runId))
    {
      assert !IsMarked(all, runId, place - 1 - k);
    }
    TakeBefore(stream, EndIndicator(runId), StartIndicator(runId), place - lo);
    assert stream[..place - lo] == Reversed(all[lo..place]);
  }

  // ------------------------------------------------- what reading back finds

  /** No line is both a start and an end, and an attempt starts between any two ends. */
  ghost predicate WellMarked(all: seq<LogLine>, runId: string) {
    && (forall k | 0 <= k < |all| :: !(IsStart(all, runId, k) && IsEnd(all, runId, k)))
    && (forall h, e | 0 <= h < e < |all| && IsEnd(all, runId, h) && IsEnd(all, runId, e) ::
         StartsBetween(all, runId, h, e))
  }

  ghost predicate StartsBetween(all: seq<LogLine>, runId: string, h: nat, e: nat)
    requires h < e < |all|
  {
    exists k | h < k < e :: IsStart(all, runId, k)
  }

  /** Lines are told apart by their places. */
  ghost predicate DistinctLines(all: seq<LogLine>) {
    forall i, j | 0 <= i < j < |all| :: all[i] != all[j]
  }

  /** The lines found come before the first indicator of the other kind. */
  lemma {:induction false} FoundBefore(stream: seq<LogLine>, first: string, last: string, k: nat)
    requires k < |stream| && Contains(stream[k].text, last) && !Contains(stream[k].text, first)
    ensures forall x | x in Inside(stream, first, last, true) :: x in stream[..k]
    decreases k
  {
    if k > 0 {
      FoundBefore(stream[1..], first, last, k - 1);
      assert stream[..k] == [stream[0]] + stream[1..][..k - 1];
    }
  }

  lemma {:induction false} FoundInside(stream: seq<LogLine>, first: string, last: string, found: bool)
    ensures forall x | x in Inside(stream, first, last, found) :: x in stream
    decreases |stream|
  {
    if stream != [] {
      FoundInside(stream[1..], first, last, true);
      FoundInside(stream[1..], first, last, false);
    }
  }

  /** The last of the lines that have some property. */
  lemma {:induction false} LastEnd(all: seq<LogLine>, runId: string, n: nat) returns (e: nat)
    requires n <= |all| && exists k | 0 <= k < n :: IsEnd(all, runId, k)
    ensures e < n && IsEnd(all, runId, e) && forall k | e < k < n :: !IsEnd(all, runId, k)
    decreases n
  {
    if IsEnd(all, runId, n - 1) {
      e := n - 1;
    } else {
      e := LastEnd(all, runId, n - 1);
    }
  }

  /** Reading backwards from the end finds the lines of an attempt if and only if its end was
      logged and it is the last one of which this holds. */
  lemma ReadingBackFindsAttemptIff(all: seq<LogLine>, runId: string, lo: nat, hi: nat)
    requires Attempt(all, runId, lo, hi) && lo < hi && WellMarked(all, runId) && DistinctLines(all)
    ensures Visible(all, true, runId, |all|, false, true) == Reversed(all[lo..hi]) <==>
            hi < |all| && forall k | hi < k < |all| :: !IsEnd(all, runId, k)
  {
    if hi < |all| && forall k | hi < k < |all| :: !IsEnd(all, runId, k) {
      VisibleIsInWindow(all, true, runId, lo, hi, |all|, false, true);
    } else {
      assert all[..|all|] == all;
      assert Reversed(all[lo..hi])[0] == all[hi - 1] && all[hi - 1] in Reversed(all[lo..hi]);
      if exists k | 0 <= k < |all| :: IsEnd(all, runId, k) {
        var e := LastEnd(all, runId, |all|);
        BackwardSkip(all, runId, e);
        OtherAttempt(all, runId, lo, hi, e);
      } else {
        BackwardNothing(all, runId);
      }
    }
  }

  /** What is found before the last end is not from another attempt. */
  lemma OtherAttempt(all: seq<LogLine>, runId: string, lo: nat, hi: nat, e: nat)
    requires Attempt(all, runId, lo, hi) && lo < hi && WellMarked(all, runId) && DistinctLines(all)
    requires e < |all| && IsEnd(all, runId, e) && e != hi && (hi < |all| ==> hi < e)
    ensures all[hi - 1] !in Inside(Reversed(all[..e]), EndIndicator(runId), StartIndicator(runId), true)
  {
    var stream := Reversed(all[..e]);
    if hi < |all| {
      assert StartsBetween(all, runId, hi, e);
      var k: nat :| hi < k < e && IsStart(all, runId, k);
      assert stream[e - 1 - k] == all[k];
      FoundBefore(stream, EndIndicator(runId), StartIndicator(runId), e - 1 - k);
      assert all[hi - 1] !in stream[..e - 1 - k];
    } else {
      assert lo <= e ==> !IsMarked(all, runId, e);
      FoundInside(stream, EndIndicator(runId), StartIndicator(runId), true);
      assert all[hi - 1] !in stream;
    }
  }

  function Logged(texts: seq<string>): seq<LogLine> {
    seq(|texts|, k requires 0 <= k < |texts| => LogLine(1600000000000, k, texts[k]))
  }

  lemma ShortLine(text: string, sub: string)
    requires |text| < |sub|
    ensures !Contains(text, sub)
  {
  }

  lemma IndicatorsDiffer()
    ensures Contains(StartIndicator("r"), StartIndicator("r")) && !Contains(StartIndicator("r"), EndIndicator("r"))
    ensures Contains(EndIndicator("r"), EndIndicator("r")) && !Contains(EndIndicator("r"), StartIndicator("r"))
  {
    var s, e := StartIndicator("r"), EndIndicator("r");
    assert s[0..|s|] == s && OccursAt(s, s, 0);
    assert e[0..|e|] == e && OccursAt(e, e, 0);
    assert |s| == |e| + 2;
    ShortLine(e, s);
    assert s[18] == 'S' && s[19] == 't' && s[20] == 'a' && e[18] == 'E';
    forall i | 0 <= i <= |s| - |e| ensures !OccursAt(s, e, i) {
      assert s[i..i + |e|][18] != e[18];
    }
  }

  /** The runner died while the run was executing: reading back finds nothing. */
  lemma EndMissing()
    ensures var all := Logged([StartIndicator("r"), "hello"]);
            && Attempt(all, "r", 1, 2) && WellMarked(all, "r") && DistinctLines(all)
            && Visible(all, true, "r", |all|, false, true) == []
  {
    var all := Logged([StartIndicator("r"), "hello"]);
    IndicatorsDiffer();
    ShortLine("hello", StartIndicator("r"));
    ShortLine("hello", EndIndicator("r"));
    assert all[..|all|] == all;
    BackwardNothing(all, "r");
  }

  /** The run was retried: reading forwards shows the first attempt, reading back the second. */
  lemma RetriedRun()
    ensures var all :=
              Logged([StartIndicator("r"), "one", EndIndicator("r"), StartIndicator("r"), "two", EndIndicator("r")]);
            && Visible(all, true, "r", 0, false, false) == [all[1]]
            && Visible(all, true, "r", |all|, false, true) == [all[4]]
  {
    var all := Logged([StartIndicator("r"), "one", EndIndicator("r"), StartIndicator("r"), "two", EndIndicator("r")]);
    IndicatorsDiffer();
    ShortLine("one", StartIndicator("r"));
    ShortLine("one", EndIndicator("r"));
    ShortLine("two", StartIndicator("r"));
    ShortLine("two", EndIndicator("r"));
    VisibleIsInWindow(all, true, "r", 1, 2, 0, false, false);
    VisibleIsInWindow(all, true, "r", 4, 5, |all|, false, true);
  }
}
