/** Recording the state of a runner as runs and edges (sematic/runners/local_runner.py). */
module Recording {
  import opened FutureStates
  import opened Semantics
  import opened RunnerState
  import opened RunnerInvariant
  import opened Algorithms
  import opened RunGraph
  import opened LayerOrder
  import opened Records
  import opened RerunFacts
  import opened CloneSeed

  /** Ids of futures, all different. */
  function IdOf(i: nat): (x: Id)
    ensures |x| == i
  {
    seq(i, _ => 'f')
  }

  function IdOption(i: Option<nat>): Option<Id> {
    match i
    case None => None
    case Some(j) => Some(IdOf(j))
  }

  /** `_make_run` */
  function RunAt(s: State, i: nat): Run
    requires i < |s.calls| == |s.cells|
  {
    Run(IdOf(i), s.calls[i].func, s.cells[i].state, IdOption(s.cells[i].parent), IdOption(s.cells[i].nested))
  }

  /** The input edge of an argument. */
  function ArgEdge(s: State, i: nat, k: nat): Edge
    requires i < |s.calls| == |s.cells| && k < |s.calls[i].kwargs|
  {
    var kwarg := s.calls[i].kwargs[k];
    match kwarg.arg
    case Concrete(v) => Edge(None, Some(IdOf(i)), Some(kwarg.name), Some(v))
    case Upstream(j) =>
      Edge(Some(IdOf(j)), Some(IdOf(i)), Some(kwarg.name), if j < |s.cells| then s.cells[j].value else None)
  }

  function ArgEdges(s: State, i: nat, n: nat): (edges: seq<Edge>)
    requires i < |s.calls| == |s.cells| && n <= |s.calls[i].kwargs|
    ensures |edges| == n && forall k | 0 <= k < n :: edges[k] == ArgEdge(s, i, k)
  {
    seq(n, k requires 0 <= k < n => ArgEdge(s, i, k))
  }

  /** The output edge of a future that no other future uses. */
  function OutEdge(s: State, i: nat): Edge
    requires i < |s.cells|
  {
    Edge(Some(IdOf(i)), None, None, s.cells[i].value)
  }

  ghost function EdgesAt(s: State, i: nat): seq<Edge>
    requires i < |s.calls| == |s.cells|
  {
    ArgEdges(s, i, |s.calls[i].kwargs|) + if UsedLater(s.calls, i) then [] else [OutEdge(s, i)]
  }

  /** The edges of the futures `m..n`: `_populate_graph_from_future` for each of them. */
  ghost function EdgesOf(s: State, m: nat, n: nat): seq<Edge>
    requires n <= |s.calls| == |s.cells|
  {
    if n <= m then [] else EdgesOf(s, m, n - 1) + EdgesAt(s, n - 1)
  }

  ghost function Recorded(s: State): GraphData
    requires |s.calls| == |s.cells|
  {
    GraphData(seq(|s.calls|, i requires 0 <= i < |s.calls| => RunAt(s, i)), EdgesOf(s, 0, |s.calls|))
  }

  /** Which future each run is. */
  ghost function Numbering(s: State): map<Id, nat>
    requires |s.calls| == |s.cells|
  {
    map x | x in Ids(Recorded(s)) :: |x|
  }

  // ------------------------------------------------------------------- edges

  lemma {:induction false} EdgesInclude(s: State, n: nat, i: nat, e: Edge)
    requires i < n <= |s.calls| == |s.cells| && e in EdgesAt(s, i)
    ensures e in EdgesOf(s, 0, n)
    decreases n
  {
    if i < n - 1 {
      EdgesInclude(s, n - 1, i, e);
    }
  }

  lemma {:induction false} EdgeFrom(s: State, m: nat, n: nat, e: Edge) returns (i: nat)
    requires n <= |s.calls| == |s.cells| && e in EdgesOf(s, m, n)
    ensures m <= i < n && e in EdgesAt(s, i)
    decreases n
  {
    if e in EdgesAt(s, n - 1) {
      i := n - 1;
    } else {
      i := EdgeFrom(s, m, n - 1, e);
    }
  }

  lemma {:induction false} EdgesSplit(s: State, m: nat, n: nat)
    requires m <= n <= |s.calls| == |s.cells|
    ensures EdgesOf(s, 0, n) == EdgesOf(s, 0, m) + EdgesOf(s, m, n)
    decreases n
  {
    if m < n {
      EdgesSplit(s, m, n - 1);
    }
  }

  lemma {:induction false} InputEdgesAppend(a: seq<Edge>, b: seq<Edge>, x: Id)
    ensures InputEdges(a + b, x) == InputEdges(a, x) + InputEdges(b, x)
    decreases |a|
  {
    if a == [] {
      assert a + b == b;
    } else {
      InputEdgesAppend(a[1..], b, x);
      assert (a + b)[0] == a[0] && (a + b)[1..] == a[1..] + b;
      var first := if a[0].destination == Some(x) then [a[0]] else [];
      assert InputEdges(a, x) == first + InputEdges(a[1..], x);
      assert InputEdges(a + b, x) == first + InputEdges(a[1..] + b, x);
      assert first + (InputEdges(a[1..], x) + InputEdges(b, x)) == first + InputEdges(a[1..], x) + InputEdges(b, x);
    }
  }

  lemma {:induction false} InputEdgesAll(edges: seq<Edge>, x: Id)
    requires forall e | e in edges :: e.destination == Some(x)
    ensures InputEdges(edges, x) == edges
    decreases |edges|
  {
    if edges != [] {
      InputEdgesAll(edges[1..], x);
      assert edges == [edges[0]] + edges[1..];
    }
  }

  lemma {:induction false} InputEdgesNone(edges: seq<Edge>, x: Id)
    requires forall e | e in edges :: e.destination != Some(x)
    ensures InputEdges(edges, x) == []
  {
    if InputEdges(edges, x) != [] {
      assert InputEdges(edges, x)[0] in InputEdges(edges, x);
    }
  }

  /** The input edges of a run are those of its arguments, in their order. */
  lemma InputEdgesAt(s: State, i: nat, x: Id)
    requires i < |s.calls| == |s.cells|
    ensures InputEdges(EdgesAt(s, i), x) == if x == IdOf(i) then ArgEdges(s, i, |s.calls[i].kwargs|) else []
  {
    var args := ArgEdges(s, i, |s.calls[i].kwargs|);
    var out := if UsedLater(s.calls, i) then [] else [OutEdge(s, i)];
    InputEdgesAppend(args, out, x);
    InputEdgesNone(out, x);
    if x == IdOf(i) {
      InputEdgesAll(args, x);
    } else {
      InputEdgesNone(args, x);
    }
  }

  ghost function ArgsOf(s: State, i: nat): seq<Edge>
    requires i < |s.calls| == |s.cells|
  {
    ArgEdges(s, i, |s.calls[i].kwargs|)
  }

  /** The edges of other futures are no input edges of future `i`. */
  lemma InputEdgesOfOthers(s: State, m: nat, n: nat, i: nat)
    requires n <= |s.calls| == |s.cells| && (i < m || n <= i)
    ensures InputEdges(EdgesOf(s, m, n), IdOf(i)) == []
  {
    forall e | e in EdgesOf(s, m, n) ensures e.destination != Some(IdOf(i)) {
      var j := EdgeFrom(s, m, n, e);
      SameId(i, j);
    }
    InputEdgesNone(EdgesOf(s, m, n), IdOf(i));
  }

  lemma InputEdgesOf(s: State, i: nat)
    requires i < |s.calls| == |s.cells|
    ensures InputEdges(Recorded(s).edges, IdOf(i)) == ArgsOf(s, i)
  {
    var n, x := |s.calls|, IdOf(i);
    var before, here, after := EdgesOf(s, 0, i), EdgesAt(s, i), EdgesOf(s, i + 1, n);
    EdgesSplit(s, i + 1, n);
    assert EdgesOf(s, 0, i + 1) == before + here;
    InputsOfThree(before, here, after, x);
    InputEdgesOfOthers(s, 0, i, i);
    InputEdgesOfOthers(s, i + 1, n, i);
    InputEdgesAt(s, i, x);
  }

  lemma InputsOfThree(a: seq<Edge>, b: seq<Edge>, c: seq<Edge>, x: Id)
    ensures InputEdges(a, x) == [] && InputEdges(c, x) == [] ==> InputEdges(a + b + c, x) == InputEdges(b, x)
  {
    InputEdgesAppend(a + b, c, x);
    InputEdgesAppend(a, b, x);
    NoMore(InputEdges(b, x));
  }

  lemma SameId(i: nat, j: nat)
    ensures IdOf(i) == IdOf(j) <==> i == j
  {
    assert |IdOf(i)| == i && |IdOf(j)| == j;
  }

  lemma NoMore<T>(s: seq<T>)
    ensures s + [] == s && [] + s == s
  {
  }

  // ------------------------------------------------------------- faithfulness

  lemma NumberOf(s: State, i: nat)
    requires i < |s.calls| == |s.cells|
    ensures IdOf(i) in Numbering(s) && Numbering(s)[IdOf(i)] == i
  {
    assert Recorded(s).runs[i].id == IdOf(i);
  }

  lemma NumberedBy(s: State, x: Id)
    requires |s.calls| == |s.cells| && x in Numbering(s)
    ensures Numbering(s)[x] < |s.calls| && x == IdOf(Numbering(s)[x])
  {
    var run :| run in Recorded(s).runs && run.id == x;
    var i :| 0 <= i < |s.calls| && run == RunAt(s, i);
  }

  lemma EdgeIsRecorded(s: State, e: Edge)
    requires Shape(s) && e in Recorded(s).edges
    ensures EdgeRecords(s, Numbering(s), e)
  {
    var i := EdgeFrom(s, 0, |s.calls|, e);
    NumberOf(s, i);
    if e in ArgEdges(s, i, |s.calls[i].kwargs|) {
      var k: nat :| k < |s.calls[i].kwargs| && e == ArgEdge(s, i, k);
      if s.calls[i].kwargs[k].arg.Upstream? {
        assert Uses(s.calls[i], s.calls[i].kwargs[k].arg.id);
        NumberOf(s, s.calls[i].kwargs[k].arg.id);
      }
      assert ArgRecords(Numbering(s), s.calls[i].kwargs[k], e);
    }
  }

  lemma ArgsAreRecorded(s: State, x: Id)
    requires Shape(s) && x in Numbering(s)
    ensures Numbering(s)[x] < |s.calls| && KwargsRecorded(Recorded(s), s, Numbering(s), x)
  {
    NumberedBy(s, x);
    var i, at := Numbering(s)[x], Numbering(s);
    InputEdgesOf(s, i);
    var kwargs := s.calls[i].kwargs;
    forall k | 0 <= k < |kwargs| ensures KwargRecorded(Recorded(s), at, x, kwargs[k]) {
      var e := ArgEdge(s, i, k);
      assert ArgEdges(s, i, |kwargs|)[k] == e;
      if kwargs[k].arg.Upstream? {
        assert Uses(s.calls[i], kwargs[k].arg.id);
        NumberOf(s, kwargs[k].arg.id);
      }
      assert ArgRecords(at, kwargs[k], e);
    }
    OutputIsRecorded(s, i);
  }

  lemma OutputIsRecorded(s: State, i: nat)
    requires Shape(s) && i < |s.calls|
    ensures OutputEdges(Recorded(s).edges, IdOf(i)) != []
  {
    if UsedLater(s.calls, i) {
      var j: nat :| i < j < |s.calls| && Uses(s.calls[j], i);
      var k: nat :| k < |s.calls[j].kwargs| && s.calls[j].kwargs[k].arg == Upstream(i);
      assert ArgEdges(s, j, |s.calls[j].kwargs|)[k] == ArgEdge(s, j, k);
      EdgesInclude(s, |s.calls|, j, ArgEdge(s, j, k));
      assert ArgEdge(s, j, k) in OutputEdges(Recorded(s).edges, IdOf(i));
    } else {
      EdgesInclude(s, |s.calls|, i, OutEdge(s, i));
      assert OutEdge(s, i) in OutputEdges(Recorded(s).edges, IdOf(i));
    }
  }

  lemma RunIsRecorded(s: State, i: nat)
    requires Shape(s) && i < |s.calls|
    ensures RunRecords(s, Numbering(s), RunAt(s, i))
  {
    NumberOf(s, i);
    assert i > 0 ==> HasParent(s, i);
    assert NestedOk(s, i);
    if s.cells[i].parent.Some? {
      NumberOf(s, s.cells[i].parent.value);
    }
    if s.cells[i].nested.Some? {
      NumberOf(s, s.cells[i].nested.value);
    }
  }

  lemma RunsAreRecorded(s: State)
    requires Shape(s)
    ensures forall run | run in Recorded(s).runs :: RunRecords(s, Numbering(s), run)
  {
    forall run | run in Recorded(s).runs ensures RunRecords(s, Numbering(s), run) {
      var i: nat :| i < |s.calls| && run == RunAt(s, i);
      RunIsRecorded(s, i);
    }
  }

  lemma EdgesAreRecorded(s: State)
    requires Shape(s)
    ensures forall e | e in Recorded(s).edges :: EdgeRecords(s, Numbering(s), e)
    ensures forall x | x in Numbering(s) ::
              Numbering(s)[x] < |s.calls| && KwargsRecorded(Recorded(s), s, Numbering(s), x)
  {
    forall e | e in Recorded(s).edges ensures EdgeRecords(s, Numbering(s), e) {
      EdgeIsRecorded(s, e);
    }
    forall x | x in Numbering(s)
      ensures Numbering(s)[x] < |s.calls| && KwargsRecorded(Recorded(s), s, Numbering(s), x)
    {
      ArgsAreRecorded(s, x);
    }
  }

  /** Every state a runner can be in has a record. */
  lemma RecordIsFaithful(s: State)
    requires Shape(s)
    ensures RecordedAs(Recorded(s), s, Numbering(s))
  {
    var g, at := Recorded(s), Numbering(s);
    RunsAreRecorded(s);
    EdgesAreRecorded(s);
    forall x, y | x in at && y in at && at[x] == at[y] ensures SameIndex(at, x, y) {
      NumberedBy(s, x);
      NumberedBy(s, y);
    }
    forall i: nat | i < |s.calls| ensures HasName(at, i) {
      NumberOf(s, i);
    }
  }

  // ----------------------------------------------------------- repeated uses

  /** No call passes the same future for two of its arguments. */
  ghost predicate SingleUse(calls: seq<Call>) {
    forall i | 0 <= i < |calls| :: UsesOnce(calls[i])
  }

  ghost predicate UsesOnce(call: Call) {
    forall k, l | 0 <= k < l < |call.kwargs| && call.kwargs[k].arg.Upstream? :: call.kwargs[k].arg != call.kwargs[l].arg
  }

  lemma {:induction false} PairsInInputs(edges: seq<Edge>, a: Id, b: Id)
    ensures PairCount(edges, a, b) == PairCount(InputEdges(edges, b), a, b)
    decreases |edges|
  {
    if edges != [] {
      PairsInInputs(edges[1..], a, b);
      if edges[0].destination == Some(b) {
        assert ([edges[0]] + InputEdges(edges[1..], b))[1..] == InputEdges(edges[1..], b);
      } else {
        assert [] + InputEdges(edges[1..], b) == InputEdges(edges[1..], b);
      }
    }
  }

  /** Edges are counted twice if and only if two of them join the pair. */
  lemma {:induction false} CountTwice(edges: seq<Edge>, a: Id, b: Id)
    ensures PairCount(edges, a, b) > 1 <==>
            exists k, l | 0 <= k < l < |edges| :: Joins(edges[k], a, b) && Joins(edges[l], a, b)
    decreases |edges|
  {
    if edges != [] {
      var rest := edges[1..];
      CountTwice(rest, a, b);
      PairHasEdge(rest, a, b);
      if Joins(edges[0], a, b) && PairCount(rest, a, b) > 0 {
        var e :| e in rest && Joins(e, a, b);
        var l :| 0 <= l < |rest| && rest[l] == e;
        assert Joins(edges[0], a, b) && Joins(edges[l + 1], a, b);
      }
      if k, l :| 0 <= k < l < |rest| && Joins(rest[k], a, b) && Joins(rest[l], a, b) {
        assert Joins(edges[k + 1], a, b) && Joins(edges[l + 1], a, b);
      }
      if k, l :| 0 <= k < l < |edges| && Joins(edges[k], a, b) && Joins(edges[l], a, b) {
        assert rest[l - 1] == edges[l] && edges[l] in rest;
        if k > 0 {
          assert rest[k - 1] == edges[k];
          assert Joins(rest[k - 1], a, b) && Joins(rest[l - 1], a, b);
        }
      }
    }
  }

  predicate Joins(e: Edge, a: Id, b: Id) {
    e.source == Some(a) && e.destination == Some(b)
  }

  lemma CountOf(s: State, i: nat, a: Id)
    requires Shape(s) && i < |s.calls|
    ensures PairCount(Recorded(s).edges, a, IdOf(i)) == PairCount(ArgEdges(s, i, |s.calls[i].kwargs|), a, IdOf(i))
  {
    InputEdgesOf(s, i);
    PairsInInputs(Recorded(s).edges, a, IdOf(i));
  }

  lemma UsedOnceCounts(s: State, i: nat, a: Id)
    requires Shape(s) && i < |s.calls| && UsesOnce(s.calls[i])
    ensures PairCount(Recorded(s).edges, a, IdOf(i)) <= 1
  {
    var kwargs := s.calls[i].kwargs;
    var edges := ArgEdges(s, i, |kwargs|);
    CountOf(s, i, a);
    CountTwice(edges, a, IdOf(i));
    if k, l :| 0 <= k < l < |edges| && Joins(edges[k], a, IdOf(i)) && Joins(edges[l], a, IdOf(i)) {
      assert kwargs[k].arg.Upstream? && kwargs[l].arg.Upstream?;
      SameId(kwargs[k].arg.id, kwargs[l].arg.id);
    }
  }

  lemma UsedTwiceCounts(s: State, i: nat, k: nat, l: nat)
    requires Shape(s) && i < |s.calls| && k < l < |s.calls[i].kwargs|
    requires s.calls[i].kwargs[k].arg.Upstream? && s.calls[i].kwargs[k].arg == s.calls[i].kwargs[l].arg
    ensures PairCount(Recorded(s).edges, IdOf(s.calls[i].kwargs[k].arg.id), IdOf(i)) > 1
  {
    var a, edges := IdOf(s.calls[i].kwargs[k].arg.id), ArgEdges(s, i, |s.calls[i].kwargs|);
    CountOf(s, i, a);
    CountTwice(edges, a, IdOf(i));
    assert Joins(edges[k], a, IdOf(i)) && Joins(edges[l], a, IdOf(i));
  }

  /** A record has no repeated pair if and only if no call uses a future twice. */
  lemma RecordHasNoPairTwiceIff(s: State)
    requires Shape(s)
    ensures NoPairTwice(Recorded(s)) <==> SingleUse(s.calls)
  {
    var g := Recorded(s);
    if SingleUse(s.calls) {
      forall a, b ensures PairCount(g.edges, a, b) <= 1 {
        PairHasEdge(g.edges, a, b);
        if PairCount(g.edges, a, b) > 0 {
          var e :| e in g.edges && e.source == Some(a) && e.destination == Some(b);
          var i := EdgeFrom(s, 0, |s.calls|, e);
          UsedOnceCounts(s, i, a);
        }
      }
    } else {
      var i :| 0 <= i < |s.calls| && !UsesOnce(s.calls[i]);
      var kwargs := s.calls[i].kwargs;
      var k, l :| 0 <= k < l < |kwargs| && kwargs[k].arg.Upstream? && kwargs[k].arg == kwargs[l].arg;
      UsedTwiceCounts(s, i, k, l);
    }
  }

  /** The record of a state has what a rerun from a run asks for if and only if no call that is
      to be kept uses a future twice. */
  lemma RecordCanBeRerunIff(s: State, i: nat)
    requires Shape(s) && i < |s.calls|
    ensures FromRecord(s, Recorded(s), Numbering(s), IdOf(i))
    ensures Original(s, Recorded(s), Numbering(s), IdOf(i)) <==>
            forall j: nat | j < |s.calls| :: IdOf(j) in KeptSet(Recorded(s), Numbering(s), IdOf(i)) ==>
              UsesOnce(s.calls[j])
  {
    var g, at := Recorded(s), Numbering(s);
    RecordIsFaithful(s);
    RecordsWellFormed(g, s, at);
    NumberOf(s, i);
    var part := KeptSet(g, at, IdOf(i));
    if j: nat :| j < |s.calls| && IdOf(j) in part && !UsesOnce(s.calls[j]) {
      var kwargs := s.calls[j].kwargs;
      var k, l :| 0 <= k < l < |kwargs| && kwargs[k].arg.Upstream? && kwargs[k].arg == kwargs[l].arg;
      UsedTwiceCounts(s, j, k, l);
    }
    if a, b :| b in part && PairCount(g.edges, a, b) > 1 {
      NumberedBy(s, b);
      var j := at[b];
      if UsesOnce(s.calls[j]) {
        UsedOnceCounts(s, j, a);
      }
    }
  }

  /** So the record can be rerun from each of its runs if and only if no call uses a future twice. */
  lemma RecordCanBeRerunFromAllIff(s: State)
    requires Shape(s)
    ensures (forall i: nat | i < |s.calls| :: Original(s, Recorded(s), Numbering(s), IdOf(i))) <==> SingleUse(s.calls)
  {
    forall i: nat | i < |s.calls|
      ensures SingleUse(s.calls) ==> Original(s, Recorded(s), Numbering(s), IdOf(i))
      ensures Original(s, Recorded(s), Numbering(s), IdOf(i)) ==> UsesOnce(s.calls[i])
    {
      RecordCanBeRerunIff(s, i);
      LineIsKept(Recorded(s), Numbering(s), IdOf(i), IdOf(i));
    }
  }

  // ------------------------------------------------------ pipelines that failed

  /** What `_move_runs_to_terminal_state` makes of a run of a pipeline that failed. */
  function MovedRun(run: Run): Run {
    if run.state.IsTerminal() then run
    else run.(state := if run.parent.None? then FAILED else CANCELED)
  }

  function MovedRuns(runs: seq<Run>): seq<Run> {
    seq(|runs|, i requires 0 <= i < |runs| => MovedRun(runs[i]))
  }

  function MovedToTerminal(g: GraphData): GraphData {
    GraphData(MovedRuns(g.runs), g.edges)
  }

  lemma {:induction false} MovedRunById(runs: seq<Run>, x: Id)
    ensures RunById(MovedRuns(runs), x) ==
            match RunById(runs, x) case None => None case Some(run) => Some(MovedRun(run))
    decreases |runs|
  {
    if runs != [] {
      var init := runs[..|runs| - 1];
      MovedRunById(init, x);
      assert MovedRuns(runs)[..|runs| - 1] == MovedRuns(init);
    }
  }

  lemma {:induction false} MovedChildren(runs: seq<Run>, parent: Option<Id>)
    ensures Children(MovedRuns(runs), parent) == Children(runs, parent)
    decreases |runs|
  {
    if runs != [] {
      MovedChildren(runs[1..], parent);
      assert MovedRuns(runs)[1..] == MovedRuns(runs[1..]);
    }
  }

  /** Runs that had ended stay as they are; of the others, the one without a parent has failed now,
      and the rest are canceled. */
  ghost predicate MovedAll(runs: seq<Run>, moved: seq<Run>) {
    && |moved| == |runs|
    && forall i | 0 <= i < |runs| ::
         moved[i] == if runs[i].state in {RESOLVED, FAILED, NESTED_FAILED, CANCELED} then runs[i]
                     else if runs[i].parent == None then runs[i].(state := FAILED)
                     else runs[i].(state := CANCELED)
  }

  lemma MovedIds(g: GraphData)
    ensures Ids(MovedToTerminal(g)) == Ids(g)
  {
    var m := MovedToTerminal(g);
    forall x | x in Ids(g) ensures x in Ids(m) {
      var i :| 0 <= i < |g.runs| && g.runs[i].id == x;
      assert m.runs[i].id == x;
    }
  }

  lemma MovedRunsRecorded(s: State, g: GraphData, at: map<Id, nat>, run: Run)
    requires RecordedAs(g, s, at) && run in MovedToTerminal(g).runs
    ensures RunRecords(s, at, run)
  {
    var i :| 0 <= i < |g.runs| && run == MovedRun(g.runs[i]);
    assert RunRecords(s, at, g.runs[i]);
  }

  lemma MovedArgs(s: State, g: GraphData, at: map<Id, nat>, x: Id)
    requires RecordedAs(g, s, at) && x in at
    ensures KwargsRecorded(MovedToTerminal(g), s, at, x)
  {
    assert KwargsRecorded(g, s, at, x);
    forall k | 0 <= k < |s.calls[at[x]].kwargs|
      ensures KwargRecorded(MovedToTerminal(g), at, x, s.calls[at[x]].kwargs[k])
    {
      assert KwargRecorded(g, at, x, s.calls[at[x]].kwargs[k]);
    }
  }

  lemma MovedAllRuns(g: GraphData)
    ensures MovedAll(g.runs, MovedToTerminal(g).runs)
    ensures forall run | run in MovedToTerminal(g).runs :: run.state.IsTerminal()
  {
  }

  lemma {:induction false} MovedRecord(s: State, g: GraphData, at: map<Id, nat>)
    requires RecordedAs(g, s, at)
    ensures RecordedAs(MovedToTerminal(g), s, at)
  {
    var m := MovedToTerminal(g);
    MovedIds(g);
    forall run | run in m.runs ensures RunRecords(s, at, run) {
      MovedRunsRecorded(s, g, at, run);
    }
    forall x | x in at ensures KwargsRecorded(m, s, at, x) {
      MovedArgs(s, g, at, x);
    }
    assert forall i | 0 <= i < |g.runs| :: m.runs[i].id == g.runs[i].id;
  }

  /** Once every run is in a terminal state, the record describes the futures as before: which
      of them are RESOLVED, with which values, and how they depend on each other. */
  lemma {:induction false} MovedRecordIsFaithful(s: State, g: GraphData, at: map<Id, nat>)
    requires RecordedAs(g, s, at)
    ensures RecordedAs(MovedToTerminal(g), s, at)
    ensures MovedAll(g.runs, MovedToTerminal(g).runs)
    ensures forall run | run in MovedToTerminal(g).runs :: run.state.IsTerminal()
  {
    MovedRecord(s, g, at);
    MovedAllRuns(g);
  }

  lemma MovedParents(g: GraphData, x: Id)
    ensures ParentOf(MovedToTerminal(g), x) == ParentOf(g, x)
  {
    MovedRunById(g.runs, x);
  }

  lemma {:induction false} MovedAbove(g: GraphData, at: map<Id, nat>, a: Id, x: Id)
    requires WellFormed(g, at) && WellFormed(MovedToTerminal(g), at) && x in at
    ensures Above(MovedToTerminal(g), at, a, x) == Above(g, at, a, x)
    decreases at[x]
  {
    MovedParents(g, x);
    ParentRank(g, at, x);
    if ParentOf(g, x).Some? {
      MovedAbove(g, at, a, ParentOf(g, x).value);
    }
  }

  lemma {:induction false} MovedFlows(g: GraphData, at: map<Id, nat>, a: Id, b: Id)
    requires WellFormed(g, at) && WellFormed(MovedToTerminal(g), at) && b in at
    ensures Flows(MovedToTerminal(g), at, a, b) == Flows(g, at, a, b)
    decreases at[b]
  {
    forall e | e in g.edges && e.destination == Some(b) && e.source.Some?
      ensures FlowsInto(MovedToTerminal(g), at, a, e) == FlowsInto(g, at, a, e)
    {
      assert EdgeOk(g, at, e);
      MovedFlows(g, at, a, e.source.value);
    }
  }

  lemma {:induction false} MovedAffected(g: GraphData, at: map<Id, nat>, r: Id, d: Id)
    requires WellFormed(g, at) && WellFormed(MovedToTerminal(g), at) && r in at && d in at
    ensures Affected(MovedToTerminal(g), at, r, d) == Affected(g, at, r, d)
  {
    forall a | a in at ensures AtOrAbove(MovedToTerminal(g), at, a, r) == AtOrAbove(g, at, a, r)
                            && Flows(MovedToTerminal(g), at, a, d) == Flows(g, at, a, d) {
      MovedAbove(g, at, a, r);
      MovedFlows(g, at, a, d);
    }
  }

  lemma {:induction false} MovedFate(g: GraphData, at: map<Id, nat>, r: Id, y: Id)
    requires WellFormed(g, at) && WellFormed(MovedToTerminal(g), at) && r in at && y in at
    ensures Skipped(MovedToTerminal(g), at, r, y) == Skipped(g, at, r, y)
    ensures Reset(MovedToTerminal(g), at, r, y) == Reset(g, at, r, y)
  {
    MovedAbove(g, at, r, y);
    MovedAbove(g, at, y, r);
    MovedAffected(g, at, r, y);
    forall d | d in at ensures Affected(MovedToTerminal(g), at, r, d) == Affected(g, at, r, d)
                            && Above(MovedToTerminal(g), at, d, y) == Above(g, at, d, y) {
      MovedAffected(g, at, r, d);
      MovedAbove(g, at, d, y);
    }
  }

  lemma {:induction false} MovedKeeps(g: GraphData, at: map<Id, nat>, r: Id)
    requires WellFormed(g, at) && WellFormed(MovedToTerminal(g), at) && r in at
    ensures KeptSet(MovedToTerminal(g), at, r) == KeptSet(g, at, r)
  {
    forall y | y in at ensures Skipped(MovedToTerminal(g), at, r, y) == Skipped(g, at, r, y) {
      MovedFate(g, at, r, y);
    }
  }

  lemma {:induction false} MovedKeepable(g: GraphData, at: map<Id, nat>, r: Id)
    requires WellFormed(g, at) && WellFormed(MovedToTerminal(g), at) && r in at
    ensures Keepable(MovedToTerminal(g), at, r) <==> Keepable(g, at, r)
  {
    var m := MovedToTerminal(g);
    forall x | x in at
      ensures Skipped(m, at, r, x) == Skipped(g, at, r, x) && Reset(m, at, r, x) == Reset(g, at, r, x)
      ensures KeepableRun(m, x) == KeepableRun(g, x)
    {
      MovedFate(g, at, r, x);
      MovedRunById(g.runs, x);
      MovedChildren(g.runs, Some(x));
    }
  }

  /** Moving the runs of a failed pipeline to terminal states changes nothing for its reruns. */
  lemma FailedPipelineCanBeRerun(s: State, g: GraphData, at: map<Id, nat>, r: Id)
    requires FromRecord(s, g, at, r)
    ensures FromRecord(s, MovedToTerminal(g), at, r)
    ensures Original(s, MovedToTerminal(g), at, r) <==> Original(s, g, at, r)
    ensures Keepable(MovedToTerminal(g), at, r) <==> Keepable(g, at, r)
  {
    MovedRecordIsFaithful(s, g, at);
    RecordsWellFormed(MovedToTerminal(g), s, at);
    MovedKeeps(g, at, r);
    MovedKeepable(g, at, r);
  }
}
