/** How a recorded graph relates to the runner state it was recorded from. */
module Records {
  import opened FutureStates
  import opened Semantics
  import opened RunnerState
  import opened RunnerInvariant
  import opened Algorithms
  import opened RunGraph
  import opened LayerOrder

  /** The run of a future: `at` maps run ids to the indices of futures. Its recorded state may
      differ from the future's as long as neither is RESOLVED. */
  ghost predicate RunRecords(s: State, at: map<Id, nat>, run: Run)
    requires |s.calls| == |s.cells|
  {
    run.id in at && at[run.id] < |s.cells| &&
    var c := s.cells[at[run.id]];
    && run.func == s.calls[at[run.id]].func && (run.state == RESOLVED <==> c.state == RESOLVED)
    && Named(at, run.parent, c.parent) && Named(at, run.nested, c.nested)
  }

  /** The same future, or none on either side. */
  ghost predicate Named(at: map<Id, nat>, x: Option<Id>, i: Option<nat>) {
    if x.Some? then x.value in at && i == Some(at[x.value]) else i.None?
  }

  /** The edge of an argument: a concrete value, or the output of an upstream run. */
  ghost predicate ArgRecords(at: map<Id, nat>, kwarg: Kwarg, e: Edge) {
    && e.destinationName == Some(kwarg.name)
    && match kwarg.arg
       case Concrete(v) => e.source.None? && e.artifact == Some(v)
       case Upstream(j) => e.source.Some? && e.source.value in at && at[e.source.value] == j
  }

  /** An edge carries its source's value, once that is resolved, to an argument. */
  ghost predicate EdgeRecords(s: State, at: map<Id, nat>, e: Edge)
    requires |s.calls| == |s.cells|
  {
    && (e.source.Some? ==>
          && e.source.value in at && at[e.source.value] < |s.cells|
          && e.artifact == s.cells[at[e.source.value]].value)
    && (e.destination.Some? ==>
          && e.destination.value in at && at[e.destination.value] < |s.calls|
          && exists k: nat :: k < |s.calls[at[e.destination.value]].kwargs|
                              && ArgRecords(at, s.calls[at[e.destination.value]].kwargs[k], e))
  }

  ghost predicate KwargRecorded(g: GraphData, at: map<Id, nat>, x: Id, kwarg: Kwarg) {
    exists e | e in InputEdges(g.edges, x) :: ArgRecords(at, kwarg, e)
  }

  ghost predicate KwargsRecorded(g: GraphData, s: State, at: map<Id, nat>, x: Id)
    requires |s.calls| == |s.cells| && x in at && at[x] < |s.calls|
  {
    && (forall k | 0 <= k < |s.calls[at[x]].kwargs| :: KwargRecorded(g, at, x, s.calls[at[x]].kwargs[k]))
    && DistinctArguments(InputEdges(g.edges, x))
    && (s.cells[at[x]].state == RESOLVED ==> OutputEdges(g.edges, x) != [])
  }

  ghost predicate DistinctArguments(edges: seq<Edge>) {
    forall i, j | 0 <= i < j < |edges| :: edges[i].destinationName != edges[j].destinationName
  }

  /** `g` records state `s`: one run per future, one edge per argument, and an output edge per
      resolved run, in any order. */
  ghost predicate RecordedAs(g: GraphData, s: State, at: map<Id, nat>) {
    && |s.calls| == |s.cells| == |g.runs| && at.Keys == Ids(g)
    && (forall i, j | 0 <= i < j < |g.runs| :: g.runs[i].id != g.runs[j].id)
    && (forall x {:trigger at[x]} | x in at :: at[x] < |s.calls|)
    && (forall x, y {:trigger SameIndex(at, x, y)} | x in at && y in at && at[x] == at[y] :: SameIndex(at, x, y))
    && (forall i: nat {:trigger HasName(at, i)} | i < |s.calls| :: HasName(at, i))
    && (forall run {:trigger RunRecords(s, at, run)} | run in g.runs :: RunRecords(s, at, run))
    && (forall e {:trigger EdgeRecords(s, at, e)} | e in g.edges :: EdgeRecords(s, at, e))
    && (forall x {:trigger KwargsRecorded(g, s, at, x)} | x in at :: KwargsRecorded(g, s, at, x))
  }

  ghost predicate SameIndex(at: map<Id, nat>, x: Id, y: Id) {
    x == y
  }

  ghost predicate HasName(at: map<Id, nat>, i: nat) {
    exists x :: x in at && at[x] == i
  }

  /** The record of one run. */
  lemma RunOf(g: GraphData, s: State, at: map<Id, nat>, x: Id)
    requires RecordedAs(g, s, at) && x in at
    ensures at[x] < |s.cells| && RunById(g.runs, x).Some?
    ensures RunRecords(s, at, RunById(g.runs, x).value) && RunById(g.runs, x).value in g.runs
    ensures Named(at, ParentOf(g, x), s.cells[at[x]].parent)
  {
    var run :| run in g.runs && run.id == x;
    assert RunById(g.runs, x).Some?;
    assert RunRecords(s, at, RunById(g.runs, x).value);
  }

  lemma SameParent(g: GraphData, s: State, at: map<Id, nat>, x: Id, y: Id)
    requires RecordedAs(g, s, at) && x in at && y in at
    requires at[x] < |s.cells| && at[y] < |s.cells| && s.cells[at[x]].parent == s.cells[at[y]].parent
    ensures ParentOf(g, x) == ParentOf(g, y)
  {
    RunOf(g, s, at, x);
    RunOf(g, s, at, y);
    if ParentOf(g, x).Some? {
      assert SameIndex(at, ParentOf(g, x).value, ParentOf(g, y).value);
    }
  }

  lemma EdgeUses(g: GraphData, s: State, at: map<Id, nat>, e: Edge)
    requires RecordedAs(g, s, at) && e in g.edges && e.source.Some? && e.destination.Some?
    ensures e.source.value in at && e.destination.value in at
    ensures at[e.source.value] < |s.calls| && at[e.destination.value] < |s.calls|
    ensures Uses(s.calls[at[e.destination.value]], at[e.source.value])
  {
    assert EdgeRecords(s, at, e);
    var kwargs := s.calls[at[e.destination.value]].kwargs;
    var k: nat :| k < |kwargs| && ArgRecords(at, kwargs[k], e);
    assert kwargs[k].arg == Upstream(at[e.source.value]);
  }

  lemma UsesEdge(g: GraphData, s: State, at: map<Id, nat>, x: Id, y: Id)
    requires RecordedAs(g, s, at) && x in at && y in at && at[y] < |s.calls|
    requires Uses(s.calls[at[y]], at[x])
    ensures exists e | e in InputEdges(g.edges, y) :: e.source == Some(x)
  {
    assert KwargsRecorded(g, s, at, y);
    var kwargs := s.calls[at[y]].kwargs;
    var k :| 0 <= k < |kwargs| && kwargs[k].arg == Upstream(at[x]);
    assert KwargRecorded(g, at, y, kwargs[k]);
    var e :| e in InputEdges(g.edges, y) && ArgRecords(at, kwargs[k], e);
    assert SameIndex(at, e.source.value, x);
  }

  /** What the runner's states guarantee of the graphs recorded from them. */
  lemma RecordsWellFormed(g: GraphData, s: State, at: map<Id, nat>)
    requires RecordedAs(g, s, at) && Shape(s)
    ensures WellFormed(g, at)
  {
    forall run | run in g.runs ensures RunOk(at, run) {
      assert RunRecords(s, at, run);
      assert at[run.id] > 0 ==> HasParent(s, at[run.id]);
    }
    forall e | e in g.edges ensures EdgeOk(g, at, e) {
      assert EdgeRecords(s, at, e);
      if e.source.Some? && e.destination.Some? {
        EdgeUses(g, s, at, e);
        assert SameLayer(s, at[e.destination.value]);
        SameParent(g, s, at, e.source.value, e.destination.value);
      }
    }
  }

  /** The root run, and that there is one only. */
  lemma RootRun(g: GraphData, s: State, at: map<Id, nat>) returns (root: Id)
    requires RecordedAs(g, s, at) && Shape(s)
    ensures root in at && at[root] == 0 && Children(g.runs, None) == [root]
    ensures forall x | x in at :: ParentOf(g, x).None? <==> x == root
  {
    assert HasName(at, 0);
    root :| root in at && at[root] == 0;
    RecordsWellFormed(g, s, at);
    forall x | x in at ensures ParentOf(g, x).None? <==> x == root {
      RunOf(g, s, at, x);
      if at[x] > 0 {
        assert HasParent(s, at[x]);
      } else {
        assert SameIndex(at, x, root);
      }
    }
    forall x ensures x in Children(g.runs, None) <==> x == root {
      ChildIs(g, at, None, x);
    }
    OneRoot(g, root);
  }

  lemma OneRoot(g: GraphData, root: Id)
    requires forall i, j | 0 <= i < j < |g.runs| :: g.runs[i].id != g.runs[j].id
    requires forall x :: x in Children(g.runs, None) <==> x == root
    ensures Children(g.runs, None) == [root]
  {
    var roots := Children(g.runs, None);
    DistinctChildren(g.runs, None);
    assert root in roots;
    forall i | 0 <= i < |roots| ensures roots[i] == root {
      assert roots[i] in roots;
    }
    FirstTwo(roots);
  }

  lemma FirstTwo(s: seq<Id>)
    requires NoRepeats(s)
    ensures |s| > 1 ==> s[0] != s[1]
  {
  }
}
