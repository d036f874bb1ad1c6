/** What becomes of every run when a recorded pipeline is continued (the CONTINUE mode), told from
    the recorded states. */
module CloneContinue {
  import opened FutureStates
  import opened Semantics
  import opened RunnerState
  import opened RunnerInvariant
  import opened Algorithms
  import opened RunGraph
  import opened LayerOrder
  import opened Records
  import opened Clone
  import opened CloneSeed

  /** The clone of a recorded run waits for its nested future if that one is to be run again; if
      not, it keeps the value the run had, or else starts over. */
  ghost predicate Continued(s: State, g: GraphData, at: map<Id, nat>, ids: seq<Id>, cells: seq<Cell>, x: Id)
    requires x in at
  {
    && x in ids && Position(ids, x) < |cells| && RunById(g.runs, x).Some? && at[x] < |s.cells|
    && var d, run := cells[Position(ids, x)], RunById(g.runs, x).value;
       && d.parent == (if run.parent.Some? then Some(Position(ids, run.parent.value)) else None)
       && d.nested == (if run.nested.Some? then Some(Position(ids, run.nested.value)) else None)
       && (if run.nested.Some? && NeedsRerun(g, run.nested.value) then d.state == RAN && d.value.None?
           else if run.state == RESOLVED then d.state == RESOLVED && d.value.Some? && d.value == s.cells[at[x]].value
           else d.state == CREATED && d.value.None?)
  }

  /** A resolved run has no nested run that is not. */
  lemma ResolvedNested(p: Program, s: State, g: GraphData, at: map<Id, nat>, x: Id)
    requires Shape(s) && Life(p, s) && RecordedAs(g, s, at) && WellFormed(g, at) && x in at
    requires RunById(g.runs, x).Some? && RunById(g.runs, x).value.nested.Some?
    requires RunById(g.runs, x).value.state == RESOLVED
    ensures !NeedsRerun(g, RunById(g.runs, x).value.nested.value)
  {
    var y := RunById(g.runs, x).value.nested.value;
    NestedRun(s, g, at, x);
    RunOf(g, s, at, x);
    RunOf(g, s, at, y);
    assert CellOk(p, s, at[x]) && CellOk(p, s, at[y]);
  }

  /** Continuing the record of any reachable state clones every run like that. */
  lemma {:induction false} ContinuedClone(p: Program, s: State, g: GraphData, at: map<Id, nat>,
      standalone: Func -> bool, reset: set<Id>, ids: seq<Id>, c: State, x: Id)
    requires Copies(s, g, at, standalone, reset, ids, c) && Life(p, s)
    requires x in at && forall y :: y in reset <==> y in at && NeedsRerun(g, y)
    requires forall y | y in at :: y in ids
    ensures Continued(s, g, at, ids, c.cells, x)
  {
    var i := Position(ids, x);
    CopyAt(s, g, at, standalone, reset, ids, c, i);
    RecordedOutput(p, s, g, at, x);
    RunOf(g, s, at, x);
    var run := RunById(g.runs, x).value;
    if run.nested.Some? {
      NestedRun(s, g, at, x);
      if run.state == RESOLVED {
        ResolvedNested(p, s, g, at, x);
      }
    }
  }
}
