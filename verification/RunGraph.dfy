/** The recorded graph of a pipeline run: its layers, its orders, and which runs a rerun
    skips or resets (sematic/graph.py, sematic/utils/memoized_property.py). */
module RunGraph {
  import opened FutureStates
  import opened Semantics
  import opened Algorithms

  datatype Run = Run(id: Id, func: Func, state: FutureState, parent: Option<Id>, nested: Option<Id>)

  /** An edge carries the value of its artifact, if there is one yet. */
  datatype Edge = Edge(source: Option<Id>, destination: Option<Id>, destinationName: Option<string>,
      artifact: Option<Value>)

  datatype GraphData = GraphData(runs: seq<Run>, edges: seq<Edge>)

  // ------------------------------------------------------------------ mappings

  /** `_runs_by_id`: a later run of the same id wins. */
  function RunById(runs: seq<Run>, x: Id): (r: Option<Run>)
    ensures r.Some? ==> r.value in runs && r.value.id == x
    ensures r.None? ==> forall run | run in runs :: run.id != x
  {
    if runs == [] then None
    else if runs[|runs| - 1].id == x then Some(runs[|runs| - 1])
    else RunById(runs[..|runs| - 1], x)
  }

  function ParentOf(g: GraphData, x: Id): Option<Id> {
    match RunById(g.runs, x)
    case Some(run) => run.parent
    case None => None
  }

  /** `_runs_by_parent_id`, as ids. */
  function Children(runs: seq<Run>, parent: Option<Id>): (r: seq<Id>)
    ensures forall x :: x in r <==> exists run | run in runs :: run.id == x && run.parent == parent
  {
    if runs == [] then []
    else
      assert forall run | run in runs :: run == runs[0] || run in runs[1..];
      (if runs[0].parent == parent then [runs[0].id] else []) + Children(runs[1..], parent)
  }

  /** `_edges_by_destination_id`. */
  function InputEdges(edges: seq<Edge>, x: Id): (r: seq<Edge>)
    ensures forall e :: e in r <==> e in edges && e.destination == Some(x)
  {
    if edges == [] then []
    else (if edges[0].destination == Some(x) then [edges[0]] else []) + InputEdges(edges[1..], x)
  }

  /** `_edges_by_source_id`. */
  function OutputEdges(edges: seq<Edge>, x: Id): (r: seq<Edge>)
    ensures forall e :: e in r <==> e in edges && e.source == Some(x)
  {
    if edges == [] then []
    else (if edges[0].source == Some(x) then [edges[0]] else []) + OutputEdges(edges[1..], x)
  }

  function Sources(edges: seq<Edge>): seq<Option<Id>> {
    seq(|edges|, i requires 0 <= i < |edges| => edges[i].source)
  }

  function Destinations(edges: seq<Edge>): seq<Option<Id>> {
    seq(|edges|, i requires 0 <= i < |edges| => edges[i].destination)
  }

  function Ids(g: GraphData): set<Id> {
    set run | run in g.runs :: run.id
  }

  // --------------------------------------------------------------- well-formedness

  ghost predicate EdgeOk(g: GraphData, rank: map<Id, nat>, e: Edge) {
    && (e.source.Some? ==> e.source.value in rank)
    && (e.destination.Some? ==> e.destination.value in rank)
    && (e.source.Some? && e.destination.Some? ==>
          && ParentOf(g, e.source.value) == ParentOf(g, e.destination.value)
          && rank[e.source.value] < rank[e.destination.value])
  }

  ghost predicate RunOk(rank: map<Id, nat>, run: Run) {
    && run.id in rank
    && (run.parent.Some? ==> run.parent.value in rank && rank[run.parent.value] < rank[run.id])
  }

  /** A forest of runs with edges between siblings: `rank` numbers runs so that parents come
      before children and upstream before downstream. */
  ghost predicate WellFormed(g: GraphData, rank: map<Id, nat>) {
    && (forall i, j | 0 <= i < j < |g.runs| :: g.runs[i].id != g.runs[j].id)
    && rank.Keys == Ids(g)
    && (forall x | x in rank :: rank[x] < |g.runs|)
    && (forall run | run in g.runs :: RunOk(rank, run))
    && (forall e | e in g.edges :: EdgeOk(g, rank, e))
  }

  lemma RunByIdOf(g: GraphData, rank: map<Id, nat>, run: Run)
    requires WellFormed(g, rank) && run in g.runs
    ensures RunById(g.runs, run.id) == Some(run) && ParentOf(g, run.id) == run.parent
  {
    var r := RunById(g.runs, run.id);
    assert r.Some?;
    var i :| 0 <= i < |g.runs| && g.runs[i] == run;
    var j :| 0 <= j < |g.runs| && g.runs[j] == r.value;
  }

  lemma ParentRank(g: GraphData, rank: map<Id, nat>, x: Id)
    requires WellFormed(g, rank) && x in rank
    ensures RunById(g.runs, x).Some?
    ensures ParentOf(g, x).Some? ==> ParentOf(g, x).value in rank && rank[ParentOf(g, x).value] < rank[x]
  {
    var run :| run in g.runs && run.id == x;
    RunByIdOf(g, rank, run);
  }

  lemma ChildIs(g: GraphData, rank: map<Id, nat>, parent: Option<Id>, x: Id)
    requires WellFormed(g, rank)
    ensures x in Children(g.runs, parent) <==> x in rank && ParentOf(g, x) == parent
  {
    if x in rank {
      ParentRank(g, rank, x);
      var run := RunById(g.runs, x).value;
      RunByIdOf(g, rank, run);
    }
    if x in Children(g.runs, parent) {
      var run :| run in g.runs && run.id == x && run.parent == parent;
      RunByIdOf(g, rank, run);
    }
  }

  // ---------------------------------------------------------------- relations

  /** `a` is an ancestor of `x`; `x` is a descendant of `a`. */
  ghost predicate Above(g: GraphData, rank: map<Id, nat>, a: Id, x: Id)
    requires WellFormed(g, rank) && x in rank
    decreases rank[x]
  {
    ParentRank(g, rank, x);
    match ParentOf(g, x)
    case None => false
    case Some(q) => q == a || Above(g, rank, a, q)
  }

  /** `b` is downstream of `a`: it depends on `a`, maybe indirectly. */
  ghost predicate Flows(g: GraphData, rank: map<Id, nat>, a: Id, b: Id)
    requires WellFormed(g, rank) && b in rank
    decreases rank[b], 1
  {
    exists e | e in g.edges && e.destination == Some(b) && e.source.Some? :: FlowsInto(g, rank, a, e)
  }

  ghost predicate FlowsInto(g: GraphData, rank: map<Id, nat>, a: Id, e: Edge)
    requires WellFormed(g, rank) && e in g.edges && e.source.Some? && e.destination.Some?
    decreases rank[e.destination.value], 0
  {
    assert EdgeOk(g, rank, e);
    e.source.value == a || Flows(g, rank, a, e.source.value)
  }

  ghost predicate AtOrAbove(g: GraphData, rank: map<Id, nat>, a: Id, x: Id)
    requires WellFormed(g, rank) && x in rank
  {
    a == x || Above(g, rank, a, x)
  }

  lemma {:induction false} AboveRank(g: GraphData, rank: map<Id, nat>, a: Id, x: Id)
    requires WellFormed(g, rank) && x in rank && Above(g, rank, a, x)
    ensures a in rank && rank[a] < rank[x]
    decreases rank[x]
  {
    ParentRank(g, rank, x);
    var q := ParentOf(g, x).value;
    if q != a {
      AboveRank(g, rank, a, q);
    }
  }

  lemma {:induction false} AboveTrans(g: GraphData, rank: map<Id, nat>, a: Id, b: Id, x: Id)
    requires WellFormed(g, rank) && b in rank && x in rank && Above(g, rank, a, b) && Above(g, rank, b, x)
    ensures Above(g, rank, a, x)
    decreases rank[x]
  {
    ParentRank(g, rank, x);
    var q := ParentOf(g, x).value;
    if q != b {
      AboveTrans(g, rank, a, b, q);
    }
  }

  /** Ancestors of the same run lie on one line. */
  lemma {:induction false} AboveLinear(g: GraphData, rank: map<Id, nat>, a: Id, b: Id, x: Id)
    requires WellFormed(g, rank) && x in rank && a in rank && b in rank
    requires AtOrAbove(g, rank, a, x) && AtOrAbove(g, rank, b, x)
    ensures a == b || Above(g, rank, a, b) || Above(g, rank, b, a)
    decreases rank[x]
  {
    if a != x && b != x {
      ParentRank(g, rank, x);
      AboveLinear(g, rank, a, b, ParentOf(g, x).value);
    }
  }

  /** A descendant is a child or a descendant of a child. */
  lemma {:induction false} AboveFromTop(g: GraphData, rank: map<Id, nat>, a: Id, x: Id)
    requires WellFormed(g, rank) && x in rank
    ensures Above(g, rank, a, x) <==> exists c | c in rank && ParentOf(g, c) == Some(a) :: AtOrAbove(g, rank, c, x)
    decreases rank[x]
  {
    ParentRank(g, rank, x);
    if ParentOf(g, x).Some? {
      AboveFromTop(g, rank, a, ParentOf(g, x).value);
    }
    if c :| c in rank && ParentOf(g, c) == Some(a) && AtOrAbove(g, rank, c, x) {
      if c != x {
        assert Above(g, rank, a, c);
        AboveTrans(g, rank, a, c, x);
      }
    }
    if Above(g, rank, a, x) {
      var q := ParentOf(g, x).value;
      if q == a {
        assert AtOrAbove(g, rank, x, x);
      } else {
        var c :| c in rank && ParentOf(g, c) == Some(a) && AtOrAbove(g, rank, c, q);
        assert AtOrAbove(g, rank, c, x);
      }
    }
  }

  lemma {:induction false} FlowsRank(g: GraphData, rank: map<Id, nat>, a: Id, b: Id)
    requires WellFormed(g, rank) && b in rank && Flows(g, rank, a, b)
    ensures a in rank && rank[a] < rank[b] && ParentOf(g, a) == ParentOf(g, b)
    decreases rank[b]
  {
    var e :| e in g.edges && e.destination == Some(b) && e.source.Some? && FlowsInto(g, rank, a, e);
    assert EdgeOk(g, rank, e);
    if e.source.value != a {
      FlowsRank(g, rank, a, e.source.value);
    }
  }

  lemma {:induction false} FlowsTrans(g: GraphData, rank: map<Id, nat>, a: Id, b: Id, c: Id)
    requires WellFormed(g, rank) && b in rank && c in rank && Flows(g, rank, a, b) && Flows(g, rank, b, c)
    ensures Flows(g, rank, a, c)
    decreases rank[c]
  {
    var e :| e in g.edges && e.destination == Some(c) && e.source.Some? && FlowsInto(g, rank, b, e);
    assert EdgeOk(g, rank, e);
    if e.source.value != b {
      FlowsTrans(g, rank, a, b, e.source.value);
    }
    assert FlowsInto(g, rank, a, e);
  }

  lemma FlowsEdge(g: GraphData, rank: map<Id, nat>, e: Edge)
    requires WellFormed(g, rank) && e in g.edges && e.source.Some? && e.destination.Some?
    ensures e.destination.value in rank && Flows(g, rank, e.source.value, e.destination.value)
  {
    assert EdgeOk(g, rank, e);
    assert FlowsInto(g, rank, e.source.value, e);
  }

  /** A downstream run is a direct one or downstream of a direct one. */
  lemma {:induction false} FlowsFromFront(g: GraphData, rank: map<Id, nat>, a: Id, b: Id)
    requires WellFormed(g, rank) && b in rank
    ensures Flows(g, rank, a, b) <==>
            exists e | e in g.edges && e.source == Some(a) && e.destination.Some? ::
              e.destination.value in rank && (e.destination.value == b || Flows(g, rank, e.destination.value, b))
    decreases rank[b]
  {
    if Flows(g, rank, a, b) {
      var e :| e in g.edges && e.destination == Some(b) && e.source.Some? && FlowsInto(g, rank, a, e);
      assert EdgeOk(g, rank, e);
      if e.source.value != a {
        var c := e.source.value;
        FlowsFromFront(g, rank, a, c);
        var d :| d in g.edges && d.source == Some(a) && d.destination.Some? && d.destination.value in rank
                 && (d.destination.value == c || Flows(g, rank, d.destination.value, c));
        FlowsEdge(g, rank, e);
        if d.destination.value != c {
          FlowsTrans(g, rank, d.destination.value, c, b);
        }
      }
    }
    if e :| e in g.edges && e.source == Some(a) && e.destination.Some?
            && e.destination.value in rank && (e.destination.value == b || Flows(g, rank, e.destination.value, b)) {
      FlowsEdge(g, rank, e);
      if e.destination.value != b {
        FlowsTrans(g, rank, a, e.destination.value, b);
      }
    }
  }

  /** Runs of one layer have the same ancestors. */
  lemma SiblingsAbove(g: GraphData, rank: map<Id, nat>, a: Id, b: Id, z: Id)
    requires WellFormed(g, rank) && a in rank && b in rank && ParentOf(g, a) == ParentOf(g, b)
    ensures Above(g, rank, z, a) == Above(g, rank, z, b)
  {
  }

  // -------------------------------------------------------------- skip and reset

  /** `d` runs after `r`'s own result changed: downstream of `r` or of an ancestor of `r`. */
  ghost predicate Affected(g: GraphData, rank: map<Id, nat>, r: Id, d: Id)
    requires WellFormed(g, rank) && r in rank && d in rank
  {
    exists a | a in rank && AtOrAbove(g, rank, a, r) :: Flows(g, rank, a, d)
  }

  /** The runs a rerun from `r` leaves out: what `r` and the runs affected by it had nested. */
  ghost predicate Skipped(g: GraphData, rank: map<Id, nat>, r: Id, y: Id)
    requires WellFormed(g, rank) && r in rank && y in rank
  {
    Above(g, rank, r, y) || exists d | d in rank && Affected(g, rank, r, d) :: Above(g, rank, d, y)
  }

  /** The runs a rerun from `r` does not take over as resolved. */
  ghost predicate Reset(g: GraphData, rank: map<Id, nat>, r: Id, y: Id)
    requires WellFormed(g, rank) && r in rank && y in rank
  {
    AtOrAbove(g, rank, y, r) || Affected(g, rank, r, y)
  }

  /** A run affected from `r` affects nothing that `r` does not. */
  lemma {:induction false} AffectedTrans(g: GraphData, rank: map<Id, nat>, r: Id, d: Id, e: Id)
    requires WellFormed(g, rank) && r in rank && d in rank && e in rank
    requires Affected(g, rank, r, d) && Affected(g, rank, d, e)
    ensures Affected(g, rank, r, e)
  {
    var a :| a in rank && AtOrAbove(g, rank, a, r) && Flows(g, rank, a, d);
    var b :| b in rank && AtOrAbove(g, rank, b, d) && Flows(g, rank, b, e);
    FlowsRank(g, rank, a, d);
    if b == d {
      FlowsTrans(g, rank, a, d, e);
    } else {
      SiblingsAbove(g, rank, a, d, b);
      if a != r {
        AboveTrans(g, rank, b, a, r);
      }
    }
  }

  /** What a rerun from an affected run skips, a rerun from `r` skips as well. */
  lemma {:induction false} SkippedFromAffected(g: GraphData, rank: map<Id, nat>, r: Id, d: Id, y: Id)
    requires WellFormed(g, rank) && r in rank && d in rank && y in rank
    requires Affected(g, rank, r, d) && Skipped(g, rank, d, y)
    ensures Skipped(g, rank, r, y)
  {
    if !Above(g, rank, d, y) {
      var e :| e in rank && Affected(g, rank, d, e) && Above(g, rank, e, y);
      AffectedTrans(g, rank, r, d, e);
    }
  }

  /** What a rerun from a child skips, a rerun from its parent skips as well. */
  lemma SkippedFromChild(g: GraphData, rank: map<Id, nat>, x: Id, c: Id, y: Id)
    requires WellFormed(g, rank) && x in rank && c in rank && y in rank && ParentOf(g, c) == Some(x)
    requires Skipped(g, rank, c, y)
    ensures Skipped(g, rank, x, y)
  {
    assert Above(g, rank, x, c);
    if Above(g, rank, c, y) {
      AboveTrans(g, rank, x, c, y);
    } else {
      var d :| d in rank && Affected(g, rank, c, d) && Above(g, rank, d, y);
      var a :| a in rank && AtOrAbove(g, rank, a, c) && Flows(g, rank, a, d);
      if a == c {
        FlowsRank(g, rank, c, d);
        assert Above(g, rank, x, d);
        AboveTrans(g, rank, x, d, y);
      } else {
        assert AtOrAbove(g, rank, a, x);
        assert Affected(g, rank, x, d);
      }
    }
  }
}
