/** Which runs a rerun keeps: the skip set is a union of whole layers, and what is neither
    skipped nor reset depends on nothing that is reset. */
module RerunFacts {
  import opened FutureStates
  import opened Semantics
  import opened Algorithms
  import opened RunGraph

  /** An affected run is neither the starting point nor above it. */
  lemma AffectedNotAbove(g: GraphData, rank: map<Id, nat>, r: Id, d: Id)
    requires WellFormed(g, rank) && r in rank && d in rank && Affected(g, rank, r, d)
    ensures !AtOrAbove(g, rank, d, r)
  {
    var a :| a in rank && AtOrAbove(g, rank, a, r) && Flows(g, rank, a, d);
    FlowsRank(g, rank, a, d);
    if AtOrAbove(g, rank, d, r) {
      AboveLinear(g, rank, a, d, r);
      SiblingsAbove(g, rank, a, d, a);
      SiblingsAbove(g, rank, a, d, d);
      if Above(g, rank, a, d) {
        AboveRank(g, rank, a, a);
      } else {
        AboveRank(g, rank, d, d);
      }
    }
  }

  /** A run is skipped if and only if its parent is skipped, is where the rerun starts, or is
      affected: all runs of a layer share the same fate. */
  lemma SkippedByParent(g: GraphData, rank: map<Id, nat>, r: Id, x: Id)
    requires WellFormed(g, rank) && r in rank && x in rank
    ensures match ParentOf(g, x)
            case None => !Skipped(g, rank, r, x)
            case Some(q) =>
              q in rank && (Skipped(g, rank, r, x) <==> q == r || Affected(g, rank, r, q) || Skipped(g, rank, r, q))
  {
    ParentRank(g, rank, x);
    if ParentOf(g, x).Some? {
      var q := ParentOf(g, x).value;
      if Affected(g, rank, r, q) {
        assert Above(g, rank, q, x);
      }
      if Skipped(g, rank, r, q) && !Above(g, rank, r, q) {
        var d :| d in rank && Affected(g, rank, r, d) && Above(g, rank, d, q);
        assert Above(g, rank, d, x);
      }
    }
  }

  lemma SiblingsSkipped(g: GraphData, rank: map<Id, nat>, r: Id, x: Id, y: Id)
    requires WellFormed(g, rank) && r in rank && x in rank && y in rank && ParentOf(g, x) == ParentOf(g, y)
    ensures Skipped(g, rank, r, x) == Skipped(g, rank, r, y)
  {
    SkippedByParent(g, rank, r, x);
    SkippedByParent(g, rank, r, y);
  }

  /** The starting point and its ancestors are kept. */
  lemma {:induction false} LineIsKept(g: GraphData, rank: map<Id, nat>, r: Id, x: Id)
    requires WellFormed(g, rank) && r in rank && x in rank && AtOrAbove(g, rank, x, r)
    ensures !Skipped(g, rank, r, x)
    decreases rank[x]
  {
    SkippedByParent(g, rank, r, x);
    if ParentOf(g, x).Some? {
      var q := ParentOf(g, x).value;
      ParentRank(g, rank, x);
      assert Above(g, rank, q, x);
      if x != r {
        AboveTrans(g, rank, q, x, r);
      }
      LineIsKept(g, rank, r, q);
      if q == r {
        AboveRank(g, rank, r, r);
      }
      if Affected(g, rank, r, q) {
        AffectedNotAbove(g, rank, r, q);
      }
    }
  }

  /** Below an ancestor of the starting point, the whole layer is kept. */
  lemma LayerIsKept(g: GraphData, rank: map<Id, nat>, r: Id, x: Id)
    requires WellFormed(g, rank) && r in rank && x in rank
    requires ParentOf(g, x).Some? && Above(g, rank, ParentOf(g, x).value, r)
    ensures !Skipped(g, rank, r, x)
  {
    var q := ParentOf(g, x).value;
    AboveRank(g, rank, q, r);
    LineIsKept(g, rank, r, q);
    SkippedByParent(g, rank, r, x);
    if Affected(g, rank, r, q) {
      AffectedNotAbove(g, rank, r, q);
    }
  }

  /** Below the starting point and below every affected run, everything is skipped. */
  lemma LayerIsSkipped(g: GraphData, rank: map<Id, nat>, r: Id, x: Id)
    requires WellFormed(g, rank) && r in rank && x in rank && ParentOf(g, x).Some? && ParentOf(g, x).value in rank
    requires ParentOf(g, x).value == r || Affected(g, rank, r, ParentOf(g, x).value)
    ensures Skipped(g, rank, r, x)
  {
    SkippedByParent(g, rank, r, x);
  }

  /** A reset run's parent is an ancestor of the starting point. */
  lemma ResetParent(g: GraphData, rank: map<Id, nat>, r: Id, x: Id)
    requires WellFormed(g, rank) && r in rank && x in rank && Reset(g, rank, r, x) && ParentOf(g, x).Some?
    ensures Above(g, rank, ParentOf(g, x).value, r)
  {
    ParentRank(g, rank, x);
    var q := ParentOf(g, x).value;
    if AtOrAbove(g, rank, x, r) {
      assert Above(g, rank, q, x);
      if x != r {
        AboveTrans(g, rank, q, x, r);
      }
    } else {
      var a :| a in rank && AtOrAbove(g, rank, a, r) && Flows(g, rank, a, x);
      FlowsRank(g, rank, a, x);
      assert Above(g, rank, q, a);
      if a != r {
        AboveTrans(g, rank, q, a, r);
      }
    }
  }

  /** A run that is not affected has no reset run upstream. */
  lemma UpstreamNotReset(g: GraphData, rank: map<Id, nat>, r: Id, e: Edge)
    requires WellFormed(g, rank) && r in rank && e in g.edges && e.source.Some? && e.destination.Some?
    requires e.destination.value in rank && !Affected(g, rank, r, e.destination.value)
    ensures e.source.value in rank && !Reset(g, rank, r, e.source.value)
  {
    assert EdgeOk(g, rank, e);
    FlowsEdge(g, rank, e);
    var a, x := e.source.value, e.destination.value;
    if Affected(g, rank, r, a) {
      var b :| b in rank && AtOrAbove(g, rank, b, r) && Flows(g, rank, b, a);
      FlowsTrans(g, rank, b, a, x);
    }
  }

  /** Resetting is closed under downstream: what uses a reset run starts over as well. */
  lemma ResetIsClosed(g: GraphData, rank: map<Id, nat>, r: Id, e: Edge)
    requires WellFormed(g, rank) && r in rank && e in g.edges && e.source.Some? && e.destination.Some?
    requires e.source.value in rank && Reset(g, rank, r, e.source.value)
    ensures e.destination.value in rank && Affected(g, rank, r, e.destination.value)
  {
    assert EdgeOk(g, rank, e);
    if !Affected(g, rank, r, e.destination.value) {
      UpstreamNotReset(g, rank, r, e);
    }
  }

  /** No run is both reset and skipped. */
  lemma ResetNotSkipped(g: GraphData, rank: map<Id, nat>, r: Id, x: Id)
    requires WellFormed(g, rank) && r in rank && x in rank && Reset(g, rank, r, x)
    ensures !Skipped(g, rank, r, x)
  {
    if ParentOf(g, x).None? {
      SkippedByParent(g, rank, r, x);
    } else {
      ResetParent(g, rank, r, x);
      LayerIsKept(g, rank, r, x);
    }
  }
}
