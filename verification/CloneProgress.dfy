/** A runner can go on from every clone of a record, even if runs are missing from it: a layer
    that lost a run lost its last one, so no parent waits for it. */
module CloneProgress {
  import opened FutureStates
  import opened Semantics
  import opened RunnerState
  import opened RunnerInvariant
  import opened RunnerSoundness
  import opened RunnerTermination
  import opened RunnerProgress
  import opened Algorithms
  import opened RunGraph
  import opened LayerOrder
  import opened Records
  import opened RerunFacts
  import opened Clone
  import opened CloneSeed

  /** The clone of a record without the runs `skip`, which are whole layers below other runs. */
  ghost predicate ClonedFrom(s: State, g: GraphData, at: map<Id, nat>, standalone: Func -> bool,
      skip: set<Id>, reset: set<Id>, c: State) {
    && Shape(s) && RecordedAs(g, s, at) && WellFormed(g, at)
    && WholeLayers(g, at, at.Keys - skip) && (forall x | x in skip :: ParentOf(g, x).Some?)
    && IsClone(g, standalone, reset, Kept(SortedByLayer(g, false), skip), c)
  }

  // ---------------------------------------------------------- complete layers

  /** No pair is joined twice in this layer or in one above. */
  ghost predicate OnceUp(g: GraphData, at: map<Id, nat>, x: Id)
    requires WellFormed(g, at) && x in at
    decreases at[x]
  {
    ParentRank(g, at, x);
    && LayerOnce(g, ParentOf(g, x))
    && (ParentOf(g, x).Some? ==> OnceUp(g, at, ParentOf(g, x).value))
  }

  ghost predicate LayerOnce(g: GraphData, parent: Option<Id>) {
    forall a, b | b in Children(g.runs, parent) :: PairCount(g.edges, a, b) <= 1
  }

  ghost function OnceUpSet(g: GraphData, at: map<Id, nat>): set<Id>
    requires WellFormed(g, at)
  {
    set x | x in at && OnceUp(g, at, x)
  }

  lemma OnceUpIsWhole(g: GraphData, at: map<Id, nat>)
    requires WellFormed(g, at)
    ensures WholeLayers(g, at, OnceUpSet(g, at)) && PairsOnce(g, OnceUpSet(g, at))
  {
    forall a, b | b in OnceUpSet(g, at) ensures PairCount(g.edges, a, b) <= 1 {
      ChildIs(g, at, ParentOf(g, b), b);
    }
  }

  /** What is upstream of a listed run is listed. */
  lemma {:induction false} UpstreamListed(g: GraphData, at: map<Id, nat>, a: Id, b: Id)
    requires WellFormed(g, at) && |Children(g.runs, None)| == 1 && b in at && Flows(g, at, a, b)
    requires b in SortedByLayer(g, false)
    ensures a in SortedByLayer(g, false)
    decreases at[b]
  {
    var e :| e in g.edges && e.destination == Some(b) && e.source.Some? && FlowsInto(g, at, a, e);
    assert EdgeOk(g, at, e);
    EdgeInOrder(g, at, false, e);
    if e.source.value != a {
      UpstreamListed(g, at, a, e.source.value);
    }
  }

  /** If the last run of a layer is listed, no pair is joined twice in the layer. */
  lemma {:induction false} NestedListedOnce(s: State, g: GraphData, at: map<Id, nat>, q: Id, y: Id)
    requires Shape(s) && RecordedAs(g, s, at) && WellFormed(g, at) && q in at && RunById(g.runs, q).Some?
    requires RunById(g.runs, q).value.nested == Some(y) && y in SortedByLayer(g, false)
    ensures LayerOnce(g, Some(q))
  {
    var root := RootRun(g, s, at);
    forall a, b | b in Children(g.runs, Some(q)) ensures PairCount(g.edges, a, b) <= 1 {
      if PairCount(g.edges, a, b) > 1 {
        ChildIs(g, at, Some(q), b);
        RepeatedPairIsDropped(g, at, false, a, b);
        var y' := FlowsToNested(s, g, at, b, q);
        if b != y {
          UpstreamListed(g, at, b, y);
        }
      }
    }
  }

  lemma RootOnceUp(s: State, g: GraphData, at: map<Id, nat>, root: Id)
    requires Shape(s) && RecordedAs(g, s, at) && WellFormed(g, at) && root in at
    requires Children(g.runs, None) == [root] && ParentOf(g, root).None?
    ensures OnceUp(g, at, root)
  {
    forall a, b | b in Children(g.runs, None) ensures PairCount(g.edges, a, b) <= 1 {
      PairHasEdge(g.edges, a, b);
      if PairCount(g.edges, a, b) > 0 {
        var e :| e in g.edges && e.source == Some(a) && e.destination == Some(b);
        assert EdgeOk(g, at, e);
        ChildIs(g, at, None, a);
      }
    }
  }

  // ------------------------------------------------------------ the weave

  /** The clones of runs whose layers are complete up to the root. */
  ghost function LiveOf(g: GraphData, at: map<Id, nat>, ids: seq<Id>): set<nat>
    requires WellFormed(g, at)
  {
    set i: nat | i < |ids| && ids[i] in OnceUpSet(g, at)
  }

  lemma CloneCopies(s: State, g: GraphData, at: map<Id, nat>, standalone: Func -> bool,
      skip: set<Id>, reset: set<Id>, c: State)
    requires ClonedFrom(s, g, at, standalone, skip, reset, c)
    ensures Copies(s, g, at, standalone, reset, Kept(SortedByLayer(g, false), skip), c)
    ensures forall x :: x in Kept(SortedByLayer(g, false), skip) <==> x in SortedByLayer(g, false) && x !in skip
  {
    KeptIs(SortedByLayer(g, false), skip);
  }

  /** Every kept run whose layers are complete is cloned, and listed. */
  lemma {:induction false} LiveIsListed(s: State, g: GraphData, at: map<Id, nat>, standalone: Func -> bool,
      skip: set<Id>, reset: set<Id>, c: State, x: Id)
    requires ClonedFrom(s, g, at, standalone, skip, reset, c) && x in OnceUpSet(g, at) && x !in skip
    ensures var ids := Kept(SortedByLayer(g, false), skip);
            x in ids && Position(ids, x) in LiveOf(g, at, ids) && Position(ids, x) in c.queue
  {
    CloneCopies(s, g, at, standalone, skip, reset, c);
    OnceUpIsWhole(g, at);
    PartListed(g, at, false, OnceUpSet(g, at), x);
    PartListed(g, at, true, OnceUpSet(g, at), x);
    OrderStructure(g, at, true);
    QueueIs(SortedByLayer(g, true), Kept(SortedByLayer(g, false), skip));
  }

  /** What the parent and the nested future of a clone are. */
  ghost predicate PlacedAt(g: GraphData, ids: seq<Id>, c: State, i: nat) {
    && i < |ids| == |c.cells| && RunById(g.runs, ids[i]).Some?
    && Position(ids, ids[i]) == i
    && (match ParentOf(g, ids[i])
        case None => c.cells[i].parent.None?
        case Some(q) => q in ids && Position(ids, q) < i && c.cells[i].parent == Some(Position(ids, q)))
    && (c.cells[i].nested.Some? ==>
          var y := RunById(g.runs, ids[i]).value.nested;
          && y.Some? && y.value in ids && ParentOf(g, y.value) == Some(ids[i])
          && c.cells[i].nested == Some(Position(ids, y.value)))
    && (c.cells[i].state == RAN ==> c.cells[i].nested.Some?)
  }

  lemma ClonePlaced(s: State, g: GraphData, at: map<Id, nat>, standalone: Func -> bool, reset: set<Id>,
      ids: seq<Id>, c: State, i: nat)
    requires Copies(s, g, at, standalone, reset, ids, c) && i < |ids|
    ensures PlacedAt(g, ids, c, i) && ids[i] in at
  {
    CopyAt(s, g, at, standalone, reset, ids, c, i);
    PositionUnique(ids, i);
    var run := RunById(g.runs, ids[i]).value;
    assert run.parent == ParentOf(g, ids[i]);
    if ParentOf(g, ids[i]).Some? {
      var q := ParentOf(g, ids[i]).value;
      var k :| 0 <= k < i && ids[k] == q;
      PositionUnique(ids, k);
    }
  }

  lemma {:induction false} CloneLinks(s: State, g: GraphData, at: map<Id, nat>, standalone: Func -> bool,
      reset: set<Id>, ids: seq<Id>, c: State, i: nat)
    requires Copies(s, g, at, standalone, reset, ids, c) && i < |c.cells| == |ids|
    ensures ParentBelow(c, i) && RanNested(c, i)
  {
    ClonePlaced(s, g, at, standalone, reset, ids, c, i);
    if c.cells[i].nested.Some? {
      ClonePlaced(s, g, at, standalone, reset, ids, c, c.cells[i].nested.value);
    }
  }

  lemma {:induction false} CloneIsLinked(s: State, g: GraphData, at: map<Id, nat>, standalone: Func -> bool,
      skip: set<Id>, reset: set<Id>, c: State)
    requires ClonedFrom(s, g, at, standalone, skip, reset, c)
    ensures Linked(c)
  {
    var ids := Kept(SortedByLayer(g, false), skip);
    CloneCopies(s, g, at, standalone, skip, reset, c);
    CloneValidCalls(s, g, at, standalone, reset, ids, c);
    CloneQueueStarts(s, g, at, standalone, skip, reset, c);
    forall i: nat | i < |c.cells| ensures ParentBelow(c, i) && RanNested(c, i) {
      CloneLinks(s, g, at, standalone, reset, ids, c, i);
    }
  }

  /** The list has no repetitions, and starts with the root. */
  lemma {:induction false} CloneQueueStarts(s: State, g: GraphData, at: map<Id, nat>, standalone: Func -> bool,
      skip: set<Id>, reset: set<Id>, c: State)
    requires ClonedFrom(s, g, at, standalone, skip, reset, c)
    ensures c.calls != [] && NoDuplicates(c.queue) && c.queue != [] && c.queue[0] == 0
    ensures forall i | i in c.queue :: i < |c.calls|
    ensures var ids := Kept(SortedByLayer(g, false), skip);
            ids != [] && ids[0] in at && at[ids[0]] == 0 && Children(g.runs, None) == [ids[0]]
  {
    var ids := Kept(SortedByLayer(g, false), skip);
    var root := RootRun(g, s, at);
    OrderStarts(g, at, false, root);
    OrderStarts(g, at, true, root);
    KeptStarts(SortedByLayer(g, false), skip);
    OrderStructure(g, at, true);
    QueueIs(SortedByLayer(g, true), ids);
    QueueStarts(SortedByLayer(g, true), ids);
    PositionUnique(ids, 0);
  }

  /** Whatever a clone waits for is cloned and listed, if its layers are complete. */
  lemma {:induction false} CloneCarries(s: State, g: GraphData, at: map<Id, nat>, standalone: Func -> bool,
      skip: set<Id>, reset: set<Id>, c: State, i: nat)
    requires ClonedFrom(s, g, at, standalone, skip, reset, c) && |c.cells| == |c.calls|
    requires i in LiveOf(g, at, Kept(SortedByLayer(g, false), skip))
    ensures Carried(c, LiveOf(g, at, Kept(SortedByLayer(g, false), skip)), i)
  {
    var ids := Kept(SortedByLayer(g, false), skip);
    var live := LiveOf(g, at, ids);
    CloneCopies(s, g, at, standalone, skip, reset, c);
    ClonePlaced(s, g, at, standalone, reset, ids, c, i);
    assert ids[i] in ids;
    LiveIsListed(s, g, at, standalone, skip, reset, c, ids[i]);
    if c.cells[i].state == RAN && c.cells[i].nested.Some? {
      NestedIsLive(s, g, at, standalone, skip, reset, c, i);
    }
    forall j: nat | Uses(c.calls[i], j) ensures SameHome(c, live, i, j) {
      InputIsLive(s, g, at, standalone, reset, ids, c, i, j);
    }
  }

  lemma {:induction false} NestedIsLive(s: State, g: GraphData, at: map<Id, nat>, standalone: Func -> bool,
      skip: set<Id>, reset: set<Id>, c: State, i: nat)
    requires ClonedFrom(s, g, at, standalone, skip, reset, c) && |c.cells| == |c.calls|
    requires i in LiveOf(g, at, Kept(SortedByLayer(g, false), skip)) && i < |c.cells| && c.cells[i].nested.Some?
    ensures c.cells[i].nested.value in LiveOf(g, at, Kept(SortedByLayer(g, false), skip))
  {
    var ids := Kept(SortedByLayer(g, false), skip);
    CloneCopies(s, g, at, standalone, skip, reset, c);
    ClonePlaced(s, g, at, standalone, reset, ids, c, i);
    var y := RunById(g.runs, ids[i]).value.nested.value;
    NestedListedOnce(s, g, at, ids[i], y);
    ClonePlaced(s, g, at, standalone, reset, ids, c, Position(ids, y));
    LiveIsListed(s, g, at, standalone, skip, reset, c, y);
  }

  /** What a run of a complete layer uses is in the same layer. */
  lemma SourceOnceUp(g: GraphData, at: map<Id, nat>, e: Edge)
    requires WellFormed(g, at) && e in g.edges && e.source.Some? && e.destination.Some?
    requires e.destination.value in OnceUpSet(g, at)
    ensures e.source.value in OnceUpSet(g, at)
    ensures ParentOf(g, e.source.value) == ParentOf(g, e.destination.value)
  {
    assert EdgeOk(g, at, e);
  }

  lemma {:induction false} InputIsLive(s: State, g: GraphData, at: map<Id, nat>, standalone: Func -> bool,
      reset: set<Id>, ids: seq<Id>, c: State, i: nat, j: nat)
    requires Copies(s, g, at, standalone, reset, ids, c) && |c.cells| == |c.calls| && WellFormed(g, at)
    requires i in LiveOf(g, at, ids) && i < |c.cells| && Uses(c.calls[i], j)
    ensures SameHome(c, LiveOf(g, at, ids), i, j)
  {
    var e := CloneUsesEdge(s, g, at, standalone, reset, ids, c, i, j);
    SourceOnceUp(g, at, e);
    ClonePlaced(s, g, at, standalone, reset, ids, c, i);
    ClonePlaced(s, g, at, standalone, reset, ids, c, j);
  }

  /** The weave of a clone, whatever is missing from it. */
  lemma {:induction false} CloneIsWoven(s: State, g: GraphData, at: map<Id, nat>, standalone: Func -> bool,
      skip: set<Id>, reset: set<Id>, c: State)
    requires ClonedFrom(s, g, at, standalone, skip, reset, c)
    ensures Woven(c)
  {
    var ids := Kept(SortedByLayer(g, false), skip);
    var live := LiveOf(g, at, ids);
    CloneIsLinked(s, g, at, standalone, skip, reset, c);
    CloneQueueStarts(s, g, at, standalone, skip, reset, c);
    ChildIs(g, at, None, ids[0]);
    RootOnceUp(s, g, at, ids[0]);
    forall i | i in live ensures Carried(c, live, i) {
      CloneCarries(s, g, at, standalone, skip, reset, c, i);
    }
    assert Carries(c, live);
  }

  // --------------------------------------------------------- values and failures

  /** A clone is as bounded as the state that was recorded: what fails in it fails the root. */
  lemma {:induction false} CloneIsBounded(p: Program, n: nat, s: State, g: GraphData, at: map<Id, nat>,
      standalone: Func -> bool, skip: set<Id>, reset: set<Id>, c: State)
    requires ClonedFrom(s, g, at, standalone, skip, reset, c) && Inv(p, s) && Total(p, n, s.calls)
    ensures Bounded(p, n, c.calls)
  {
    var ids := Kept(SortedByLayer(g, false), skip);
    CloneCopies(s, g, at, standalone, skip, reset, c);
    CloneQueueStarts(s, g, at, standalone, skip, reset, c);
    InvBlames(p, n, s);
    forall i: nat | i < |c.calls|
      ensures Eval(p, n, c.calls, i) != Unknown
      ensures Eval(p, n, c.calls, i) == Fails ==> Eval(p, n, c.calls, 0) == Fails
    {
      CloneEval(p, n, s, g, at, standalone, reset, ids, c, i);
      CloneEval(p, n, s, g, at, standalone, reset, ids, c, 0);
    }
  }

  /** The root of a clone evaluates to what the root of the original does. */
  lemma {:induction false} CloneRoot(p: Program, n: nat, s: State, g: GraphData, at: map<Id, nat>,
      standalone: Func -> bool, skip: set<Id>, reset: set<Id>, c: State)
    requires ClonedFrom(s, g, at, standalone, skip, reset, c)
    ensures c.calls != [] && s.calls != [] && Eval(p, n, c.calls, 0) == Eval(p, n, s.calls, 0)
  {
    CloneCopies(s, g, at, standalone, skip, reset, c);
    CloneQueueStarts(s, g, at, standalone, skip, reset, c);
    CloneEval(p, n, s, g, at, standalone, reset, Kept(SortedByLayer(g, false), skip), c, 0);
  }
}
