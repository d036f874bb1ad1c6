/** The orders in which `Graph` lists runs: layer by layer from the outermost, and within a
    layer in execution order or in reverse execution order (sematic/graph.py). */
module LayerOrder {
  import opened FutureStates
  import opened Semantics
  import opened Algorithms
  import opened RunGraph

  /** What each run of a layer waits for: its upstream runs, or in reverse its downstream runs. */
  function LayerDependencies(g: GraphData, layer: seq<Id>, reverse: bool): Dependencies {
    map x | x in layer :: if reverse then Destinations(OutputEdges(g.edges, x)) else Sources(InputEdges(g.edges, x))
  }

  /** `_execution_order` and `_reverse_execution_order`. */
  function OrderOf(g: GraphData, layer: seq<Id>, reverse: bool): seq<Id> {
    TopoSort(layer, LayerDependencies(g, layer, reverse))
  }

  /** Raises unless all runs are from the same layer. */
  method ExecutionOrder(g: GraphData, layer: seq<Id>, reverse: bool) returns (order: Option<seq<Id>>)
    requires forall x | x in layer :: RunById(g.runs, x).Some?
    ensures order.None? <==> exists x, y | x in layer && y in layer :: ParentOf(g, x) != ParentOf(g, y)
    ensures order.Some? ==> order.value == OrderOf(g, layer, reverse)
  {
    for k := 0 to |layer|
      invariant forall x | x in layer[..k] :: ParentOf(g, x) == ParentOf(g, layer[0])
    {
      assert layer[..k + 1] == layer[..k] + [layer[k]];
      if ParentOf(g, layer[k]) != ParentOf(g, layer[0]) {
        return None;
      }
    }
    assert layer[..|layer|] == layer;
    var sorted, _ := TopologicalSort(layer, LayerDependencies(g, layer, reverse));
    order := Some(sorted);
  }

  /** What comes after a run in the breadth-first traversal: its children, sorted. */
  function SortedChildren(g: GraphData, reverse: bool): Id -> seq<Id> {
    x => OrderOf(g, Children(g.runs, Some(x)), reverse)
  }

  ghost function SortedByLayer(g: GraphData, reverse: bool): seq<Id> {
    SearchStaysInside(g, reverse);
    BfsOrder(Ids(g), SortedChildren(g, reverse), Children(g.runs, None), [])
  }

  method SortedRunIdsByLayer(g: GraphData, reverse: bool) returns (ids: seq<Id>)
    ensures ids == SortedByLayer(g, reverse)
  {
    SearchStaysInside(g, reverse);
    ids := BreadthFirstSearch(Children(g.runs, None), SortedChildren(g, reverse), Ids(g));
  }

  lemma {:induction false} OrderIsExactFor(g: GraphData, layer: seq<Id>, reverse: bool)
    ensures ExactOrder(LayerDependencies(g, layer, reverse), OrderOf(g, layer, reverse))
    ensures forall x | x in OrderOf(g, layer, reverse) :: x in layer
  {
    var deps := LayerDependencies(g, layer, reverse);
    assert Elements(layer) == deps.Keys;
    TopologicalSortIsExact(layer, deps);
    forall x | x in OrderOf(g, layer, reverse) ensures x in layer {
      assert Satisfied(deps, Elements(OrderOf(g, layer, reverse)), x);
    }
  }

  lemma {:induction false} SearchStaysInside(g: GraphData, reverse: bool)
    ensures ClosedUnder(Ids(g), SortedChildren(g, reverse)) && Elements(Children(g.runs, None)) <= Ids(g)
  {
    forall x, y | x in Ids(g) && y in SortedChildren(g, reverse)(x) ensures y in Ids(g) {
      OrderIsExactFor(g, Children(g.runs, Some(x)), reverse);
    }
  }

  // ------------------------------------------------------------- repeated edges

  /** How many edges lead from `a` to `b`: one for each argument of `b` that `a` provides. */
  function PairCount(edges: seq<Edge>, a: Id, b: Id): nat {
    if edges == [] then 0
    else (if edges[0].source == Some(a) && edges[0].destination == Some(b) then 1 else 0) + PairCount(edges[1..], a, b)
  }

  /** No run uses the output of another run for two of its arguments. */
  ghost predicate NoPairTwice(g: GraphData) {
    forall a, b :: PairCount(g.edges, a, b) <= 1
  }

  lemma {:induction false} SourceCount(edges: seq<Edge>, a: Id, b: Id)
    ensures multiset(Sources(InputEdges(edges, b)))[Some(a)] == PairCount(edges, a, b)
    decreases |edges|
  {
    if edges != [] {
      SourceCount(edges[1..], a, b);
      var rest := InputEdges(edges[1..], b);
      assert Sources([edges[0]] + rest) == [edges[0].source] + Sources(rest);
      assert [] + rest == rest;
    }
  }

  lemma {:induction false} DestinationCount(edges: seq<Edge>, a: Id, b: Id)
    ensures multiset(Destinations(OutputEdges(edges, a)))[Some(b)] == PairCount(edges, a, b)
    decreases |edges|
  {
    if edges != [] {
      DestinationCount(edges[1..], a, b);
      var rest := OutputEdges(edges[1..], a);
      assert Destinations([edges[0]] + rest) == [edges[0].destination] + Destinations(rest);
      assert [] + rest == rest;
    }
  }

  lemma {:induction false} PairHasEdge(edges: seq<Edge>, a: Id, b: Id)
    ensures PairCount(edges, a, b) > 0 <==> exists e | e in edges :: e.source == Some(a) && e.destination == Some(b)
    decreases |edges|
  {
    if edges != [] {
      PairHasEdge(edges[1..], a, b);
      assert edges == [edges[0]] + edges[1..];
    }
  }

  /** The count of `d` among what `x` waits for. */
  lemma {:induction false} DependencyCount(g: GraphData, layer: seq<Id>, reverse: bool, x: Id, d: Id)
    requires x in layer
    ensures multiset(LayerDependencies(g, layer, reverse)[x])[Some(d)] ==
              if reverse then PairCount(g.edges, x, d) else PairCount(g.edges, d, x)
    ensures Some(d) in LayerDependencies(g, layer, reverse)[x] <==>
              multiset(LayerDependencies(g, layer, reverse)[x])[Some(d)] > 0
  {
    if reverse {
      DestinationCount(g.edges, x, d);
    } else {
      SourceCount(g.edges, d, x);
    }
  }

  /** `x` waits for `d` if they are joined by an edge; both are in the same layer. */
  lemma {:induction false} DependencyIsEdge(g: GraphData, rank: map<Id, nat>, parent: Option<Id>,
      reverse: bool, x: Id, d: Id)
    requires WellFormed(g, rank) && x in Children(g.runs, parent)
    requires Some(d) in LayerDependencies(g, Children(g.runs, parent), reverse)[x]
    ensures x in rank && d in rank && d in Children(g.runs, parent)
    ensures if reverse then rank[x] < rank[d] else rank[d] < rank[x]
  {
    DependencyCount(g, Children(g.runs, parent), reverse, x, d);
    var a, b := if reverse then x else d, if reverse then d else x;
    PairHasEdge(g.edges, a, b);
    var e :| e in g.edges && e.source == Some(a) && e.destination == Some(b);
    assert EdgeOk(g, rank, e);
    ChildIs(g, rank, parent, x);
    ChildIs(g, rank, parent, d);
  }

  function Ranks(g: GraphData, rank: map<Id, nat>, reverse: bool): map<Id, nat>
    requires forall x | x in rank :: rank[x] < |g.runs|
  {
    map x | x in rank :: if reverse then |g.runs| - rank[x] else rank[x]
  }

  /** Dependencies within a layer are acyclic: runs are ranked. */
  lemma {:induction false} LayerAcyclic(g: GraphData, rank: map<Id, nat>, parent: Option<Id>, reverse: bool)
    requires WellFormed(g, rank)
    ensures Acyclic(LayerDependencies(g, Children(g.runs, parent), reverse), Ranks(g, rank, reverse))
  {
    var layer := Children(g.runs, parent);
    var deps := LayerDependencies(g, layer, reverse);
    forall x | x in layer ensures x in Ranks(g, rank, reverse) {
      ChildIs(g, rank, parent, x);
    }
    forall x, d ensures RankedBelow(deps, Ranks(g, rank, reverse), x, d) {
      if x in layer && Some(d) in deps[x] {
        DependencyRanked(g, rank, parent, reverse, x, d);
      }
    }
  }

  lemma {:induction false} DependencyRanked(g: GraphData, rank: map<Id, nat>, parent: Option<Id>,
      reverse: bool, x: Id, d: Id)
    requires WellFormed(g, rank) && x in Children(g.runs, parent)
    requires Some(d) in LayerDependencies(g, Children(g.runs, parent), reverse)[x]
    ensures d in Children(g.runs, parent)
    ensures x in Ranks(g, rank, reverse) && d in Ranks(g, rank, reverse)
    ensures Ranks(g, rank, reverse)[d] < Ranks(g, rank, reverse)[x]
  {
    DependencyIsEdge(g, rank, parent, reverse, x, d);
  }

  /** No run of the layer has a repeated pair with another one. */
  ghost predicate LayerPairsOnce(g: GraphData, layer: seq<Id>, reverse: bool) {
    forall x, d :: x in layer ==> PairOnce(g.edges, reverse, x, d)
  }

  ghost predicate PairOnce(edges: seq<Edge>, reverse: bool, x: Id, d: Id) {
    (if reverse then PairCount(edges, x, d) else PairCount(edges, d, x)) <= 1
  }

  lemma ListsOnceIs(g: GraphData, layer: seq<Id>, reverse: bool)
    ensures ListsOnce(LayerDependencies(g, layer, reverse)) <==> LayerPairsOnce(g, layer, reverse)
  {
    var deps := LayerDependencies(g, layer, reverse);
    forall x, d ensures Once(deps, x, d) <==> (x in layer ==> PairOnce(g.edges, reverse, x, d)) {
      if x in layer {
        DependencyCount(g, layer, reverse, x, d);
      }
    }
  }

  /** A layer is listed in full if and only if nothing is used twice within it. */
  lemma {:induction false} LayerCompleteIff(g: GraphData, rank: map<Id, nat>, parent: Option<Id>, reverse: bool)
    requires WellFormed(g, rank)
    ensures (forall x | x in Children(g.runs, parent) :: x in OrderOf(g, Children(g.runs, parent), reverse)) <==>
            LayerPairsOnce(g, Children(g.runs, parent), reverse)
  {
    var layer := Children(g.runs, parent);
    var deps := LayerDependencies(g, layer, reverse);
    assert Elements(layer) == deps.Keys;
    LayerAcyclic(g, rank, parent, reverse);
    SortIsCompleteIff(layer, deps);
    ListsOnceIs(g, layer, reverse);
  }

  // ------------------------------------------------------------------ the order

  /** `Children` is free of repetitions and layers are disjoint: runs form a forest. */
  lemma {:induction false} RunsFormForest(g: GraphData, rank: map<Id, nat>, reverse: bool)
    requires WellFormed(g, rank)
    ensures Forest(Ids(g), SortedChildren(g, reverse), x => ParentOf(g, x))
    ensures NoRepeats(Children(g.runs, None))
    ensures forall x | x in Children(g.runs, None) :: ParentOf(g, x).None?
  {
    SearchStaysInside(g, reverse);
    var next := SortedChildren(g, reverse);
    forall x | x in Ids(g) ensures NoRepeats(next(x)) {
      OrderIsExactFor(g, Children(g.runs, Some(x)), reverse);
    }
    forall x, y | x in Ids(g) && y in next(x) ensures ParentOf(g, y) == Some(x) {
      OrderIsExactFor(g, Children(g.runs, Some(x)), reverse);
      ChildIs(g, rank, Some(x), y);
    }
    forall x | x in Children(g.runs, None) ensures ParentOf(g, x).None? {
      ChildIs(g, rank, None, x);
    }
    DistinctChildren(g.runs, None);
  }

  lemma {:induction false} DistinctChildren(runs: seq<Run>, parent: Option<Id>)
    requires forall i, j | 0 <= i < j < |runs| :: runs[i].id != runs[j].id
    ensures NoRepeats(Children(runs, parent))
    decreases |runs|
  {
    if runs != [] {
      DistinctChildren(runs[1..], parent);
      var rest := Children(runs[1..], parent);
      forall run | run in runs[1..] ensures run.id != runs[0].id {
        var i :| 0 <= i < |runs[1..]| && runs[1..][i] == run;
      }
      if runs[0].parent == parent {
        assert Children(runs, parent) == [runs[0].id] + rest;
        PrependDistinct(runs[0].id, rest);
      } else {
        assert Children(runs, parent) == rest;
      }
    }
  }

  lemma PrependDistinct(x: Id, s: seq<Id>)
    requires NoRepeats(s) && x !in s
    ensures NoRepeats([x] + s)
  {
    forall i, j | 0 <= i < j < |[x] + s| ensures ([x] + s)[i] != ([x] + s)[j] {
      assert ([x] + s)[j] == s[j - 1];
    }
  }

  /** Runs are listed without repetition, the root layer first, and every listed run in the
      stretch of its parent, which is listed before it. */
  lemma {:induction false} OrderStructure(g: GraphData, rank: map<Id, nat>, reverse: bool)
    requires WellFormed(g, rank)
    ensures var order := SortedByLayer(g, reverse);
            && NoRepeats(order) && Children(g.runs, None) <= order
            && ByStretches(order, SortedChildren(g, reverse), 0)
            && (forall x | x in order :: x in rank)
            && (forall x | x in order && ParentOf(g, x).Some? ::
                  ParentOf(g, x).value in order && x in SortedChildren(g, reverse)(ParentOf(g, x).value))
  {
    var start, next, order := Children(g.runs, None), SortedChildren(g, reverse), SortedByLayer(g, reverse);
    RunsFormForest(g, rank, reverse);
    assert [] + start == start;
    assert Elements(start) <= Ids(g);
    ForestOrder(Ids(g), next, x => ParentOf(g, x), start, []);
    BreadthFirstSearchIsExact(Ids(g), next, start);
    forall x | x in order
      ensures x in rank
      ensures ParentOf(g, x).Some? ==> ParentOf(g, x).value in order && x in next(ParentOf(g, x).value)
    {
      assert Reachable(Ids(g), next, start, x);
      var d: nat :| x in Within(Ids(g), next, start, d);
      CameFrom(g, rank, reverse, d, x);
      assert ParentOf(g, x).Some? ==> Reachable(Ids(g), next, start, ParentOf(g, x).value);
    }
  }

  lemma {:induction false} CameFrom(g: GraphData, rank: map<Id, nat>, reverse: bool, d: nat, x: Id)
    requires WellFormed(g, rank)
    requires x in Within(Ids(g), SortedChildren(g, reverse), Children(g.runs, None), d)
    ensures x in rank
    ensures ParentOf(g, x).Some? ==>
              && ParentOf(g, x).value in Within(Ids(g), SortedChildren(g, reverse), Children(g.runs, None), d)
              && x in SortedChildren(g, reverse)(ParentOf(g, x).value)
    decreases d
  {
    var start, next := Children(g.runs, None), SortedChildren(g, reverse);
    if d == 0 {
      ChildIs(g, rank, None, x);
    } else {
      var before := Within(Ids(g), next, start, d - 1);
      if x in before {
        CameFrom(g, rank, reverse, d - 1, x);
      } else {
        var y :| y in before && x in next(y);
        OrderIsExactFor(g, Children(g.runs, Some(y)), reverse);
        ChildIs(g, rank, Some(y), x);
      }
    }
  }

  /** Runs that form whole layers, up to the root. */
  ghost predicate WholeLayers(g: GraphData, rank: map<Id, nat>, part: set<Id>) {
    && part <= rank.Keys
    && forall x, y | x in part && y in rank && (ParentOf(g, x) == ParentOf(g, y) || ParentOf(g, x) == Some(y)) ::
         y in part
  }

  /** No run of `part` uses the output of another run for two of its arguments. */
  ghost predicate PairsOnce(g: GraphData, part: set<Id>) {
    forall a, b | b in part :: PairCount(g.edges, a, b) <= 1
  }

  lemma PartLayer(g: GraphData, rank: map<Id, nat>, reverse: bool, part: set<Id>, x: Id)
    requires WellFormed(g, rank) && WholeLayers(g, rank, part) && PairsOnce(g, part) && x in part
    ensures LayerPairsOnce(g, Children(g.runs, ParentOf(g, x)), reverse)
  {
    var layer := Children(g.runs, ParentOf(g, x));
    forall y, d | y in layer ensures PairOnce(g.edges, reverse, y, d) {
      ChildIs(g, rank, ParentOf(g, x), y);
      PairHasEdge(g.edges, y, d);
      if reverse && PairCount(g.edges, y, d) > 0 {
        var e :| e in g.edges && e.source == Some(y) && e.destination == Some(d);
        assert EdgeOk(g, rank, e);
      }
    }
  }

  /** Where layers have no repeated pair, their runs are listed. */
  lemma {:induction false} PartListed(g: GraphData, rank: map<Id, nat>, reverse: bool, part: set<Id>, x: Id)
    requires WellFormed(g, rank) && WholeLayers(g, rank, part) && PairsOnce(g, part) && x in part
    ensures x in SortedByLayer(g, reverse)
    decreases rank[x]
  {
    var order, next := SortedByLayer(g, reverse), SortedChildren(g, reverse);
    OrderStructure(g, rank, reverse);
    ParentRank(g, rank, x);
    match ParentOf(g, x)
    case None =>
      ChildIs(g, rank, None, x);
      var start := Children(g.runs, None);
      var i :| 0 <= i < |start| && start[i] == x;
      assert order[i] == x;
    case Some(q) =>
      PartListed(g, rank, reverse, part, q);
      ChildIs(g, rank, Some(q), x);
      PartLayer(g, rank, reverse, part, x);
      LayerCompleteIff(g, rank, Some(q), reverse);
      assert x in next(q);
      ChildrenListed(order, next, q, x);
  }

  lemma ChildrenListed(order: seq<Id>, next: Id -> seq<Id>, q: Id, x: Id)
    requires ByStretches(order, next, 0) && q in order && x in next(q)
    ensures x in order && exists i, j | 0 <= i < j < |order| :: order[i] == q && order[j] == x
  {
    var i: nat :| i < |order| && order[i] == q;
    assert HasStretch(order, next, i);
    var o: nat :| Stretch(order, next, i, o);
    var k :| 0 <= k < |next(q)| && next(q)[k] == x;
    assert order[o..o + |next(q)|][k] == order[o + k];
  }

  /** A repeated pair keeps the run that waits for the other one off the order. */
  lemma RepeatedPairIsDropped(g: GraphData, rank: map<Id, nat>, reverse: bool, a: Id, b: Id)
    requires WellFormed(g, rank) && |Children(g.runs, None)| == 1 && PairCount(g.edges, a, b) > 1
    ensures a in rank && b in rank && ParentOf(g, a) == ParentOf(g, b)
    ensures (if reverse then a else b) !in SortedByLayer(g, reverse)
  {
    PairHasEdge(g.edges, a, b);
    var e :| e in g.edges && e.source == Some(a) && e.destination == Some(b);
    assert EdgeOk(g, rank, e);
    OnlyRoot(g, rank, a, b);
    OrderStructure(g, rank, reverse);
    var x := if reverse then a else b;
    var layer := Children(g.runs, ParentOf(g, x));
    OrderIsExactFor(g, layer, reverse);
    DependencyCount(g, layer, reverse, x, if reverse then b else a);
    assert x in SortedByLayer(g, reverse) ==>
        Satisfied(LayerDependencies(g, layer, reverse), Elements(OrderOf(g, layer, reverse)), x);
  }

  /** Whole layers are listed in full if and only if no pair is joined twice in them. */
  lemma PartIsListedIff(g: GraphData, rank: map<Id, nat>, reverse: bool, part: set<Id>)
    requires WellFormed(g, rank) && |Children(g.runs, None)| == 1 && WholeLayers(g, rank, part)
    ensures (forall x | x in part :: x in SortedByLayer(g, reverse)) <==> PairsOnce(g, part)
  {
    if PairsOnce(g, part) {
      forall x | x in part ensures x in SortedByLayer(g, reverse) {
        PartListed(g, rank, reverse, part, x);
      }
    } else {
      var a, b :| b in part && PairCount(g.edges, a, b) > 1;
      RepeatedPairIsDropped(g, rank, reverse, a, b);
    }
  }

  lemma AllPairsOnce(g: GraphData, rank: map<Id, nat>)
    requires WellFormed(g, rank)
    ensures NoPairTwice(g) <==> PairsOnce(g, rank.Keys)
  {
    forall a, b | PairCount(g.edges, a, b) > 1 ensures b in rank {
      PairHasEdge(g.edges, a, b);
      var e :| e in g.edges && e.source == Some(a) && e.destination == Some(b);
      assert EdgeOk(g, rank, e);
    }
  }

  /** The order lists every run if and only if no run uses another one twice. A repeated pair
      silently drops the run, all that is downstream of it, and all their descendants. */
  lemma OrderIsCompleteIff(g: GraphData, rank: map<Id, nat>, reverse: bool)
    requires WellFormed(g, rank) && |Children(g.runs, None)| == 1
    ensures (forall x | x in rank :: x in SortedByLayer(g, reverse)) <==> NoPairTwice(g)
  {
    AllPairsOnce(g, rank);
    PartIsListedIff(g, rank, reverse, rank.Keys);
  }

  /** Two runs are never both root. */
  lemma OnlyRoot(g: GraphData, rank: map<Id, nat>, a: Id, b: Id)
    requires WellFormed(g, rank) && |Children(g.runs, None)| == 1
    requires a in rank && b in rank && a != b && ParentOf(g, a) == ParentOf(g, b)
    ensures ParentOf(g, a).Some?
  {
    if ParentOf(g, a).None? {
      ChildIs(g, rank, None, a);
      ChildIs(g, rank, None, b);
      OnlyMember(Children(g.runs, None), a, b);
    }
  }

  lemma OnlyMember(s: seq<Id>, a: Id, b: Id)
    requires |s| == 1 && a in s && b in s
    ensures a == b
  {
  }

  /** A list of all runs with parents before children and edges in one direction. */
  ghost predicate LayerSorted(g: GraphData, rank: map<Id, nat>, order: seq<Id>, reverse: bool) {
    && NoRepeats(order) && (forall x :: x in order <==> x in rank)
    && (forall x | x in rank && ParentOf(g, x).Some? :: Position(order, ParentOf(g, x).value) < Position(order, x))
    && (forall e | e in g.edges && e.source.Some? && e.destination.Some? ::
          if reverse then Position(order, e.destination.value) < Position(order, e.source.value)
          else Position(order, e.source.value) < Position(order, e.destination.value))
  }

  /** `_sorted_run_ids_by_layer` lists every run once, parents before children, upstream
      before downstream (or the reverse), and each layer in one stretch. */
  lemma {:induction false} OrderIsSorted(g: GraphData, rank: map<Id, nat>, reverse: bool)
    requires WellFormed(g, rank) && NoPairTwice(g) && |Children(g.runs, None)| == 1
    ensures LayerSorted(g, rank, SortedByLayer(g, reverse), reverse)
    ensures ByStretches(SortedByLayer(g, reverse), SortedChildren(g, reverse), 0)
    ensures SortedByLayer(g, reverse) != [] && SortedByLayer(g, reverse)[0] == Children(g.runs, None)[0]
  {
    OrderStructure(g, rank, reverse);
    OrderIsCompleteIff(g, rank, reverse);
    forall x | x in rank && ParentOf(g, x).Some?
      ensures Position(SortedByLayer(g, reverse), ParentOf(g, x).value) < Position(SortedByLayer(g, reverse), x)
    {
      ParentInOrder(g, rank, reverse, x);
    }
    forall e | e in g.edges && e.source.Some? && e.destination.Some?
      ensures var order := SortedByLayer(g, reverse);
              if reverse then Position(order, e.destination.value) < Position(order, e.source.value)
              else Position(order, e.source.value) < Position(order, e.destination.value)
    {
      assert EdgeOk(g, rank, e);
      EdgeInOrder(g, rank, reverse, e);
    }
  }

  /** A listed run comes after its parent, whether or not all runs are listed. */
  lemma {:induction false} ParentInOrder(g: GraphData, rank: map<Id, nat>, reverse: bool, x: Id)
    requires WellFormed(g, rank) && x in SortedByLayer(g, reverse) && ParentOf(g, x).Some?
    ensures var order := SortedByLayer(g, reverse);
            ParentOf(g, x).value in order && Position(order, ParentOf(g, x).value) < Position(order, x)
  {
    var order, q := SortedByLayer(g, reverse), ParentOf(g, x).value;
    OrderStructure(g, rank, reverse);
    ChildrenListed(order, SortedChildren(g, reverse), q, x);
    var i, j :| 0 <= i < j < |order| && order[i] == q && order[j] == x;
    PositionUnique(order, i);
    PositionUnique(order, j);
  }

  /** A listed run comes after what it waits for, whether or not all runs are listed. */
  lemma {:induction false} EdgeInOrder(g: GraphData, rank: map<Id, nat>, reverse: bool, e: Edge)
    requires WellFormed(g, rank) && |Children(g.runs, None)| == 1
    requires e in g.edges && e.source.Some? && e.destination.Some?
    requires (if reverse then e.source.value else e.destination.value) in SortedByLayer(g, reverse)
    ensures var order := SortedByLayer(g, reverse);
            if reverse
            then e.destination.value in order && Position(order, e.destination.value) < Position(order, e.source.value)
            else e.source.value in order && Position(order, e.source.value) < Position(order, e.destination.value)
  {
    OrderStructure(g, rank, reverse);
    assert EdgeOk(g, rank, e);
    var d := if reverse then e.destination.value else e.source.value;
    var x := if reverse then e.source.value else e.destination.value;
    OnlyRoot(g, rank, d, x);
    ParentRank(g, rank, x);
    var q := ParentOf(g, x).value;
    WaitsInOrder(g, reverse, Children(g.runs, Some(q)), e, d, x);
    ChildrenListed(SortedByLayer(g, reverse), SortedChildren(g, reverse), q, d);
    SiblingsInOrder(SortedByLayer(g, reverse), SortedChildren(g, reverse), q, d, x);
  }

  /** Within its layer, a run comes after what it waits for. */
  lemma {:induction false} WaitsInOrder(g: GraphData, reverse: bool, layer: seq<Id>, e: Edge, d: Id, x: Id)
    requires x in OrderOf(g, layer, reverse) && e in g.edges
    requires e.source == Some(if reverse then x else d) && e.destination == Some(if reverse then d else x)
    ensures d in OrderOf(g, layer, reverse)
    ensures Position(OrderOf(g, layer, reverse), d) < Position(OrderOf(g, layer, reverse), x)
  {
    var order := OrderOf(g, layer, reverse);
    OrderIsExactFor(g, layer, reverse);
    DependencyCount(g, layer, reverse, x, d);
    PairHasEdge(g.edges, e.source.value, e.destination.value);
    OrderRanks(LayerDependencies(g, layer, reverse), order, x, d);
  }

  /** A stretch keeps the order of the layer it lists. */
  lemma SiblingsInOrder(order: seq<Id>, next: Id -> seq<Id>, q: Id, d: Id, x: Id)
    requires NoRepeats(order) && ByStretches(order, next, 0) && q in order
    requires d in next(q) && x in next(q) && Position(next(q), d) < Position(next(q), x)
    ensures Position(order, d) < Position(order, x)
  {
    var o := StretchStart(order, next, Position(order, q));
    InStretch(order, o, next(q), Position(next(q), d), Position(next(q), x));
  }

  lemma StretchStart(order: seq<Id>, next: Id -> seq<Id>, i: nat) returns (o: nat)
    requires ByStretches(order, next, 0) && i < |order|
    ensures o + |next(order[i])| <= |order| && order[o..o + |next(order[i])|] == next(order[i])
  {
    assert HasStretch(order, next, i);
    o :| Stretch(order, next, i, o);
  }

  lemma InStretch(order: seq<Id>, o: nat, layer: seq<Id>, k: nat, l: nat)
    requires NoRepeats(order) && o + |layer| <= |order| && order[o..o + |layer|] == layer && k < l < |layer|
    ensures Position(order, layer[k]) < Position(order, layer[l])
  {
    StretchPositions(order, o, layer, k);
    StretchPositions(order, o, layer, l);
  }

  lemma StretchPositions(order: seq<Id>, o: nat, layer: seq<Id>, k: nat)
    requires NoRepeats(order) && o + |layer| <= |order| && order[o..o + |layer|] == layer && k < |layer|
    ensures Position(order, layer[k]) == o + k
  {
    assert order[o + k] == order[o..o + |layer|][k];
    PositionUnique(order, o + k);
  }

  lemma PositionUnique(s: seq<Id>, i: nat)
    requires NoRepeats(s) && i < |s|
    ensures Position(s, s[i]) == i
  {
    assert s[i] in s;
  }
}
