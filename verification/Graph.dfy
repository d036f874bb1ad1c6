/** `Graph`: memoised ancestors, descendants and downstream runs, and the skip and reset lists
    of a rerun, which extend a memoised list in place. */
module Graph {
  import opened FutureStates
  import opened Semantics
  import opened Algorithms
  import opened RunGraph

  /** The relations of a graph, tabulated: ancestors (direct parent first), descendants, runs
      downstream, and the runs a rerun from each run skips. */
  datatype Relations = Relations(
    rank: map<Id, nat>, above: map<Id, seq<Id>>, below: map<Id, set<Id>>, down: map<Id, set<Id>>,
    skip: map<Id, set<Id>>)

  ghost function AncestorList(g: GraphData, rank: map<Id, nat>, x: Id): seq<Id>
    requires WellFormed(g, rank) && x in rank
    decreases rank[x]
  {
    ParentRank(g, rank, x);
    match ParentOf(g, x)
    case None => []
    case Some(q) => [q] + AncestorList(g, rank, q)
  }

  ghost function RelationsOf(g: GraphData, rank: map<Id, nat>): Relations
    requires WellFormed(g, rank)
  {
    Relations(
      rank,
      map x | x in rank :: AncestorList(g, rank, x),
      map x | x in rank :: set y | y in rank && Above(g, rank, x, y),
      map x | x in rank :: set y | y in rank && Flows(g, rank, x, y),
      map x | x in rank :: set y | y in rank && Skipped(g, rank, x, y))
  }

  // -------------------------------------------------------------------- laws

  ghost predicate Tables(g: GraphData, rel: Relations) {
    && rel.above.Keys == rel.rank.Keys && rel.below.Keys == rel.rank.Keys
    && rel.down.Keys == rel.rank.Keys && rel.skip.Keys == rel.rank.Keys
    && (forall x | x in rel.rank :: rel.rank[x] < |g.runs|)
  }

  ghost predicate AncestorLaw(g: GraphData, rel: Relations, x: Id)
    requires Tables(g, rel) && x in rel.rank
  {
    match ParentOf(g, x)
    case None => rel.above[x] == []
    case Some(q) => q in rel.rank && rel.rank[q] < rel.rank[x] && rel.above[x] == [q] + rel.above[q]
  }

  ghost predicate ChildLaw(g: GraphData, rel: Relations, x: Id, c: Id)
    requires Tables(g, rel) && x in rel.rank
  {
    && c in rel.rank && rel.rank[x] < rel.rank[c]
    && c in rel.skip[x] && rel.skip[c] <= rel.skip[x]
  }

  ghost predicate BelowLaw(g: GraphData, rel: Relations, x: Id, y: Id)
    requires Tables(g, rel)
  {
    exists c | c in Children(g.runs, Some(x)) :: c in rel.rank && (y == c || y in rel.below[c])
  }

  ghost predicate EdgeLaw(g: GraphData, rel: Relations, x: Id, e: Edge)
    requires Tables(g, rel) && x in rel.rank
  {
    e.destination.Some? ==>
      && e.destination.value in rel.rank && rel.rank[x] < rel.rank[e.destination.value]
      && e.destination.value in rel.down[x] && rel.down[e.destination.value] <= rel.down[x]
  }

  ghost predicate Via(rel: Relations, e: Edge, y: Id) {
    && e.destination.Some? && e.destination.value in rel.down
    && (y == e.destination.value || y in rel.down[e.destination.value])
  }

  ghost predicate DownLaw(g: GraphData, rel: Relations, x: Id, y: Id) {
    exists e | e in OutputEdges(g.edges, x) :: Via(rel, e, y)
  }

  /** `d` is downstream of `r` or of an ancestor of `r`. */
  ghost predicate AffectedIn(rel: Relations, points: seq<Id>, d: Id) {
    exists a | a in points :: a in rel.down && d in rel.down[a]
  }

  /** The list of a rerun from `r`: the run, its ancestors, and all runs affected. */
  ghost predicate ResetList(rel: Relations, r: Id, reset: seq<Id>)
    requires r in rel.above
  {
    forall y :: y in reset <==> y in [r] + rel.above[r] || AffectedIn(rel, [r] + rel.above[r], y)
  }

  ghost predicate SkipLaw(g: GraphData, rel: Relations, r: Id)
    requires Tables(g, rel) && r in rel.rank
  {
    && (forall a | a in rel.above[r] :: a in rel.rank)
    && rel.below[r] <= rel.skip[r]
    && (forall d | AffectedIn(rel, [r] + rel.above[r], d) :: d in rel.rank && rel.skip[d] <= rel.skip[r])
    && (forall y | y in rel.skip[r] && y !in rel.below[r] ::
          exists d | d in rel.rank && AffectedIn(rel, [r] + rel.above[r], d) :: y in rel.below[d])
  }

  /** The recursions the methods below follow, to be used one instance at a time. */
  ghost predicate Laws(g: GraphData, rel: Relations) {
    && Tables(g, rel)
    && (forall x {:trigger RunById(g.runs, x)} | x in rel.rank :: RunById(g.runs, x).Some?)
    && (forall x {:trigger AncestorLaw(g, rel, x)} | x in rel.rank :: AncestorLaw(g, rel, x))
    && (forall x {:trigger SkipLaw(g, rel, x)} | x in rel.rank :: SkipLaw(g, rel, x))
    && (forall x, c {:trigger ChildLaw(g, rel, x, c)} | x in rel.rank && c in Children(g.runs, Some(x)) ::
         ChildLaw(g, rel, x, c))
    && (forall x, y {:trigger BelowLaw(g, rel, x, y)} | x in rel.rank && y in rel.below[x] :: BelowLaw(g, rel, x, y))
    && (forall x, e {:trigger EdgeLaw(g, rel, x, e)} | x in rel.rank && e in OutputEdges(g.edges, x) ::
         EdgeLaw(g, rel, x, e))
    && (forall x, y {:trigger DownLaw(g, rel, x, y)} | x in rel.rank && y in rel.down[x] :: DownLaw(g, rel, x, y))
  }

  lemma {:induction false} AncestorListIs(g: GraphData, rank: map<Id, nat>, x: Id)
    requires WellFormed(g, rank) && x in rank
    ensures forall a :: a in AncestorList(g, rank, x) <==> Above(g, rank, a, x)
    decreases rank[x]
  {
    ParentRank(g, rank, x);
    if ParentOf(g, x).Some? {
      AncestorListIs(g, rank, ParentOf(g, x).value);
    }
  }

  lemma {:induction false} ChildLawHolds(g: GraphData, rank: map<Id, nat>, x: Id, c: Id)
    requires WellFormed(g, rank) && x in rank && c in Children(g.runs, Some(x))
    ensures ChildLaw(g, RelationsOf(g, rank), x, c)
  {
    ChildIs(g, rank, Some(x), c);
    ParentRank(g, rank, c);
    assert Above(g, rank, x, c);
    forall y | y in rank && Skipped(g, rank, c, y) ensures Skipped(g, rank, x, y) {
      SkippedFromChild(g, rank, x, c, y);
    }
  }

  lemma {:induction false} BelowLawHolds(g: GraphData, rank: map<Id, nat>, x: Id, y: Id)
    requires WellFormed(g, rank) && x in rank && y in rank && Above(g, rank, x, y)
    ensures BelowLaw(g, RelationsOf(g, rank), x, y)
  {
    AboveFromTop(g, rank, x, y);
    var c :| c in rank && ParentOf(g, c) == Some(x) && AtOrAbove(g, rank, c, y);
    ChildIs(g, rank, Some(x), c);
    assert y == c || y in RelationsOf(g, rank).below[c];
  }

  lemma {:induction false} EdgeLawHolds(g: GraphData, rank: map<Id, nat>, x: Id, e: Edge)
    requires WellFormed(g, rank) && x in rank && e in OutputEdges(g.edges, x)
    ensures EdgeLaw(g, RelationsOf(g, rank), x, e)
  {
    if e.destination.Some? {
      var d := e.destination.value;
      assert EdgeOk(g, rank, e);
      FlowsEdge(g, rank, e);
      forall y | y in rank && Flows(g, rank, d, y) ensures Flows(g, rank, x, y) {
        FlowsTrans(g, rank, x, d, y);
      }
    }
  }

  lemma DownLawHolds(g: GraphData, rank: map<Id, nat>, x: Id, y: Id)
    requires WellFormed(g, rank) && x in rank && y in rank && Flows(g, rank, x, y)
    ensures DownLaw(g, RelationsOf(g, rank), x, y)
  {
    FlowsFromFront(g, rank, x, y);
    var e :| e in g.edges && e.source == Some(x) && e.destination.Some?
             && e.destination.value in rank && (e.destination.value == y || Flows(g, rank, e.destination.value, y));
    assert e in OutputEdges(g.edges, x) && Via(RelationsOf(g, rank), e, y);
  }

  lemma {:induction false} AffectedInIs(g: GraphData, rank: map<Id, nat>, r: Id, d: Id)
    requires WellFormed(g, rank) && r in rank && d in rank
    ensures AffectedIn(RelationsOf(g, rank), [r] + AncestorList(g, rank, r), d) <==> Affected(g, rank, r, d)
  {
    AncestorListIs(g, rank, r);
    var rel, points := RelationsOf(g, rank), [r] + AncestorList(g, rank, r);
    if AffectedIn(rel, points, d) {
      var a :| a in points && a in rel.down && d in rel.down[a];
      assert AtOrAbove(g, rank, a, r) && Flows(g, rank, a, d);
    }
    if Affected(g, rank, r, d) {
      var a :| a in rank && AtOrAbove(g, rank, a, r) && Flows(g, rank, a, d);
      assert a in points && d in rel.down[a];
    }
  }

  lemma {:induction false} SkipLawHolds(g: GraphData, rank: map<Id, nat>, r: Id)
    requires WellFormed(g, rank) && r in rank
    ensures SkipLaw(g, RelationsOf(g, rank), r)
  {
    var rel, points := RelationsOf(g, rank), [r] + AncestorList(g, rank, r);
    AncestorListIs(g, rank, r);
    forall a | a in rel.above[r] ensures a in rel.rank {
      AboveRank(g, rank, a, r);
    }
    forall d | AffectedIn(rel, points, d) ensures d in rel.rank && rel.skip[d] <= rel.skip[r] {
      assert d in rank;
      AffectedInIs(g, rank, r, d);
      forall y | y in rank && Skipped(g, rank, d, y) ensures Skipped(g, rank, r, y) {
        SkippedFromAffected(g, rank, r, d, y);
      }
    }
    forall y | y in rel.skip[r] && y !in rel.below[r]
      ensures exists d | d in rel.rank && AffectedIn(rel, points, d) :: y in rel.below[d]
    {
      var d :| d in rank && Affected(g, rank, r, d) && Above(g, rank, d, y);
      AffectedInIs(g, rank, r, d);
      assert y in rel.below[d];
    }
  }

  lemma {:induction false} LawsHold(g: GraphData, rank: map<Id, nat>)
    requires WellFormed(g, rank)
    ensures Laws(g, RelationsOf(g, rank))
  {
    var rel := RelationsOf(g, rank);
    forall x | x in rank ensures RunById(g.runs, x).Some? && AncestorLaw(g, rel, x) && SkipLaw(g, rel, x) {
      ParentRank(g, rank, x);
      SkipLawHolds(g, rank, x);
    }
    forall x, c | x in rank && c in Children(g.runs, Some(x)) ensures ChildLaw(g, rel, x, c) {
      ChildLawHolds(g, rank, x, c);
    }
    forall x, y | x in rank && y in rel.below[x] ensures BelowLaw(g, rel, x, y) {
      BelowLawHolds(g, rank, x, y);
    }
    forall x, e | x in rank && e in OutputEdges(g.edges, x) ensures EdgeLaw(g, rel, x, e) {
      EdgeLawHolds(g, rank, x, e);
    }
    forall x, y | x in rank && y in rel.down[x] ensures DownLaw(g, rel, x, y) {
      DownLawHolds(g, rank, x, y);
    }
  }

  /** Python's `list(set(...))`. */
  function Distinct(s: seq<Id>): (r: seq<Id>)
    ensures forall x :: x in r <==> x in s
    ensures NoRepeats(r)
  {
    if s == [] then []
    else
      assert s == s[..|s| - 1] + [s[|s| - 1]];
      var r := Distinct(s[..|s| - 1]);
      if s[|s| - 1] in r then r else r + [s[|s| - 1]]
  }

  // ------------------------------------------------------------------- class

  class Graph {
    const data: GraphData
    ghost const rel: Relations

    // the caches of the three memoised methods
    var ancestorIds: map<Id, seq<Id>>
    var descendantIds: map<Id, seq<Id>>
    var downstreamIds: map<Id, seq<Id>>

    constructor (data: GraphData, ghost rank: map<Id, nat>)
      requires WellFormed(data, rank)
      ensures this.data == data && rel == RelationsOf(data, rank) && Valid()
    {
      this.data, rel := data, RelationsOf(data, rank);
      ancestorIds, descendantIds, downstreamIds := map[], map[], map[];
      LawsHold(data, rank);
    }

    /** A cached list of descendants holds all descendants of its key, and nothing that a
        rerun from its key would not skip. */
    ghost predicate Between(x: Id, ids: seq<Id>) {
      x in rel.below && x in rel.skip && rel.below[x] <= Elements(ids) <= rel.skip[x]
    }

    /** A list, without repetition, of all that is related to `x`. */
    ghost predicate OnceEach(ids: seq<Id>, related: map<Id, set<Id>>, x: Id) {
      x in related && Elements(ids) == related[x] && NoRepeats(ids)
    }

    ghost predicate Valid()
      reads this
    {
      && Laws(data, rel)
      && (forall x | x in ancestorIds :: x in rel.above && ancestorIds[x] == rel.above[x])
      && (forall x | x in descendantIds :: Between(x, descendantIds[x]))
      && (forall x | x in downstreamIds :: OnceEach(downstreamIds[x], rel.down, x))
    }

    // --------------------------------------------------------------- ancestors

    method GetRunAncestorIds(x: Id) returns (ids: seq<Id>)
      requires Valid() && x in rel.rank
      modifies this`ancestorIds
      ensures Valid() && ids == rel.above[x]
    {
      if x !in ancestorIds {
        ids := ComputeRunAncestorIds(x);
        ancestorIds := ancestorIds[x := ids];
      }
      ids := ancestorIds[x];
    }

    method ComputeRunAncestorIds(x: Id) returns (ids: seq<Id>)
      requires Laws(data, rel) && x in rel.rank
      ensures ids == rel.above[x]
    {
      var run := RunById(data.runs, x).value;
      ids := [];
      assert AncestorLaw(data, rel, x);
      while run.parent.Some?
        invariant run.id in rel.rank && RunById(data.runs, run.id) == Some(run)
        invariant AncestorLaw(data, rel, run.id) && ids + rel.above[run.id] == rel.above[x]
        decreases rel.rank[run.id]
      {
        ids := ids + [run.parent.value];
        run := RunById(data.runs, run.parent.value).value;
        assert AncestorLaw(data, rel, run.id);
      }
    }

    // ------------------------------------------------------------- descendants

    /** Lists that are in the cache stay as they are. */
    twostate predicate Keeps()
      reads this
    {
      forall x | x in old(descendantIds) :: x in descendantIds && descendantIds[x] == old(descendantIds)[x]
    }

    method GetRunDescendantIds(x: Id) returns (ids: seq<Id>)
      requires Valid() && x in rel.rank
      modifies this`descendantIds
      ensures Valid() && Keeps() && x in descendantIds && ids == descendantIds[x]
      decreases |data.runs| - rel.rank[x], 1
    {
      if x !in descendantIds {
        ids := ComputeRunDescendantIds(x);
        descendantIds := descendantIds[x := ids];
      }
      ids := descendantIds[x];
    }

    method ComputeRunDescendantIds(x: Id) returns (ids: seq<Id>)
      requires Valid() && x in rel.rank
      modifies this`descendantIds
      ensures Valid() && Keeps() && Between(x, ids)
      decreases |data.runs| - rel.rank[x], 0
    {
      var children := Children(data.runs, Some(x));
      ids := [];
      for k := 0 to |children|
        invariant Valid() && Keeps()
        invariant Elements(ids) <= rel.skip[x]
        invariant forall c | c in children[..k] :: ChildListed(c, ids)
      {
        ChildIsBelow(x, children[k]);
        var below := GetRunDescendantIds(children[k]);
        WithChild(x, children[..k], ids, children[k], below);
        assert children[..k + 1] == children[..k] + [children[k]];
        ids := ids + [children[k]] + below;
      }
      assert children[..|children|] == children;
      AllBelowListed(x, ids);
    }

    /** With the children and what is below them, all that is below a run is in the list. */
    lemma AllBelowListed(x: Id, ids: seq<Id>)
      requires Laws(data, rel) && x in rel.rank
      requires forall c | c in Children(data.runs, Some(x)) :: ChildListed(c, ids)
      ensures rel.below[x] <= Elements(ids)
    {
      forall y | y in rel.below[x] ensures y in ids {
        assert BelowLaw(data, rel, x, y);
        var c :| c in Children(data.runs, Some(x)) && c in rel.rank && (y == c || y in rel.below[c]);
        assert ChildListed(c, ids);
      }
    }

    /** A child and all its descendants are in the list. */
    ghost predicate ChildListed(c: Id, ids: seq<Id>) {
      c in ids && c in rel.below && rel.below[c] <= Elements(ids)
    }

    lemma ChildIsBelow(x: Id, c: Id)
      requires Laws(data, rel) && x in rel.rank && c in Children(data.runs, Some(x))
      ensures c in rel.rank && rel.rank[x] < rel.rank[c] < |data.runs|
      ensures c in rel.skip[x] && rel.skip[c] <= rel.skip[x]
    {
      assert ChildLaw(data, rel, x, c);
    }

    /** One more child, and what is below it, is listed. */
    lemma WithChild(x: Id, done: seq<Id>, ids: seq<Id>, c: Id, below: seq<Id>)
      requires Between(c, below) && x in rel.skip && c in rel.skip[x] && rel.skip[c] <= rel.skip[x]
      requires Elements(ids) <= rel.skip[x] && forall d | d in done :: ChildListed(d, ids)
      ensures Elements(ids + [c] + below) <= rel.skip[x]
      ensures forall d | d in done + [c] :: ChildListed(d, ids + [c] + below)
    {
      assert Elements(ids + [c] + below) == Elements(ids) + {c} + Elements(below);
    }

    // -------------------------------------------------------------- downstream

    method GetRunDownstreamIds(x: Id) returns (ids: seq<Id>)
      requires Valid() && x in rel.rank
      modifies this`downstreamIds
      ensures Valid() && OnceEach(ids, rel.down, x)
      decreases |data.runs| - rel.rank[x], 1
    {
      if x !in downstreamIds {
        ids := ComputeRunDownstreamIds(x);
        downstreamIds := downstreamIds[x := ids];
      }
      ids := downstreamIds[x];
    }

    method ComputeRunDownstreamIds(x: Id) returns (ids: seq<Id>)
      requires Valid() && x in rel.rank
      modifies this`downstreamIds
      ensures Valid() && OnceEach(ids, rel.down, x)
      decreases |data.runs| - rel.rank[x], 0
    {
      var edges := OutputEdges(data.edges, x);
      ids := [];
      for k := 0 to |edges|
        invariant Valid() && Elements(ids) <= rel.down[x]
        invariant forall e, y | e in edges[..k] && Via(rel, e, y) :: y in ids
      {
        assert edges[..k + 1] == edges[..k] + [edges[k]];
        assert edges[k] in edges && EdgeLaw(data, rel, x, edges[k]);
        if edges[k].destination.Some? {
          var d := edges[k].destination.value;
          var below := GetRunDownstreamIds(d);
          DownstreamMore(x, edges[k], ids, below);
          ids := ids + [d] + below;
        }
      }
      assert edges[..|edges|] == edges;
      forall y | y in rel.down[x] ensures y in ids {
        assert DownLaw(data, rel, x, y);
        var e :| e in edges && Via(rel, e, y);
      }
      ids := Distinct(ids);
    }

    /** What is downstream by way of one more edge. */
    lemma DownstreamMore(x: Id, e: Edge, ids: seq<Id>, below: seq<Id>)
      requires Tables(data, rel) && x in rel.rank && e.destination.Some? && EdgeLaw(data, rel, x, e)
      requires Elements(ids) <= rel.down[x] && Elements(below) == rel.down[e.destination.value]
      ensures Elements(ids + [e.destination.value] + below) <= rel.down[x]
      ensures forall y | Via(rel, e, y) :: y in ids + [e.destination.value] + below
    {
      var d := e.destination.value;
      assert Elements(ids + [d] + below) == Elements(ids) + {d} + Elements(below);
      forall y | Via(rel, e, y) ensures y in ids + [d] + below {
        assert y in Elements(ids + [d] + below);
      }
    }

    // ---------------------------------------------------------- skip and reset

    /** The cached list of `r`'s descendants, as far as it is extended. */
    ghost predicate SkipList(r: Id, skip: seq<Id>)
      reads this
    {
      Valid() && r in rel.rank && r in descendantIds && skip == descendantIds[r]
    }

    /** All descendants of `d` are in the list. */
    ghost predicate BelowListed(d: Id, ids: seq<Id>) {
      d in rel.below && rel.below[d] <= Elements(ids)
    }

    /** The lists of a rerun from `r`. The skip list is the cached list of `r`'s descendants
        itself: every extension changes the cache. */
    method GetSkipResetRunIds(r: Id) returns (skip: seq<Id>, reset: seq<Id>)
      requires Valid() && r in rel.rank
      modifies this
      ensures Valid() && Elements(skip) == rel.skip[r] && ResetList(rel, r, reset)
    {
      skip := GetRunDescendantIds(r);
      var ancestors := GetRunAncestorIds(r);
      reset := [r] + ancestors;
      var points := [r] + ancestors;
      NoneHandled(points, skip);
      for k := 0 to |points|
        invariant SkipList(r, skip) && Handled(points, points[..k], skip, reset)
      {
        RankedPoint(r, points[k]);
        assert points[..k + 1] == points[..k] + [points[k]];
        skip, reset := SkipResetFrom(r, points[k], points, points[..k], skip, reset);
      }
      assert points[..|points|] == points;
      SkipComplete(r, skip);
    }

    lemma NoneHandled(points: seq<Id>, skip: seq<Id>)
      ensures Handled(points, [], skip, points)
    {
    }

    lemma RankedPoint(r: Id, a: Id)
      requires Laws(data, rel) && r in rel.rank && a in [r] + rel.above[r]
      ensures a in rel.rank
    {
      assert SkipLaw(data, rel, r);
    }

    /** Resets everything downstream of `a` and skips what it had nested. */
    method SkipResetFrom(r: Id, a: Id, ghost points: seq<Id>, ghost done: seq<Id>, skip0: seq<Id>, reset0: seq<Id>)
      returns (skip: seq<Id>, reset: seq<Id>)
      requires SkipList(r, skip0) && Handled(points, done, skip0, reset0)
      requires a in rel.rank && a in points && points == [r] + rel.above[r]
      modifies this`descendantIds, this`downstreamIds
      ensures SkipList(r, skip) && Handled(points, done + [a], skip, reset)
    {
      var downstream := GetRunDownstreamIds(a);
      forall d | d in downstream ensures AffectedIn(rel, points, d) {
        assert d in Elements(downstream);
      }
      skip := SkipBelow(r, downstream, skip0);
      MorePoints(points, done, a, downstream, skip0, skip, reset0);
      reset := reset0 + downstream;
    }

    /** Everything downstream of `done` is reset, and what it had nested is skipped. */
    ghost predicate Handled(points: seq<Id>, done: seq<Id>, skip: seq<Id>, reset: seq<Id>) {
      && (forall d | AffectedIn(rel, done, d) :: BelowListed(d, skip))
      && (forall y :: y in reset <==> y in points || AffectedIn(rel, done, y))
    }

    lemma MorePoints(points: seq<Id>, done: seq<Id>, a: Id, downstream: seq<Id>, skip: seq<Id>, skip': seq<Id>,
        reset: seq<Id>)
      requires a in rel.down && Elements(downstream) == rel.down[a] && Handled(points, done, skip, reset)
      requires forall d | d in downstream :: BelowListed(d, skip')
      requires forall c | BelowListed(c, skip) :: BelowListed(c, skip')
      ensures Handled(points, done + [a], skip', reset + downstream)
    {
      forall d ensures AffectedIn(rel, done + [a], d) <==> AffectedIn(rel, done, d) || d in downstream {
        if AffectedIn(rel, done, d) {
          var b :| b in done && b in rel.down && d in rel.down[b];
          assert b in done + [a];
        }
        if d in downstream {
          assert d in Elements(downstream) && a in done + [a];
        }
      }
    }

    lemma SkipComplete(r: Id, skip: seq<Id>)
      requires Laws(data, rel) && r in rel.rank && Between(r, skip)
      requires forall d | AffectedIn(rel, [r] + rel.above[r], d) :: BelowListed(d, skip)
      ensures Elements(skip) == rel.skip[r]
    {
      assert SkipLaw(data, rel, r);
      forall y | y in rel.skip[r] ensures y in skip {
        if y !in rel.below[r] {
          var d :| d in rel.rank && AffectedIn(rel, [r] + rel.above[r], d) && y in rel.below[d];
          assert BelowListed(d, skip);
        } else {
          assert y in Elements(skip);
        }
      }
    }

    /** `skip_run_ids += ...` for each of the downstream runs. */
    method SkipBelow(r: Id, downstream: seq<Id>, skip0: seq<Id>) returns (skip: seq<Id>)
      requires SkipList(r, skip0) && forall d | d in downstream :: AffectedIn(rel, [r] + rel.above[r], d)
      modifies this`descendantIds
      ensures SkipList(r, skip) && forall d | d in downstream :: BelowListed(d, skip)
      ensures forall c | BelowListed(c, skip0) :: BelowListed(c, skip)
    {
      skip := skip0;
      for k := 0 to |downstream|
        invariant SkipList(r, skip) && forall c | BelowListed(c, skip0) :: BelowListed(c, skip)
        invariant forall d | d in downstream[..k] :: BelowListed(d, skip)
      {
        var d := downstream[k];
        SkipsBelow(r, d);
        var below := GetRunDescendantIds(d);
        ExtendSkip(r, d, skip, below);
        assert downstream[..k + 1] == downstream[..k] + [d];
        skip := skip + below;
        descendantIds := descendantIds[r := skip];
      }
      assert downstream[..|downstream|] == downstream;
    }

    /** What is skipped for an affected run is skipped. */
    lemma SkipsBelow(r: Id, d: Id)
      requires Laws(data, rel) && r in rel.rank && AffectedIn(rel, [r] + rel.above[r], d)
      ensures d in rel.rank && rel.skip[d] <= rel.skip[r]
    {
      assert SkipLaw(data, rel, r);
    }

    lemma ExtendSkip(r: Id, d: Id, skip: seq<Id>, below: seq<Id>)
      requires r in rel.skip && d in rel.skip && rel.skip[d] <= rel.skip[r]
      requires Between(r, skip) && Between(d, below)
      ensures Between(r, skip + below) && BelowListed(d, skip + below)
      ensures forall c | BelowListed(c, skip) :: BelowListed(c, skip + below)
    {
      assert Elements(skip + below) == Elements(skip) + Elements(below);
    }
  }
}
