/** The clone of a recorded graph is a valid state for the runner to start from. */
module CloneSeed {
  import opened FutureStates
  import opened Semantics
  import opened RunnerState
  import opened RunnerInvariant
  import opened Algorithms
  import opened RunGraph
  import opened LayerOrder
  import opened Records
  import opened RerunFacts
  import opened Clone

  ghost function SkippedSet(g: GraphData, at: map<Id, nat>, r: Id): set<Id>
    requires WellFormed(g, at) && r in at
  {
    set y | y in at && Skipped(g, at, r, y)
  }

  ghost function ResetSet(g: GraphData, at: map<Id, nat>, r: Id): set<Id>
    requires WellFormed(g, at) && r in at
  {
    set y | y in at && Reset(g, at, r, y)
  }

  /** The runs a rerun from `r` clones, in execution order. */
  ghost function KeptIds(g: GraphData, at: map<Id, nat>, r: Id): seq<Id>
    requires WellFormed(g, at) && r in at
  {
    Kept(SortedByLayer(g, false), SkippedSet(g, at, r))
  }

  /** The runs a rerun from `r` is to keep. */
  ghost function KeptSet(g: GraphData, at: map<Id, nat>, r: Id): set<Id>
    requires WellFormed(g, at) && r in at
  {
    set y | y in at && !Skipped(g, at, r, y)
  }

  /** A graph recorded from a runner state. */
  ghost predicate FromRecord(s: State, g: GraphData, at: map<Id, nat>, r: Id) {
    Shape(s) && RecordedAs(g, s, at) && WellFormed(g, at) && r in at
  }

  /** A graph recorded from a runner state, in which no run that a rerun from `r` is to keep
      uses another one twice. */
  ghost predicate Original(s: State, g: GraphData, at: map<Id, nat>, r: Id) {
    FromRecord(s, g, at, r) && PairsOnce(g, KeptSet(g, at, r))
  }

  // -------------------------------------------------------------- the kept runs

  lemma {:induction false} KeptPosition(order: seq<Id>, skip: set<Id>, a: Id, x: Id)
    requires NoRepeats(order) && a in order && x in order && a !in skip && x !in skip
    requires Position(order, a) < Position(order, x)
    ensures Position(Kept(order, skip), a) < Position(Kept(order, skip), x)
    decreases |order|
  {
    var init, last := order[..|order| - 1], order[|order| - 1];
    assert order == init + [last];
    PositionAppend(init, last, a);
    PositionAppend(init, last, x);
    KeptIs(init, skip);
    if last !in skip {
      PositionAppend(Kept(init, skip), last, a);
      PositionAppend(Kept(init, skip), last, x);
    }
    if x != last {
      KeptPosition(init, skip, a, x);
    }
  }

  /** The runs to keep form whole layers, up to the root. */
  lemma KeptIsWhole(g: GraphData, at: map<Id, nat>, r: Id)
    requires WellFormed(g, at) && r in at
    ensures WholeLayers(g, at, KeptSet(g, at, r))
  {
    var part := KeptSet(g, at, r);
    forall x, y | x in part && y in at && (ParentOf(g, x) == ParentOf(g, y) || ParentOf(g, x) == Some(y))
      ensures y in part
    {
      if ParentOf(g, x) == Some(y) {
        SkippedByParent(g, at, r, x);
      } else {
        SiblingsSkipped(g, at, r, x, y);
      }
    }
  }

  lemma {:induction false} KeptAreListed(s: State, g: GraphData, at: map<Id, nat>, r: Id)
    requires FromRecord(s, g, at, r)
    ensures NoRepeats(KeptIds(g, at, r))
    ensures forall x :: x in KeptIds(g, at, r) <==> x in SortedByLayer(g, false) && x in KeptSet(g, at, r)
  {
    OrderStructure(g, at, false);
    KeptIs(SortedByLayer(g, false), SkippedSet(g, at, r));
  }

  /** A rerun clones all it is to keep if and only if none of it uses another run twice. */
  lemma {:induction false} KeptIsCompleteIff(s: State, g: GraphData, at: map<Id, nat>, r: Id)
    requires FromRecord(s, g, at, r)
    ensures (forall x | x in at && !Skipped(g, at, r, x) :: x in KeptIds(g, at, r)) <==> PairsOnce(g, KeptSet(g, at, r))
  {
    var root := RootRun(g, s, at);
    KeptAreListed(s, g, at, r);
    KeptIsWhole(g, at, r);
    PartIsListedIff(g, at, false, KeptSet(g, at, r));
  }

  lemma {:induction false} KeptMembers(s: State, g: GraphData, at: map<Id, nat>, r: Id)
    requires Original(s, g, at, r)
    ensures NoRepeats(KeptIds(g, at, r))
    ensures forall x :: x in KeptIds(g, at, r) <==> x in at && !Skipped(g, at, r, x)
  {
    KeptAreListed(s, g, at, r);
    KeptIsCompleteIff(s, g, at, r);
  }

  /** A kept run's parent is kept, and comes before it, even if runs are missing. */
  lemma {:induction false} KeptParent(s: State, g: GraphData, at: map<Id, nat>, r: Id, x: Id)
    requires FromRecord(s, g, at, r) && x in KeptIds(g, at, r) && ParentOf(g, x).Some?
    ensures var ids := KeptIds(g, at, r);
            ParentOf(g, x).value in ids && Position(ids, ParentOf(g, x).value) < Position(ids, x)
  {
    KeptAreListed(s, g, at, r);
    OrderStructure(g, at, false);
    ParentInOrder(g, at, false, x);
    SkippedByParent(g, at, r, x);
    KeptPosition(SortedByLayer(g, false), SkippedSet(g, at, r), ParentOf(g, x).value, x);
  }

  /** A kept run's upstream runs are kept, and come before it, even if runs are missing. */
  lemma {:induction false} KeptUpstream(s: State, g: GraphData, at: map<Id, nat>, r: Id, e: Edge)
    requires FromRecord(s, g, at, r) && e in g.edges && e.source.Some? && e.destination.Some?
    requires e.destination.value in KeptIds(g, at, r)
    ensures var ids := KeptIds(g, at, r);
            e.source.value in ids && Position(ids, e.source.value) < Position(ids, e.destination.value)
  {
    var root := RootRun(g, s, at);
    KeptAreListed(s, g, at, r);
    OrderStructure(g, at, false);
    EdgeInOrder(g, at, false, e);
    assert EdgeOk(g, at, e);
    SiblingsSkipped(g, at, r, e.source.value, e.destination.value);
    KeptPosition(SortedByLayer(g, false), SkippedSet(g, at, r), e.source.value, e.destination.value);
  }

  lemma PositionInPrefix(ids: seq<Id>, i: nat, x: Id)
    requires i <= |ids| && x in ids && Position(ids, x) < i
    ensures x in ids[..i] && Position(ids[..i], x) == Position(ids, x)
  {
    assert ids[..i][Position(ids, x)] == x;
    var k := Position(ids[..i], x);
    assert ids[..i][k] == ids[k];
  }

  lemma OrderStarts(g: GraphData, at: map<Id, nat>, reverse: bool, root: Id)
    requires WellFormed(g, at) && Children(g.runs, None) == [root]
    ensures SortedByLayer(g, reverse) != [] && SortedByLayer(g, reverse)[0] == root
  {
    OrderStructure(g, at, reverse);
  }

  lemma {:induction false} KeptStarts(order: seq<Id>, skip: set<Id>)
    requires order != [] && order[0] !in skip
    ensures Kept(order, skip) != [] && Kept(order, skip)[0] == order[0]
    decreases |order|
  {
    if |order| > 1 {
      KeptStarts(order[..|order| - 1], skip);
    } else {
      assert Kept(order[..0], skip) == [];
    }
  }

  /** The root is kept and comes first. */
  lemma {:induction false} RootFirst(s: State, g: GraphData, at: map<Id, nat>, r: Id) returns (root: Id)
    requires FromRecord(s, g, at, r)
    ensures root in at && at[root] == 0 && |KeptIds(g, at, r)| > 0 && KeptIds(g, at, r)[0] == root
    ensures forall x | x in at :: ParentOf(g, x).None? <==> x == root
    ensures SortedByLayer(g, true) != [] && SortedByLayer(g, true)[0] == root
  {
    root := RootRun(g, s, at);
    OrderStarts(g, at, false, root);
    OrderStarts(g, at, true, root);
    SkippedByParent(g, at, r, root);
    KeptStarts(SortedByLayer(g, false), SkippedSet(g, at, r));
  }

  // -------------------------------------------------------- nothing is missing

  lemma {:induction false} InputsAreReady(s: State, g: GraphData, at: map<Id, nat>, r: Id, i: nat)
    requires FromRecord(s, g, at, r) && i < |KeptIds(g, at, r)|
    ensures InputsReady(g, KeptIds(g, at, r)[..i], KeptIds(g, at, r)[i])
  {
    var ids := KeptIds(g, at, r);
    KeptAreListed(s, g, at, r);
    assert ids[i] in ids;
    PositionUnique(ids, i);
    forall e | e in InputEdges(g.edges, ids[i]) ensures EdgeReady(e, ids[..i]) {
      assert EdgeRecords(s, at, e);
      if e.source.Some? {
        KeptUpstream(s, g, at, r, e);
        PositionInPrefix(ids, i, e.source.value);
      }
    }
  }

  /** Cloning never looks up a future that is not there, even where runs are missing. */
  lemma {:induction false} CloningSucceeds(s: State, g: GraphData, at: map<Id, nat>, r: Id)
    requires FromRecord(s, g, at, r)
    ensures Clonable(g, KeptIds(g, at, r))
  {
    var ids := KeptIds(g, at, r);
    KeptAreListed(s, g, at, r);
    forall i | 0 <= i < |ids| ensures ReadyAt(g, ids, i) {
      InputsAreReady(s, g, at, r, i);
      assert ids[i] in ids;
      if ParentOf(g, ids[i]).Some? {
        KeptParent(s, g, at, r, ids[i]);
        PositionUnique(ids, i);
        PositionInPrefix(ids, i, ParentOf(g, ids[i]).value);
      }
    }
  }

  lemma {:induction false} NothingSkipped(order: seq<Id>)
    ensures Kept(order, {}) == order
    decreases |order|
  {
    if order != [] {
      NothingSkipped(order[..|order| - 1]);
    }
  }

  lemma {:induction false} ListsAllIff(order: seq<Id>, all: set<Id>)
    requires NoRepeats(order) && forall x | x in order :: x in all
    ensures |order| == |all| <==> forall x | x in all :: x in order
  {
    SizeOf(order);
    if |order| == |all| {
      assert all == Elements(order) + (all - Elements(order));
      assert all - Elements(order) == {};
      forall x | x in all ensures x in order {
        assert x in Elements(order);
      }
    } else {
      assert Elements(order) != all;
    }
  }

  lemma {:induction false} SizeOf(order: seq<Id>)
    requires NoRepeats(order)
    ensures |Elements(order)| == |order|
    decreases |order|
  {
    if order != [] {
      var init, last := order[..|order| - 1], order[|order| - 1];
      SizeOf(init);
      assert order == init + [last];
      assert Elements(order) == Elements(init) + {last};
      assert last !in init;
    }
  }

  /** With nothing to reset from, cloning succeeds if and only if no run uses another one twice. */
  lemma {:induction false} ContinueSucceedsIff(s: State, g: GraphData, at: map<Id, nat>, standalone: Func -> bool,
      reset: seq<Id>, result: CloneResult)
    requires Shape(s) && RecordedAs(g, s, at) && CloneOf(g, standalone, [], reset, true, result)
    ensures result.Cloned? <==> NoPairTwice(g)
  {
    RecordsWellFormed(g, s, at);
    var root := RootRun(g, s, at);
    var order := SortedByLayer(g, false);
    NothingSkipped(order);
    assert Elements<Id>([]) == {};
    OrderStructure(g, at, false);
    ListsAllIff(order, at.Keys);
    RunIdsDistinct(g.runs);
    OrderIsCompleteIff(g, at, false);
    AllIsClonable(s, g, at);
  }

  lemma {:induction false} RunIdsDistinct(runs: seq<Run>)
    requires forall i, j | 0 <= i < j < |runs| :: runs[i].id != runs[j].id
    ensures |set run | run in runs :: run.id| == |runs|
    decreases |runs|
  {
    if runs != [] {
      var init, last := runs[..|runs| - 1], runs[|runs| - 1];
      RunIdsDistinct(init);
      assert runs == init + [last];
      assert (set run | run in runs :: run.id) == (set run | run in init :: run.id) + {last.id};
      assert last.id !in (set run | run in init :: run.id);
    }
  }

  /** Without anything skipped, every listed run has its parent and inputs before it. */
  lemma {:induction false} AllIsClonable(s: State, g: GraphData, at: map<Id, nat>)
    requires Shape(s) && RecordedAs(g, s, at) && WellFormed(g, at)
    ensures Clonable(g, SortedByLayer(g, false))
  {
    var root := RootRun(g, s, at);
    var order := SortedByLayer(g, false);
    OrderStructure(g, at, false);
    forall i | 0 <= i < |order| ensures ReadyAt(g, order, i) {
      PositionUnique(order, i);
      forall e | e in InputEdges(g.edges, order[i]) ensures EdgeReady(e, order[..i]) {
        InputIsBefore(s, g, at, i, e);
      }
      if ParentOf(g, order[i]).Some? {
        ParentInOrder(g, at, false, order[i]);
        PositionInPrefix(order, i, ParentOf(g, order[i]).value);
      }
    }
  }

  lemma {:induction false} InputIsBefore(s: State, g: GraphData, at: map<Id, nat>, i: nat, e: Edge)
    requires RecordedAs(g, s, at) && WellFormed(g, at) && |Children(g.runs, None)| == 1
    requires i < |SortedByLayer(g, false)| && e in InputEdges(g.edges, SortedByLayer(g, false)[i])
    requires Position(SortedByLayer(g, false), SortedByLayer(g, false)[i]) == i
    ensures EdgeReady(e, SortedByLayer(g, false)[..i])
  {
    assert EdgeRecords(s, at, e);
    if e.source.Some? {
      EdgeInOrder(g, at, false, e);
      PositionInPrefix(SortedByLayer(g, false), i, e.source.value);
    }
  }

  // ---------------------------------------------------------------- arguments

  /** Edges with distinct names give one argument each, in their order. */
  lemma {:induction false} KwargsAre(edges: seq<Edge>, ids: seq<Id>)
    requires DistinctArguments(edges) && forall e | e in edges :: EdgeReady(e, ids)
    ensures var kwargs := KwargsFrom(edges, ids);
            && |kwargs| == |edges|
            && forall k | 0 <= k < |edges| ::
                 edges[k] in edges && kwargs[k] == Kwarg(edges[k].destinationName.value, EdgeArg(edges[k], ids))
    decreases |edges|
  {
    if edges != [] {
      var init, e := edges[..|edges| - 1], edges[|edges| - 1];
      assert edges == init + [e];
      assert EdgeReady(e, ids);
      KwargsAre(init, ids);
      var before := KwargsFrom(init, ids);
      forall k | 0 <= k < |before| ensures before[k].name != e.destinationName.value {
        assert edges[k] == init[k] && EdgeReady(edges[k], ids);
      }
      PutNew(before, e.destinationName.value, EdgeArg(e, ids));
    }
  }

  lemma PutNew(kwargs: Kwargs, name: string, arg: Arg)
    requires forall k | 0 <= k < |kwargs| :: kwargs[k].name != name
    ensures Put(kwargs, name, arg) == kwargs + [Kwarg(name, arg)]
  {
    var i := NameIndex(kwargs, name);
  }

  ghost function Names(at: map<Id, nat>, ids: seq<Id>): seq<nat>
    requires forall x | x in ids :: x in at
  {
    seq(|ids|, i requires 0 <= i < |ids| => assert ids[i] in ids; at[ids[i]])
  }

  /** `c` has the clones of the runs `ids` of a graph recorded from `s`, whatever is reset. */
  ghost predicate Copies(s: State, g: GraphData, at: map<Id, nat>, standalone: Func -> bool, reset: set<Id>,
      ids: seq<Id>, c: State) {
    && Shape(s) && RecordedAs(g, s, at) && WellFormed(g, at)
    && ClonedSoFar(g, standalone, reset, ids, c.calls, c.cells)
  }

  lemma CopyAt(s: State, g: GraphData, at: map<Id, nat>, standalone: Func -> bool, reset: set<Id>, ids: seq<Id>,
      c: State, i: nat)
    requires Copies(s, g, at, standalone, reset, ids, c) && i < |ids|
    ensures |c.calls| == |c.cells| == |ids| && ClonedAt(g, standalone, reset, ids, c.calls, c.cells, i)
    ensures ids[i] in at && at[ids[i]] < |s.calls|
  {
    assert ClonedAt(g, standalone, reset, ids, c.calls, c.cells, i);
    assert RunById(g.runs, ids[i]).value.id in Ids(g);
  }

  lemma CopiesKnown(s: State, g: GraphData, at: map<Id, nat>, standalone: Func -> bool, reset: set<Id>, ids: seq<Id>,
      c: State)
    requires Copies(s, g, at, standalone, reset, ids, c)
    ensures forall x | x in ids :: x in at
  {
    forall x | x in ids ensures x in at {
      CopyAt(s, g, at, standalone, reset, ids, c, Position(ids, x));
    }
  }

  /** A cloned argument is the recorded one, up to the names of futures. */
  lemma {:induction false} ArgRenamed(at: map<Id, nat>, ids: seq<Id>, i: nat, e: Edge, kwarg: Kwarg)
    requires i < |ids| && NoRepeats(ids) && EdgeReady(e, ids[..i]) && ArgRecords(at, kwarg, e)
    requires forall x | x in ids :: x in at
    ensures Matches(Kwarg(e.destinationName.value, EdgeArg(e, ids[..i])), kwarg, Names(at, ids))
  {
    if e.source.Some? {
      var a := e.source.value;
      assert ids[..i][Position(ids[..i], a)] == a;
      assert ids[Position(ids[..i], a)] == a;
    }
  }

  lemma {:induction false} CallRenamed(s: State, g: GraphData, at: map<Id, nat>, standalone: Func -> bool, ids: seq<Id>,
      i: nat)
    requires RecordedAs(g, s, at) && NoRepeats(ids) && (forall x | x in ids :: x in at)
    requires i < |ids| && RunById(g.runs, ids[i]).Some? && InputsReady(g, ids[..i], ids[i])
    ensures ids[i] in at && at[ids[i]] < |s.calls|
    ensures SameCall(CloneCall(g, standalone, ids[..i], RunById(g.runs, ids[i]).value), s.calls[at[ids[i]]],
                     Names(at, ids))
  {
    var x := ids[i];
    assert x in ids;
    RunOf(g, s, at, x);
    assert KwargsRecorded(g, s, at, x);
    var edges, kwargs, rho := InputEdges(g.edges, x), s.calls[at[x]].kwargs, Names(at, ids);
    KwargsAre(edges, ids[..i]);
    var cloned := KwargsFrom(edges, ids[..i]);
    forall k | 0 <= k < |cloned| ensures HasMatch(cloned[k], kwargs, rho) {
      ClonedMatches(s, g, at, ids, i, edges[k]);
    }
    forall l | 0 <= l < |kwargs| ensures IsMatched(cloned, kwargs[l], rho) {
      OriginalIsMatched(s, g, at, ids, i, l);
    }
  }

  /** Every argument of the original call was cloned. */
  lemma {:induction false} OriginalIsMatched(s: State, g: GraphData, at: map<Id, nat>, ids: seq<Id>, i: nat, l: nat)
    requires RecordedAs(g, s, at) && NoRepeats(ids) && (forall x | x in ids :: x in at)
    requires i < |ids| && ids[i] in at && at[ids[i]] < |s.calls| && InputsReady(g, ids[..i], ids[i])
    requires l < |s.calls[at[ids[i]]].kwargs|
    ensures IsMatched(KwargsFrom(InputEdges(g.edges, ids[i]), ids[..i]), s.calls[at[ids[i]]].kwargs[l], Names(at, ids))
  {
    var x := ids[i];
    var edges, kwarg, rho := InputEdges(g.edges, x), s.calls[at[x]].kwargs[l], Names(at, ids);
    assert KwargsRecorded(g, s, at, x);
    assert KwargRecorded(g, at, x, kwarg);
    KwargsAre(edges, ids[..i]);
    var cloned := KwargsFrom(edges, ids[..i]);
    var e :| e in edges && ArgRecords(at, kwarg, e);
    var k :| 0 <= k < |edges| && edges[k] == e;
    ArgRenamed(at, ids, i, e, kwarg);
    assert Matches(cloned[k], kwarg, rho);
  }

  /** The argument cloned from an edge was an argument of the original call. */
  lemma {:induction false} ClonedMatches(s: State, g: GraphData, at: map<Id, nat>, ids: seq<Id>, i: nat, e: Edge)
    requires RecordedAs(g, s, at) && NoRepeats(ids) && (forall x | x in ids :: x in at)
    requires i < |ids| && e in InputEdges(g.edges, ids[i]) && EdgeReady(e, ids[..i])
    ensures ids[i] in at && at[ids[i]] < |s.calls|
    ensures HasMatch(Kwarg(e.destinationName.value, EdgeArg(e, ids[..i])), s.calls[at[ids[i]]].kwargs, Names(at, ids))
  {
    var x := ids[i];
    assert x in ids;
    RunOf(g, s, at, x);
    assert EdgeRecords(s, at, e);
    var kwargs := s.calls[at[x]].kwargs;
    var l: nat :| l < |kwargs| && ArgRecords(at, kwargs[l], e);
    ArgRenamed(at, ids, i, e, kwargs[l]);
  }

  /** The cloned calls are the recorded ones, renamed. */
  lemma {:induction false} CloneRenames(s: State, g: GraphData, at: map<Id, nat>, standalone: Func -> bool,
      reset: set<Id>, ids: seq<Id>, c: State)
    requires Copies(s, g, at, standalone, reset, ids, c)
    ensures (forall x | x in ids :: x in at)
    ensures Renames(c.calls, s.calls, Names(at, ids))
    ensures forall call | call in c.calls :: call.standalone == standalone(call.func)
  {
    CopiesKnown(s, g, at, standalone, reset, ids, c);
    var rho := Names(at, ids);
    forall i | 0 <= i < |ids|
      ensures rho[i] < |s.calls| && SameCall(c.calls[i], s.calls[rho[i]], rho)
      ensures c.calls[i].standalone == standalone(c.calls[i].func)
    {
      CopyAt(s, g, at, standalone, reset, ids, c, i);
      CallRenamed(s, g, at, standalone, ids, i);
    }
  }

  // ------------------------------------------------------------------ structure

  lemma CloneUses(a: seq<Call>, b: seq<Call>, rho: seq<nat>, i: nat, j: nat)
    requires Renames(a, b, rho) && i < |a| && j < |a|
    requires forall k, l | 0 <= k < l < |rho| :: rho[k] != rho[l]
    requires forall m: nat | Uses(a[i], m) :: m < |a|
    ensures Uses(a[i], j) <==> Uses(b[rho[i]], rho[j])
  {
    if Uses(a[i], j) {
      CloneUsesToo(a, b, rho, i, j);
    }
    if Uses(b[rho[i]], rho[j]) {
      var l :| 0 <= l < |b[rho[i]].kwargs| && b[rho[i]].kwargs[l].arg == Upstream(rho[j]);
      assert IsMatched(a[i].kwargs, b[rho[i]].kwargs[l], rho);
      var k :| 0 <= k < |a[i].kwargs| && Matches(a[i].kwargs[k], b[rho[i]].kwargs[l], rho);
      assert Uses(a[i], a[i].kwargs[k].arg.id);
    }
  }

  lemma CloneUsesToo(a: seq<Call>, b: seq<Call>, rho: seq<nat>, i: nat, j: nat)
    requires Renames(a, b, rho) && i < |a| && j < |a| && Uses(a[i], j)
    ensures Uses(b[rho[i]], rho[j])
  {
    var k :| 0 <= k < |a[i].kwargs| && a[i].kwargs[k].arg == Upstream(j);
    assert HasMatch(a[i].kwargs[k], b[rho[i]].kwargs, rho);
    var l :| 0 <= l < |b[rho[i]].kwargs| && Matches(a[i].kwargs[k], b[rho[i]].kwargs[l], rho);
  }

  /** A cloned argument refers to the clone of an upstream run. */
  lemma {:induction false} CloneUsesEdge(s: State, g: GraphData, at: map<Id, nat>, standalone: Func -> bool,
      reset: set<Id>, ids: seq<Id>, c: State, i: nat, j: nat) returns (e: Edge)
    requires Copies(s, g, at, standalone, reset, ids, c) && i < |c.calls| && Uses(c.calls[i], j)
    ensures j < i && i < |ids| && e in g.edges
    ensures e.source == Some(ids[j]) && e.destination == Some(ids[i])
  {
    CopyAt(s, g, at, standalone, reset, ids, c, i);
    RunOf(g, s, at, ids[i]);
    assert KwargsRecorded(g, s, at, ids[i]);
    var edges := InputEdges(g.edges, ids[i]);
    KwargsAre(edges, ids[..i]);
    var k :| 0 <= k < |c.calls[i].kwargs| && c.calls[i].kwargs[k].arg == Upstream(j);
    e := edges[k];
    assert e in edges && EdgeReady(e, ids[..i]);
    assert ids[..i][j] == ids[j];
  }

  lemma {:induction false} NamesDistinct(s: State, g: GraphData, at: map<Id, nat>, ids: seq<Id>)
    requires RecordedAs(g, s, at) && NoRepeats(ids) && forall x | x in ids :: x in at
    ensures forall k, l | 0 <= k < l < |ids| :: Names(at, ids)[k] != Names(at, ids)[l]
  {
    forall k, l | 0 <= k < l < |ids| ensures Names(at, ids)[k] != Names(at, ids)[l] {
      assert ids[k] in ids && ids[l] in ids;
      assert at[ids[k]] == at[ids[l]] ==> SameIndex(at, ids[k], ids[l]);
    }
  }

  lemma {:induction false} CloneValidCalls(s: State, g: GraphData, at: map<Id, nat>, standalone: Func -> bool,
      reset: set<Id>, ids: seq<Id>, c: State)
    requires Copies(s, g, at, standalone, reset, ids, c)
    ensures ValidCalls(c.calls)
  {
    forall i: nat, j: nat | i < |c.calls| && Uses(c.calls[i], j) ensures j < i {
      var e := CloneUsesEdge(s, g, at, standalone, reset, ids, c, i, j);
    }
  }

  // --------------------------------------------------------------------- meaning

  /** Every clone evaluates to what its original evaluates to. */
  lemma {:induction false} CloneEval(p: Program, n: nat, s: State, g: GraphData, at: map<Id, nat>,
      standalone: Func -> bool, reset: set<Id>, ids: seq<Id>, c: State, i: nat)
    requires Copies(s, g, at, standalone, reset, ids, c) && i < |c.calls|
    ensures i < |ids| && ids[i] in at && at[ids[i]] < |s.calls|
    ensures Eval(p, n, c.calls, i) == Eval(p, n, s.calls, at[ids[i]])
  {
    CopyAt(s, g, at, standalone, reset, ids, c, i);
    CloneValidCalls(s, g, at, standalone, reset, ids, c);
    CloneRenames(s, g, at, standalone, reset, ids, c);
    EvalRenamed(p, n, c.calls, s.calls, Names(at, ids), i);
  }

  /** The recorded output of a run is the value its future had. */
  lemma RecordedOutput(p: Program, s: State, g: GraphData, at: map<Id, nat>, x: Id)
    requires Shape(s) && Life(p, s) && RecordedAs(g, s, at) && x in at
    ensures at[x] < |s.cells| && RunOutput(g, x) == s.cells[at[x]].value
    ensures (s.cells[at[x]].state == RESOLVED) == s.cells[at[x]].value.Some?
  {
    RunOf(g, s, at, x);
    assert CellOk(p, s, at[x]);
    assert KwargsRecorded(g, s, at, x);
    var edges := OutputEdges(g.edges, x);
    if edges != [] {
      assert edges[0] in edges && EdgeRecords(s, at, edges[0]);
    }
  }

  lemma {:induction false} CloneValueAgrees(p: Program, n: nat, s: State, g: GraphData, at: map<Id, nat>,
      standalone: Func -> bool, reset: set<Id>, ids: seq<Id>, c: State, i: nat)
    requires Copies(s, g, at, standalone, reset, ids, c) && i < |c.cells| == |c.calls|
    requires Life(p, s) && Sound(p, n, s)
    ensures ValueAgrees(p, n, c, i)
    ensures c.cells[i].state == RESOLVED ==> c.cells[i].value.Some?
    ensures c.cells[i].state in {CREATED, RAN, RESOLVED} && c.cells[i].retryCount == 0
  {
    CopyAt(s, g, at, standalone, reset, ids, c, i);
    RunOf(g, s, at, ids[i]);
    RecordedOutput(p, s, g, at, ids[i]);
    assert ValueAgrees(p, n, s, at[ids[i]]);
    CloneEval(p, n, s, g, at, standalone, reset, ids, c, i);
  }

  lemma {:induction false} CloneNestedAgrees(p: Program, n: nat, s: State, g: GraphData, at: map<Id, nat>,
      standalone: Func -> bool, reset: set<Id>, ids: seq<Id>, c: State, i: nat)
    requires Copies(s, g, at, standalone, reset, ids, c) && i < |c.cells| == |c.calls| && Sound(p, n, s)
    ensures NestedAgrees(p, n, c, i)
    ensures c.cells[i].nested.Some? ==> c.cells[i].nested.value < |c.cells|
  {
    CopyAt(s, g, at, standalone, reset, ids, c, i);
    RunOf(g, s, at, ids[i]);
    assert NestedAgrees(p, n, s, at[ids[i]]);
    if c.cells[i].nested.Some? {
      var y := RunById(g.runs, ids[i]).value.nested.value;
      RunOf(g, s, at, y);
      forall m: nat | n <= m ensures Eval(p, m + 1, c.calls, i) == Eval(p, m, c.calls, Position(ids, y)) {
        CloneEval(p, m + 1, s, g, at, standalone, reset, ids, c, i);
        CloneEval(p, m, s, g, at, standalone, reset, ids, c, Position(ids, y));
      }
    }
  }

  // ------------------------------------------------------------------- the queue

  /** The queue lists every clone once, the root first. */
  lemma {:induction false} QueueIs(order: seq<Id>, ids: seq<Id>)
    requires NoRepeats(order) && NoRepeats(ids)
    ensures NoDuplicates(QueueOf(order, ids))
    ensures forall i: nat :: i in QueueOf(order, ids) <==> i < |ids| && ids[i] in order
    decreases |order|
  {
    if order != [] {
      var init, last := order[..|order| - 1], order[|order| - 1];
      assert order == init + [last];
      QueueIs(init, ids);
      assert last !in init;
      if last in ids {
        var k := Position(ids, last);
        assert k !in QueueOf(init, ids);
        forall i: nat | i < |ids| && ids[i] == last ensures i == k {}
      }
    }
  }

  lemma {:induction false} QueueStarts(order: seq<Id>, ids: seq<Id>)
    requires order != [] && order[0] in ids
    ensures QueueOf(order, ids) != [] && QueueOf(order, ids)[0] == Position(ids, order[0])
    decreases |order|
  {
    if |order| > 1 {
      QueueStarts(order[..|order| - 1], ids);
    } else {
      assert QueueOf(order[..0], ids) == [];
    }
  }

  lemma {:induction false} CloneQueue(s: State, g: GraphData, at: map<Id, nat>, r: Id,
      standalone: Func -> bool, c: State)
    requires Original(s, g, at, r) && IsClone(g, standalone, ResetSet(g, at, r), KeptIds(g, at, r), c)
    ensures |c.calls| > 0 && NoDuplicates(c.queue) && c.queue != [] && c.queue[0] == 0
    ensures forall i: nat :: i in c.queue <==> i < |c.calls|
  {
    var ids, order := KeptIds(g, at, r), SortedByLayer(g, true);
    var root := RootFirst(s, g, at, r);
    var _ := RootRun(g, s, at);
    OrderStructure(g, at, true);
    KeptMembers(s, g, at, r);
    KeptIsWhole(g, at, r);
    PartIsListedIff(g, at, true, KeptSet(g, at, r));
    QueueIs(order, ids);
    QueueStarts(order, ids);
    PositionUnique(ids, 0);
    forall i: nat | i < |ids| ensures ids[i] in order {
      assert ids[i] in ids;
    }
  }

  // ----------------------------------------------------------- the states of clones

  /** Every run that is neither skipped nor reset was resolved, or has no runs below it. */
  ghost predicate Keepable(g: GraphData, at: map<Id, nat>, r: Id)
    requires WellFormed(g, at) && r in at
  {
    forall x | x in at && !Skipped(g, at, r, x) && !Reset(g, at, r, x) :: KeepableRun(g, x)
  }

  ghost predicate KeepableRun(g: GraphData, x: Id) {
    || (RunById(g.runs, x).Some? && RunById(g.runs, x).value.state == RESOLVED)
    || Children(g.runs, Some(x)) == []
  }

  /** The recorded nested run of a run. */
  lemma NestedRun(s: State, g: GraphData, at: map<Id, nat>, x: Id)
    requires Shape(s) && RecordedAs(g, s, at) && WellFormed(g, at) && x in at && RunById(g.runs, x).Some?
    requires RunById(g.runs, x).value.nested.Some?
    ensures var y := RunById(g.runs, x).value.nested.value;
            && y in at && ParentOf(g, y) == Some(x) && y in Children(g.runs, Some(x))
            && at[x] < |s.cells| && s.cells[at[x]].nested == Some(at[y])
  {
    RunOf(g, s, at, x);
    var y := RunById(g.runs, x).value.nested.value;
    RunOf(g, s, at, y);
    assert NestedOk(s, at[x]);
    assert SameIndex(at, ParentOf(g, y).value, x);
    ChildIs(g, at, Some(x), y);
  }

  /** The nested run of an ancestor is the last of its layer: the runs on the line to the
      starting point are it or flow into it. */
  lemma {:induction false} FlowsToNested(s: State, g: GraphData, at: map<Id, nat>, x: Id, q: Id) returns (y: Id)
    requires Shape(s) && RecordedAs(g, s, at) && WellFormed(g, at) && x in at && ParentOf(g, x) == Some(q)
    ensures q in at && RunById(g.runs, q).Some? && RunById(g.runs, q).value.nested == Some(y)
    ensures y in at && ParentOf(g, y) == Some(q) && (x == y || Flows(g, at, x, y))
    decreases |s.calls| - (if x in at && at[x] < |s.calls| then at[x] else 0)
  {
    ParentRank(g, at, x);
    RunOf(g, s, at, x);
    RunOf(g, s, at, q);
    var i := at[x];
    assert HasParent(s, i) && LinkedUp(s, i);
    y := RunById(g.runs, q).value.nested.value;
    NestedRun(s, g, at, q);
    if s.cells[at[q]].nested == Some(i) {
      assert SameIndex(at, x, y);
    } else {
      var j: nat :| i < j < |s.calls| && Uses(s.calls[j], i);
      assert HasName(at, j);
      var z :| z in at && at[z] == j;
      assert SameLayer(s, j);
      SameParent(g, s, at, x, z);
      UsesEdge(g, s, at, x, z);
      var e :| e in InputEdges(g.edges, z) && e.source == Some(x);
      FlowsEdge(g, at, e);
      var y' := FlowsToNested(s, g, at, z, q);
      if z != y {
        FlowsTrans(g, at, x, z, y);
      }
    }
  }

  /** The nested run of an ancestor of the starting point is reset. */
  lemma {:induction false} LineNested(s: State, g: GraphData, at: map<Id, nat>, r: Id, c: Id, q: Id) returns (y: Id)
    requires Shape(s) && RecordedAs(g, s, at) && WellFormed(g, at) && r in at
    requires c in at && AtOrAbove(g, at, c, r) && ParentOf(g, c) == Some(q)
    ensures q in at && RunById(g.runs, q).Some? && RunById(g.runs, q).value.nested == Some(y)
    ensures y in at && ParentOf(g, y) == Some(q) && Reset(g, at, r, y)
  {
    y := FlowsToNested(s, g, at, c, q);
    if c != y {
      assert Affected(g, at, r, y);
    }
  }

  /** An ancestor has a child on the line to the starting point. */
  lemma LineChild(g: GraphData, at: map<Id, nat>, r: Id, q: Id) returns (c: Id)
    requires WellFormed(g, at) && r in at && Above(g, at, q, r)
    ensures c in at && AtOrAbove(g, at, c, r) && ParentOf(g, c) == Some(q)
  {
    AboveFromTop(g, at, q, r);
    c :| c in at && ParentOf(g, c) == Some(q) && AtOrAbove(g, at, c, r);
  }

  datatype Role = Ancestor | Restarted | TakenOver | Pending

  /** What becomes of a kept run: ancestors of the starting point stay open, the starting
      point and what it affects start over, resolved runs are taken over, and others wait. */
  ghost function RoleOf(s: State, g: GraphData, at: map<Id, nat>, r: Id, x: Id): Role
    requires WellFormed(g, at) && r in at && x in at && at[x] < |s.cells|
  {
    if Above(g, at, x, r) then Ancestor
    else if Reset(g, at, r, x) then Restarted
    else if s.cells[at[x]].state == RESOLVED then TakenOver
    else Pending
  }

  ghost predicate CloneFits(s: State, g: GraphData, at: map<Id, nat>, r: Id, ids: seq<Id>, x: Id, d: Cell)
    requires WellFormed(g, at) && r in at && x in at && at[x] < |s.cells|
  {
    var role, c := RoleOf(s, g, at, r, x), s.cells[at[x]];
    && d.resolvedKwargs == map[] && d.retryCount == 0 && d.executions == 0
    && d.parent == (match ParentOf(g, x) case None => None case Some(q) => Some(Position(ids, q)))
    && d.state == (match role case Ancestor => RAN case TakenOver => RESOLVED case _ => CREATED)
    && d.value == (if role.TakenOver? then c.value else None)
    && (if role.Ancestor? || role.TakenOver? then NestedFits(g, at, ids, x, c.nested, d.nested) else d.nested.None?)
  }

  /** The clone's nested future is the clone of the nested run. */
  ghost predicate NestedFits(g: GraphData, at: map<Id, nat>, ids: seq<Id>, x: Id, m: Option<nat>, d: Option<nat>) {
    match m
    case None => d.None?
    case Some(k) =>
      exists y :: y in ids && y in at && at[y] == k && ParentOf(g, y) == Some(x) && d == Some(Position(ids, y))
  }

  lemma {:induction false} CloneCellFits(p: Program, s: State, g: GraphData, at: map<Id, nat>, r: Id, x: Id)
    requires Original(s, g, at, r) && Life(p, s) && Keepable(g, at, r) && x in KeptIds(g, at, r)
    ensures x in at && at[x] < |s.cells| && RunById(g.runs, x).Some?
    ensures CloneFits(s, g, at, r, KeptIds(g, at, r), x,
                      CloneCell(g, ResetSet(g, at, r), KeptIds(g, at, r), RunById(g.runs, x).value))
  {
    KeptMembers(s, g, at, r);
    RunOf(g, s, at, x);
    if RoleOf(s, g, at, r, x) in {Ancestor, TakenOver} {
      OpenCellFits(p, s, g, at, r, x);
    } else {
      StartingCellFits(p, s, g, at, r, x);
    }
  }

  /** Ancestors of the starting point, and runs taken over. */
  lemma {:induction false} OpenCellFits(p: Program, s: State, g: GraphData, at: map<Id, nat>, r: Id, x: Id)
    requires Original(s, g, at, r) && Life(p, s) && x in KeptIds(g, at, r) && x in at && at[x] < |s.cells|
    requires RunById(g.runs, x).Some? && RoleOf(s, g, at, r, x) in {Ancestor, TakenOver}
    ensures CloneFits(s, g, at, r, KeptIds(g, at, r), x,
                      CloneCell(g, ResetSet(g, at, r), KeptIds(g, at, r), RunById(g.runs, x).value))
  {
    RunOf(g, s, at, x);
    RecordedOutput(p, s, g, at, x);
    if RoleOf(s, g, at, r, x).Ancestor? {
      AncestorNested(s, g, at, r, x);
    } else if RunById(g.runs, x).value.nested.Some? {
      KeptNested(s, g, at, r, x);
    }
  }

  /** Runs that start over, and runs that never ran. */
  lemma {:induction false} StartingCellFits(p: Program, s: State, g: GraphData, at: map<Id, nat>, r: Id, x: Id)
    requires Original(s, g, at, r) && Life(p, s) && Keepable(g, at, r) && x in KeptIds(g, at, r) && x in at
    requires at[x] < |s.cells| && RunById(g.runs, x).Some? && RoleOf(s, g, at, r, x) in {Restarted, Pending}
    ensures CloneFits(s, g, at, r, KeptIds(g, at, r), x,
                      CloneCell(g, ResetSet(g, at, r), KeptIds(g, at, r), RunById(g.runs, x).value))
  {
    KeptMembers(s, g, at, r);
    RunOf(g, s, at, x);
    RecordedOutput(p, s, g, at, x);
    if RoleOf(s, g, at, r, x).Restarted? {
      RestartedNested(s, g, at, r, x);
    } else {
      assert KeepableRun(g, x);
      if RunById(g.runs, x).value.nested.Some? {
        NestedRun(s, g, at, x);
      }
    }
  }

  lemma AncestorNested(s: State, g: GraphData, at: map<Id, nat>, r: Id, x: Id)
    requires Original(s, g, at, r) && x in at && Above(g, at, x, r)
    ensures RunById(g.runs, x).Some? && RunById(g.runs, x).value.nested.Some?
    ensures var y := RunById(g.runs, x).value.nested.value;
            && y in at && y in KeptIds(g, at, r) && ParentOf(g, y) == Some(x) && Reset(g, at, r, y)
            && at[x] < |s.cells| && s.cells[at[x]].nested == Some(at[y])
  {
    KeptMembers(s, g, at, r);
    var c := LineChild(g, at, r, x);
    var y := LineNested(s, g, at, r, c, x);
    NestedRun(s, g, at, x);
    LayerIsKept(g, at, r, y);
  }

  lemma {:induction false} RestartedNested(s: State, g: GraphData, at: map<Id, nat>, r: Id, x: Id)
    requires Original(s, g, at, r) && x in at && Reset(g, at, r, x) && !Above(g, at, x, r)
    ensures RunById(g.runs, x).Some?
    ensures NestedClone(g, KeptIds(g, at, r), RunById(g.runs, x).value).None?
  {
    KeptMembers(s, g, at, r);
    RunOf(g, s, at, x);
    var run := RunById(g.runs, x).value;
    if run.nested.Some? {
      NestedRun(s, g, at, x);
      LayerIsSkipped(g, at, r, run.nested.value);
    }
  }

  lemma {:induction false} KeptNested(s: State, g: GraphData, at: map<Id, nat>, r: Id, x: Id)
    requires Original(s, g, at, r) && x in KeptIds(g, at, r) && x in at && !Reset(g, at, r, x)
    requires RunById(g.runs, x).Some? && RunById(g.runs, x).value.nested.Some?
    ensures var y := RunById(g.runs, x).value.nested.value;
            && y in at && y in KeptIds(g, at, r) && ParentOf(g, y) == Some(x) && !Reset(g, at, r, y)
            && at[x] < |s.cells| && s.cells[at[x]].nested == Some(at[y])
  {
    KeptMembers(s, g, at, r);
    NestedRun(s, g, at, x);
    var y := RunById(g.runs, x).value.nested.value;
    SkippedByParent(g, at, r, y);
    if Reset(g, at, r, y) {
      ResetParent(g, at, r, y);
    }
  }
}
