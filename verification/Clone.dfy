/** `clone_futures`: turns a recorded graph into the futures a rerun starts from. */
module Clone {
  import opened FutureStates
  import opened Semantics
  import opened RunnerState
  import opened Algorithms
  import opened RunGraph
  import opened LayerOrder
  import G = Graph

  // ---------------------------------------------------------------- arguments

  function NameIndex(kwargs: seq<Kwarg>, name: string): (i: nat)
    ensures i < |kwargs| ==> kwargs[i].name == name
    ensures i <= |kwargs| && forall k | 0 <= k < i :: kwargs[k].name != name
  {
    if kwargs == [] then 0 else if kwargs[0].name == name then 0 else 1 + NameIndex(kwargs[1..], name)
  }

  /** Assignment to a key of a dict. */
  function Put(kwargs: Kwargs, name: string, arg: Arg): Kwargs {
    var i := NameIndex(kwargs, name);
    if i < |kwargs| then kwargs[i := Kwarg(name, arg)] else kwargs + [Kwarg(name, arg)]
  }

  /** An input edge names its argument and gives a future cloned before or an artifact. */
  predicate EdgeReady(e: Edge, ids: seq<Id>) {
    e.destinationName.Some? && if e.source.Some? then e.source.value in ids else e.artifact.Some?
  }

  function EdgeArg(e: Edge, ids: seq<Id>): Arg
    requires EdgeReady(e, ids)
  {
    if e.source.Some? then Upstream(Position(ids, e.source.value)) else Concrete(e.artifact.value)
  }

  /** The keyword arguments that a list of input edges describes. */
  function KwargsFrom(edges: seq<Edge>, ids: seq<Id>): Kwargs
    requires forall e | e in edges :: EdgeReady(e, ids)
  {
    if edges == [] then []
    else
      var e := edges[|edges| - 1];
      assert EdgeReady(e, ids);
      Put(KwargsFrom(edges[..|edges| - 1], ids), e.destinationName.value, EdgeArg(e, ids))
  }

  /** Edge `i` is the last one for this argument. */
  ghost predicate LastFor(edges: seq<Edge>, i: nat, name: string) {
    && i < |edges| && edges[i].destinationName == Some(name)
    && forall j | i < j < |edges| :: edges[j].destinationName != Some(name)
  }

  /** The argument is the clone of the edge's source, if it has one, and the edge's artifact if not. */
  ghost predicate ComesFrom(arg: Arg, e: Edge, ids: seq<Id>) {
    if e.source.Some? then arg.Upstream? && arg.id < |ids| && ids[arg.id] == e.source.value
    else e.artifact.Some? && arg == Concrete(e.artifact.value)
  }

  ghost predicate DecidedByLast(edges: seq<Edge>, ids: seq<Id>, kwarg: Kwarg) {
    exists i: nat :: LastFor(edges, i, kwarg.name) && ComesFrom(kwarg.arg, edges[i], ids)
  }

  ghost predicate HasArgument(kwargs: seq<Kwarg>, name: Option<string>) {
    name.Some? && exists k | 0 <= k < |kwargs| :: kwargs[k].name == name.value
  }

  /** There is one argument for every name, and the last edge for it decides what it is. */
  lemma {:induction false} LastEdgesDecide(edges: seq<Edge>, ids: seq<Id>)
    requires forall e | e in edges :: EdgeReady(e, ids)
    ensures forall kwarg | kwarg in KwargsFrom(edges, ids) :: DecidedByLast(edges, ids, kwarg)
    ensures forall e | e in edges :: HasArgument(KwargsFrom(edges, ids), e.destinationName)
    decreases |edges|
  {
    if edges != [] {
      var init, e := edges[..|edges| - 1], edges[|edges| - 1];
      assert edges == init + [e] && EdgeReady(e, ids);
      LastEdgesDecide(init, ids);
      PutDecides(init, ids, KwargsFrom(init, ids), e, EdgeArg(e, ids));
    }
  }

  lemma PutDecides(init: seq<Edge>, ids: seq<Id>, before: Kwargs, e: Edge, arg: Arg)
    requires e.destinationName.Some? && ComesFrom(arg, e, ids)
    requires forall kwarg | kwarg in before :: DecidedByLast(init, ids, kwarg)
    requires forall d | d in init :: HasArgument(before, d.destinationName)
    ensures var after := Put(before, e.destinationName.value, arg);
            && (forall kwarg | kwarg in after :: DecidedByLast(init + [e], ids, kwarg))
            && (forall d | d in init + [e] :: HasArgument(after, d.destinationName))
  {
    var name := e.destinationName.value;
    var after, at := Put(before, name, arg), NameIndex(before, name);
    assert after[at] == Kwarg(name, arg) && LastFor(init + [e], |init|, name);
    forall k | 0 <= k < |after| ensures DecidedByLast(init + [e], ids, after[k]) {
      if k != at {
        assert after[k] == before[k] && before[k] in before && before[k].name != name;
        var i: nat :| LastFor(init, i, after[k].name) && ComesFrom(after[k].arg, init[i], ids);
        assert LastFor(init + [e], i, after[k].name);
      } else {
        assert ComesFrom(after[k].arg, (init + [e])[|init|], ids);
      }
    }
    forall d | d in init ensures HasArgument(after, d.destinationName) {
      var k :| 0 <= k < |before| && before[k].name == d.destinationName.value;
      assert after[k].name == before[k].name;
    }
  }

  /** `_get_future_inputs`, or none where that raises. */
  method GetFutureInputs(edges: seq<Edge>, ids: seq<Id>) returns (kwargs: Option<Kwargs>)
    ensures kwargs.Some? <==> forall e | e in edges :: EdgeReady(e, ids)
    ensures kwargs.Some? ==> kwargs.value == KwargsFrom(edges, ids)
    ensures kwargs.Some? ==>
              && (forall kwarg | kwarg in kwargs.value :: DecidedByLast(edges, ids, kwarg))
              && (forall e | e in edges :: HasArgument(kwargs.value, e.destinationName))
  {
    var result: Kwargs := [];
    for k := 0 to |edges|
      invariant forall e | e in edges[..k] :: EdgeReady(e, ids)
      invariant result == KwargsFrom(edges[..k], ids)
    {
      assert edges[..k + 1] == edges[..k] + [edges[k]];
      var e := edges[k];
      if e.destinationName.None? {
        assert e in edges && !EdgeReady(e, ids);
        return None;
      }
      if e.source.Some? {
        if e.source.value !in ids {
          assert e in edges && !EdgeReady(e, ids);
          return None;
        }
        result := Put(result, e.destinationName.value, Upstream(Position(ids, e.source.value)));
      } else if e.artifact.Some? {
        result := Put(result, e.destinationName.value, Concrete(e.artifact.value));
      } else {
        assert e in edges && !EdgeReady(e, ids);
        return None;
      }
      assert edges[..k + 1][..k] == edges[..k];
    }
    assert edges[..|edges|] == edges;
    LastEdgesDecide(edges, ids);
    kwargs := Some(result);
  }

  /** `_get_run_output`: the artifact of the first output edge. */
  function RunOutput(g: GraphData, x: Id): Option<Value> {
    var edges := OutputEdges(g.edges, x);
    if edges == [] then None else edges[0].artifact
  }

  // ------------------------------------------------------------- one clone

  /** The clone of the future nested in `x`, if there is one. */
  function NestedClone(g: GraphData, ids: seq<Id>, run: Run): Option<Id> {
    if run.nested.Some? && run.nested.value in ids && ParentOf(g, run.nested.value) == Some(run.id)
    then run.nested else None
  }

  /** The fields of the clone of `run`, once the runs `ids` are cloned. */
  function CloneCell(g: GraphData, reset: set<Id>, ids: seq<Id>, run: Run): Cell {
    var nested := NestedClone(g, ids, run);
    FRESH_CELL.(
      state := if nested.Some? && nested.value in reset then RAN
               else if run.state == RESOLVED && run.id !in reset then RESOLVED
               else CREATED,
      value := if run.id in reset then None else RunOutput(g, run.id),
      parent := if run.parent.Some? then Some(Position(ids, run.parent.value)) else None,
      nested := if nested.Some? then Some(Position(ids, nested.value)) else None)
  }

  predicate InputsReady(g: GraphData, ids: seq<Id>, x: Id) {
    forall e | e in InputEdges(g.edges, x) :: EdgeReady(e, ids)
  }

  /** A clone's function and arguments; whether it runs standalone is set by its function. */
  function CloneCall(g: GraphData, standalone: Func -> bool, ids: seq<Id>, run: Run): Call
    requires InputsReady(g, ids, run.id)
  {
    Call(run.func, KwargsFrom(InputEdges(g.edges, run.id), ids), standalone(run.func))
  }

  // ---------------------------------------------------------------- the clone

  /** The runs cloned so far, with the futures cloned from them. */
  ghost predicate ClonedSoFar(g: GraphData, standalone: Func -> bool, reset: set<Id>, ids: seq<Id>,
      calls: seq<Call>, cells: seq<Cell>) {
    && |calls| == |cells| == |ids| && NoRepeats(ids)
    && forall i | 0 <= i < |ids| :: ClonedAt(g, standalone, reset, ids, calls, cells, i)
  }

  ghost predicate ClonedAt(g: GraphData, standalone: Func -> bool, reset: set<Id>, ids: seq<Id>,
      calls: seq<Call>, cells: seq<Cell>, i: nat)
    requires i < |ids| == |calls| == |cells|
  {
    && RunById(g.runs, ids[i]).Some?
    && InputsReady(g, ids[..i], ids[i])
    && (ParentOf(g, ids[i]).Some? ==> ParentOf(g, ids[i]).value in ids[..i])
    && calls[i] == CloneCall(g, standalone, ids[..i], RunById(g.runs, ids[i]).value)
    && cells[i] == CloneCell(g, reset, ids, RunById(g.runs, ids[i]).value)
  }

  /** `sort_by`: the positions of the cloned runs, in the order given. */
  function QueueOf(order: seq<Id>, ids: seq<Id>): seq<nat> {
    if order == [] then []
    else QueueOf(order[..|order| - 1], ids) +
         if order[|order| - 1] in ids then [Position(ids, order[|order| - 1])] else []
  }

  /** The runs of a list that are not skipped. */
  function Kept(order: seq<Id>, skip: set<Id>): seq<Id> {
    if order == [] then []
    else Kept(order[..|order| - 1], skip) + if order[|order| - 1] in skip then [] else [order[|order| - 1]]
  }

  datatype CloneResult = Cloned(ids: seq<Id>, state: State) | CloneError

  /** A clone depends on the runs before it and on its own children only. */
  lemma {:induction false} ClonedMore(g: GraphData, standalone: Func -> bool, reset: set<Id>, ids: seq<Id>,
      calls: seq<Call>, cells: seq<Cell>,
      run: Run, call: Call, cells': seq<Cell>)
    requires ClonedSoFar(g, standalone, reset, ids, calls, cells) && run.id !in ids
    requires RunById(g.runs, run.id) == Some(run) && InputsReady(g, ids, run.id)
    requires run.parent.Some? ==> run.parent.value in ids
    requires call == CloneCall(g, standalone, ids, run)
    requires |cells'| == |cells| + 1 && cells'[|cells|] == CloneCell(g, reset, ids + [run.id], run)
    requires forall i | 0 <= i < |ids| ::
               RunById(g.runs, ids[i]).Some?
                 && cells'[i] == CloneCell(g, reset, ids + [run.id], RunById(g.runs, ids[i]).value)
    ensures ClonedSoFar(g, standalone, reset, ids + [run.id], calls + [call], cells')
  {
    var ids' := ids + [run.id];
    forall i | 0 <= i < |ids'| ensures ClonedAt(g, standalone, reset, ids', calls + [call], cells', i) {
      if i < |ids| {
        assert ClonedAt(g, standalone, reset, ids, calls, cells, i);
        assert ids'[..i] == ids[..i];
      } else {
        assert ids'[..i] == ids;
      }
    }
  }

  lemma {:induction false} PositionAppend(ids: seq<Id>, x: Id, y: Id)
    ensures Position(ids + [x], y) == if y in ids then Position(ids, y) else if y == x then |ids| else |ids| + 1
    decreases |ids|
  {
    if ids != [] {
      assert (ids + [x])[1..] == ids[1..] + [x];
      PositionAppend(ids[1..], x, y);
    } else {
      assert ([] + [x])[1..] == [];
    }
  }

  /** Cloning `run` changes the fields of its parent's clone, if `run` is nested there. */
  lemma OthersUnchanged(g: GraphData, reset: set<Id>, ids: seq<Id>, run: Run, other: Run)
    requires RunById(g.runs, run.id) == Some(run) && run.id !in ids
    requires other.parent.Some? ==> other.parent.value in ids
    ensures var c := CloneCell(g, reset, ids, other);
            CloneCell(g, reset, ids + [run.id], other) ==
              if run.parent == Some(other.id) && other.nested == Some(run.id)
              then c.(nested := Some(|ids|), state := if run.id in reset then RAN else c.state)
              else c
  {
    if other.nested.Some? {
      PositionAppend(ids, run.id, other.nested.value);
    }
    if other.parent.Some? {
      PositionAppend(ids, run.id, other.parent.value);
    }
  }

  lemma OwnCell(g: GraphData, reset: set<Id>, ids: seq<Id>, run: Run)
    requires RunById(g.runs, run.id) == Some(run) && run.id !in ids
    requires forall y | y in ids :: ParentOf(g, y) != Some(run.id)
    requires run.parent.Some? ==> run.parent.value in ids
    ensures CloneCell(g, reset, ids + [run.id], run) == CloneCell(g, reset, ids, run)
    ensures CloneCell(g, reset, ids, run).nested.None?
  {
    if run.parent.Some? {
      PositionAppend(ids, run.id, run.parent.value);
    }
  }

  lemma NoChildBefore(g: GraphData, standalone: Func -> bool, reset: set<Id>, ids: seq<Id>, calls: seq<Call>,
      cells: seq<Cell>, x: Id)
    requires ClonedSoFar(g, standalone, reset, ids, calls, cells) && x !in ids
    ensures forall y | y in ids :: ParentOf(g, y) != Some(x)
  {
    forall y | y in ids ensures ParentOf(g, y) != Some(x) {
      var i :| 0 <= i < |ids| && ids[i] == y;
      assert ClonedAt(g, standalone, reset, ids, calls, cells, i);
    }
  }

  /** Clones one run after those in `ids`; not `ok` where `_clone_future` raises. */
  method CloneFuture(g: GraphData, standalone: Func -> bool, reset: set<Id>, run: Run, ids: seq<Id>,
      calls: seq<Call>, cells: seq<Cell>)
    returns (ok: bool, calls': seq<Call>, cells': seq<Cell>)
    requires ClonedSoFar(g, standalone, reset, ids, calls, cells)
    requires RunById(g.runs, run.id) == Some(run) && run.id !in ids
    ensures ok <==> InputsReady(g, ids, run.id) && (run.parent.Some? ==> run.parent.value in ids)
    ensures ok ==> ClonedSoFar(g, standalone, reset, ids + [run.id], calls', cells') && calls <= calls'
  {
    calls', cells' := calls, cells;
    var kwargs := GetFutureInputs(InputEdges(g.edges, run.id), ids);
    if kwargs.None? {
      return false, calls', cells';
    }
    var cell := FRESH_CELL;
    if run.id !in reset {
      cell := cell.(value := RunOutput(g, run.id));
    }
    if run.parent.Some? {
      var q := run.parent.value;
      if q !in ids {
        return false, calls', cells';
      }
      var parent := Position(ids, q);
      cell := cell.(parent := Some(parent));
      var parentRun := RunById(g.runs, q);
      assert ClonedAt(g, standalone, reset, ids, calls, cells, parent);
      if parentRun.value.nested == Some(run.id) {
        cells' := cells'[parent := cells'[parent].(nested := Some(|ids|))];
        if run.id in reset {
          cells' := cells'[parent := cells'[parent].(state := RAN)];
        }
      }
    }
    if run.state == RESOLVED && run.id !in reset {
      cell := cell.(state := RESOLVED);
    }
    calls', cells' := calls + [CloneCall(g, standalone, ids, run)], cells' + [cell];
    NoChildBefore(g, standalone, reset, ids, calls, cells, run.id);
    OwnCell(g, reset, ids, run);
    forall i | 0 <= i < |ids|
      ensures RunById(g.runs, ids[i]).Some?
              && cells'[i] == CloneCell(g, reset, ids + [run.id], RunById(g.runs, ids[i]).value)
    {
      assert ClonedAt(g, standalone, reset, ids, calls, cells, i);
      var other := RunById(g.runs, ids[i]).value;
      OthersUnchanged(g, reset, ids, run, other);
      if run.parent == Some(other.id) {
        assert other.id in ids && ids[i] == ids[Position(ids, other.id)];
      }
    }
    ClonedMore(g, standalone, reset, ids, calls, cells, run, CloneCall(g, standalone, ids, run), cells');
    ok := true;
  }

  // ------------------------------------------------------------ the whole graph

  /** Every run of the list has its parent and its inputs before it. */
  ghost predicate Clonable(g: GraphData, ids: seq<Id>) {
    forall i | 0 <= i < |ids| :: ReadyAt(g, ids, i)
  }

  ghost predicate ReadyAt(g: GraphData, ids: seq<Id>, i: nat)
    requires i < |ids|
  {
    && InputsReady(g, ids[..i], ids[i])
    && (ParentOf(g, ids[i]).Some? ==> ParentOf(g, ids[i]).value in ids[..i])
  }

  /** The futures cloned from `ids`, listed in reverse execution order. */
  ghost predicate IsClone(g: GraphData, standalone: Func -> bool, reset: set<Id>, ids: seq<Id>, s: State) {
    ClonedSoFar(g, standalone, reset, ids, s.calls, s.cells) && s.queue == QueueOf(SortedByLayer(g, true), ids)
  }

  lemma {:induction false} KeptIs(order: seq<Id>, skip: set<Id>)
    ensures forall x :: x in Kept(order, skip) <==> x in order && x !in skip
    ensures NoRepeats(order) ==> NoRepeats(Kept(order, skip))
    decreases |order|
  {
    if order != [] {
      KeptIs(order[..|order| - 1], skip);
      assert order == order[..|order| - 1] + [order[|order| - 1]];
      if NoRepeats(order) {
        assert order[|order| - 1] !in order[..|order| - 1];
      }
    }
  }

  lemma {:induction false} KeptPrefix(order: seq<Id>, skip: set<Id>, k: nat)
    requires k <= |order|
    ensures Kept(order[..k], skip) <= Kept(order, skip)
    decreases |order|
  {
    if k < |order| {
      KeptPrefix(order[..|order| - 1], skip, k);
      assert order[..|order| - 1][..k] == order[..k];
    } else {
      assert order[..k] == order;
    }
  }

  lemma KeptStep(order: seq<Id>, skip: set<Id>, k: nat)
    requires k < |order|
    ensures Kept(order[..k + 1], skip) == Kept(order[..k], skip) + if order[k] in skip then [] else [order[k]]
    ensures Kept(order[..k + 1], skip) <= Kept(order, skip)
  {
    assert order[..k + 1][..k] == order[..k];
    KeptPrefix(order, skip, k + 1);
  }

  lemma {:induction false} OrderHasNoRepeats(g: GraphData, reverse: bool)
    ensures NoRepeats(SortedByLayer(g, reverse))
    ensures forall x | x in SortedByLayer(g, reverse) :: RunById(g.runs, x).Some?
  {
    SearchStaysInside(g, reverse);
    var start, next := Children(g.runs, None), SortedChildren(g, reverse);
    BreadthFirstSearchIsExact(Ids(g), next, start);
    forall x | x in SortedByLayer(g, reverse) ensures RunById(g.runs, x).Some? {
      assert Reachable(Ids(g), next, start, x);
      var d: nat :| x in Within(Ids(g), next, start, d);
      WithinStays(Ids(g), next, start, d);
    }
  }

  /** Which runs the CONTINUE mode resets. */
  function Unfinished(g: GraphData, order: seq<Id>): seq<Id> {
    if order == [] then []
    else
      var x := order[|order| - 1];
      Unfinished(g, order[..|order| - 1]) +
        match RunById(g.runs, x)
        case Some(run) => if run.state in {RESOLVED, RAN, NESTED_FAILED} then [] else [x]
        case None => []
  }

  /** The run was recorded in a state other than those that need no rerun. */
  predicate NeedsRerun(g: GraphData, x: Id) {
    RunById(g.runs, x).Some? && RunById(g.runs, x).value.state !in {RESOLVED, RAN, NESTED_FAILED}
  }

  /** The runs that continuing resets are those among the listed ones. */
  lemma {:induction false} ResetIff(g: GraphData, order: seq<Id>, x: Id)
    ensures x in Unfinished(g, order) <==> x in order && NeedsRerun(g, x)
    decreases |order|
  {
    if order != [] {
      var init, last := order[..|order| - 1], order[|order| - 1];
      ResetIff(g, init, x);
      assert order == init + [last];
      var added := if NeedsRerun(g, last) then [last] else [];
      assert Unfinished(g, order) == Unfinished(g, init) + added;
    }
  }

  /** `clone_futures`. Without a run to reset from, it raises if a run was not listed. */
  method CloneFutures(graph: G.Graph, standalone: Func -> bool,
      resetFrom: Option<Id>) returns (result: CloneResult, skip: seq<Id>, reset: seq<Id>)
    requires graph.Valid() && (resetFrom.Some? ==> resetFrom.value in graph.rel.rank)
    modifies graph
    ensures graph.Valid()
    ensures resetFrom.Some? ==>
              Elements(skip) == graph.rel.skip[resetFrom.value] && G.ResetList(graph.rel, resetFrom.value, reset)
    ensures resetFrom.None? ==> skip == [] && reset == Unfinished(graph.data, SortedByLayer(graph.data, false))
    ensures resetFrom.None? ==>
              forall x :: x in reset <==> x in SortedByLayer(graph.data, false) && NeedsRerun(graph.data, x)
    ensures CloneOf(graph.data, standalone, skip, reset, resetFrom.None?, result)
  {
    if resetFrom.Some? {
      skip, reset := graph.GetSkipResetRunIds(resetFrom.value);
    } else {
      var order := SortedRunIdsByLayer(graph.data, false);
      skip, reset := [], Unfinished(graph.data, order);
      forall x ensures x in reset <==> x in order && NeedsRerun(graph.data, x) {
        ResetIff(graph.data, order, x);
      }
    }
    result := CloneListed(graph.data, standalone, skip, reset, resetFrom.None?);
  }

  /** The result of cloning the runs that are not skipped. */
  ghost predicate CloneOf(g: GraphData, standalone: Func -> bool, skip: seq<Id>, reset: seq<Id>,
      complete: bool, result: CloneResult) {
    var ids := Kept(SortedByLayer(g, false), Elements(skip));
    && (result.Cloned? <==> Clonable(g, ids) && (complete ==> |ids| == |g.runs|))
    && (result.Cloned? ==> result.ids == ids && IsClone(g, standalone, Elements(reset), ids, result.state))
  }

  /** The runs cloned so far are the first ones of `all`. */
  ghost predicate Progress(g: GraphData, standalone: Func -> bool, reset: set<Id>, all: seq<Id>, ids: seq<Id>,
      calls: seq<Call>, cells: seq<Cell>) {
    && ids <= all && ClonedSoFar(g, standalone, reset, ids, calls, cells)
    && forall i | 0 <= i < |ids| :: ReadyAt(g, all, i)
  }

  lemma ProgressMore(g: GraphData, standalone: Func -> bool, reset: set<Id>, all: seq<Id>, ids: seq<Id>,
      calls: seq<Call>, cells: seq<Cell>,
      calls': seq<Call>, cells': seq<Cell>)
    requires Progress(g, standalone, reset, all, ids, calls, cells) && |ids| < |all| && ReadyAt(g, all, |ids|)
    requires ClonedSoFar(g, standalone, reset, ids + [all[|ids|]], calls', cells')
    ensures Progress(g, standalone, reset, all, ids + [all[|ids|]], calls', cells')
  {
    assert ids == all[..|ids|];
    assert ids + [all[|ids|]] == all[..|ids| + 1];
  }

  method CloneNext(g: GraphData, standalone: Func -> bool, reset: set<Id>, ghost all: seq<Id>, x: Id,
      ids: seq<Id>, calls: seq<Call>, cells: seq<Cell>)
    returns (ok: bool, calls': seq<Call>, cells': seq<Cell>)
    requires Progress(g, standalone, reset, all, ids, calls, cells) && |ids| < |all| && all[|ids|] == x
             && NoRepeats(all)
    requires RunById(g.runs, x).Some?
    ensures ok ==> Progress(g, standalone, reset, all, ids + [x], calls', cells')
    ensures !ok ==> !ReadyAt(g, all, |ids|)
  {
    assert all[..|ids|] == ids;
    assert x !in ids;
    ok, calls', cells' := CloneFuture(g, standalone, reset, RunById(g.runs, x).value, ids, calls, cells);
    if ok {
      ProgressMore(g, standalone, reset, all, ids, calls, cells, calls', cells');
    }
  }

  method CloneListed(g: GraphData, standalone: Func -> bool, skip: seq<Id>, reset: seq<Id>,
      complete: bool) returns (result: CloneResult)
    ensures CloneOf(g, standalone, skip, reset, complete, result)
  {
    var order := SortedRunIdsByLayer(g, false);
    OrderHasNoRepeats(g, false);
    ghost var all := Kept(order, Elements(skip));
    KeptIs(order, Elements(skip));
    var ids: seq<Id>, calls: seq<Call>, cells: seq<Cell> := [], [], [];
    for k := 0 to |order|
      invariant ids == Kept(order[..k], Elements(skip))
      invariant Progress(g, standalone, Elements(reset), all, ids, calls, cells)
    {
      KeptStep(order, Elements(skip), k);
      assert order[k] in skip <==> order[k] in Elements(skip);
      if order[k] in skip {
        continue;
      }
      assert order[k] in order && all[|ids|] == (ids + [order[k]])[|ids|];
      var ok;
      ok, calls, cells := CloneNext(g, standalone, Elements(reset), all, order[k], ids, calls, cells);
      if !ok {
        return CloneError;
      }
      ids := ids + [order[k]];
    }
    assert order[..|order|] == order;
    if complete && |ids| != |g.runs| {
      return CloneError;
    }
    var reversed := SortedRunIdsByLayer(g, true);
    result := Cloned(ids, State(calls, cells, QueueOf(reversed, ids)));
  }
}
