/** Programs whose records show how reruns differ from runs from scratch. */
module RerunExamples {
  import opened FutureStates
  import opened Semantics
  import opened RunnerState
  import opened RunnerInvariant
  import opened RunnerTheorems
  import opened Algorithms
  import opened RunGraph
  import opened LayerOrder
  import opened Records
  import opened RerunFacts
  import opened Clone
  import opened CloneSeed
  import opened CloneContinue
  import opened Rerun
  import opened Recording

  function CallOf(f: Func, name: string, v: Value): Call {
    Call(f, [Kwarg(name, Concrete(v))], false)
  }

  /** A call with the outputs of two futures, which may be the same. */
  function PairOf(f: Func, i: nat, j: nat): Call {
    assert "p"[0] != "q"[0];
    Call(f, [Kwarg("p", Upstream(i)), Kwarg("q", Upstream(j))], false)
  }

  /** The call with argument `root` returns a layer; the one with argument `open` returns one
      call of its own; every other call returns `v`. */
  function Behaviour(layer: Layer, f: Func, v: Value): (Func, map<string, Value>, nat) -> Outcome {
    (_, args: map<string, Value>, _) =>
      if "root" in args then ReturnedFuture(layer)
      else if "open" in args then ReturnedFuture(Layer([CallOf(f, "leaf", v)]))
      else Returned(v)
  }

  function ProgramOf(layer: Layer, f: Func, v: Value): Program {
    Program(Behaviour(layer, f, v), _ => None)
  }

  /** Two calls, and a third that uses both; the first one returns a future in its turn. */
  function OpenLayer(f: Func, v: Value): Layer {
    Layer([CallOf(f, "open", v), CallOf(f, "leaf", v), PairOf(f, 0, 1)])
  }

  /** A call, and a second one that uses it twice. */
  function TwiceLayer(f: Func, v: Value): Layer {
    Layer([CallOf(f, "leaf", v), PairOf(f, 0, 0)])
  }

  lemma NamesDiffer()
    ensures "root" != "open" && "root" != "leaf" && "open" != "leaf"
  {
    assert "root"[0] != "open"[0] && "root"[0] != "leaf"[0] && "open"[0] != "leaf"[0];
  }

  lemma LeafLayer(f: Func, v: Value)
    ensures ValidLayer([CallOf(f, "leaf", v)])
  {
  }

  lemma OpenLayerIsValid(f: Func, v: Value)
    ensures ValidLayer(OpenLayer(f, v).calls)
  {
    var calls := OpenLayer(f, v).calls;
    assert calls[2].kwargs[0].arg == Upstream(0) && calls[2].kwargs[1].arg == Upstream(1);
    assert Uses(calls[2], 0) && Uses(calls[2], 1);
    assert UsedLater(calls, 0) && UsedLater(calls, 1);
  }

  lemma TwiceLayerIsValid(f: Func, v: Value)
    ensures ValidLayer(TwiceLayer(f, v).calls)
  {
    var calls := TwiceLayer(f, v).calls;
    assert calls[1].kwargs[0].arg == Upstream(0);
    assert Uses(calls[1], 0);
    assert UsedLater(calls, 0);
  }

  /** A future whose arguments are concrete runs and returns a layer. */
  lemma {:induction false} Returns(p: Program, s: State, i: nat, layer: Layer) returns (t: State)
    requires |s.cells| == |s.calls| && Live(s) && i < |s.cells|
             && s.cells[i] == FRESH_CELL.(parent := s.cells[i].parent)
    requires |s.calls[i].kwargs| == 1 && s.calls[i].kwargs[0].arg.Concrete? && !s.calls[i].standalone
    requires layer.calls != []
             && p.behave(s.calls[i].func, Bind(s.calls[i].kwargs, Known(s)), 0) == ReturnedFuture(layer)
    ensures RunsTo(p, Unlimited, s, [Prepare(i), Begin(i), Settle(i)], t) && Live(t)
    ensures t.calls == s.calls + ShiftCalls(layer.calls, |s.calls|)
    ensures |t.cells| == |t.calls| && t.cells[i].state == RAN && t.cells[i].parent == s.cells[i].parent
    ensures forall j | 0 <= j < |s.cells| && j != i :: t.cells[j] == s.cells[j]
    ensures forall j | |s.cells| <= j < |t.cells| :: t.cells[j] == FRESH_CELL.(parent := Some(i))
  {
    var a := Apply(p, s, Prepare(i));
    assert Known(a) == Known(s);
    var b := Apply(p, a, Begin(i));
    t := Apply(p, b, Settle(i));
    assert Enabled(Unlimited, s, Prepare(i)) && Enabled(Unlimited, a, Begin(i)) && Enabled(Unlimited, b, Settle(i));
    assert RunsTo(p, Unlimited, t, [], t);
    assert [Settle(i)][1..] == [] && [Begin(i), Settle(i)][1..] == [Settle(i)];
    assert RunsTo(p, Unlimited, b, [Settle(i)], t);
    assert RunsTo(p, Unlimited, a, [Begin(i), Settle(i)], t);
    assert [Prepare(i), Begin(i), Settle(i)][1..] == [Begin(i), Settle(i)];
  }

  /** The root returns a layer, and the first future of the layer one of its own. */
  lemma {:induction false} ReturnsTwice(layer: Layer, f: Func, v: Value)
    returns (p: Program, actions: seq<Action>, s: State)
    requires ValidLayer(layer.calls) && layer.calls[0] == CallOf(f, "open", v)
    ensures p.Valid() && RunsTo(p, Unlimited, Initial(CallOf(f, "root", v)), actions, s) && Inv(p, s)
    ensures s.calls == [CallOf(f, "root", v)] + ShiftCalls(layer.calls, 1)
                       + ShiftCalls([CallOf(f, "leaf", v)], 1 + |layer.calls|)
    ensures s.cells[0].state == RAN && s.cells[0].parent.None?
    ensures s.cells[1].state == RAN && s.cells[1].parent == Some(0)
    ensures forall j | 1 < j < 1 + |layer.calls| :: s.cells[j].parent == Some(0)
    ensures s.cells[1 + |layer.calls|].parent == Some(1)
  {
    var root := CallOf(f, "root", v);
    p := ProgramOf(layer, f, v);
    NamesDiffer();
    LeafLayer(f, v);
    var first, second := [Prepare(0), Begin(0), Settle(0)], [Prepare(1), Begin(1), Settle(1)];
    var u := Returns(p, Initial(root), 0, layer);
    assert u.calls[1] == ShiftCall(CallOf(f, "open", v), 1);
    s := Returns(p, u, 1, Layer([CallOf(f, "leaf", v)]));
    actions := first + second;
    RunsToAppend(p, Unlimited, Initial(root), first, u, second, s);
    InitialInv(p, root);
    RunKeepsInv(p, Unlimited, Initial(root), actions, s);
  }

  // ------------------------------------------------------------ a repeated pair

  /** A pipeline whose record has a pair joined twice: continuing it fails, and a rerun from the
      run that uses the other one twice leaves that very run out. */
  lemma {:induction false} PairCanBeTwice(f: Func, v: Value) returns (p: Program, actions: seq<Action>, s: State)
    ensures p.Valid() && RunsTo(p, Unlimited, Initial(CallOf(f, "root", v)), actions, s)
    ensures Shape(s) && !NoPairTwice(Recorded(s))
    ensures FromRecord(s, Recorded(s), Numbering(s), IdOf(2)) && IdOf(2) !in KeptIds(Recorded(s), Numbering(s), IdOf(2))
  {
    var root := CallOf(f, "root", v);
    p := ProgramOf(TwiceLayer(f, v), f, v);
    NamesDiffer();
    TwiceLayerIsValid(f, v);
    LeafLayer(f, v);
    actions := [Prepare(0), Begin(0), Settle(0)];
    s := Returns(p, Initial(root), 0, TwiceLayer(f, v));
    InitialInv(p, root);
    RunKeepsInv(p, Unlimited, Initial(root), actions, s);
    var kwargs := s.calls[2].kwargs;
    assert s.calls[2] == ShiftCall(PairOf(f, 0, 0), 1);
    assert kwargs[0].arg == Upstream(1) && kwargs[1].arg == Upstream(1);
    UsedTwiceCounts(s, 2, 0, 1);
    RecordCanBeRerunIff(s, 2);
    var g, at := Recorded(s), Numbering(s);
    var r := RootRun(g, s, at);
    RepeatedPairIsDropped(g, at, false, IdOf(1), IdOf(2));
    KeptAreListed(s, g, at, IdOf(2));
  }

  // ---------------------------------------------------- an open run is kept

  /** A pipeline one of whose states cannot be kept: the first future of the layer has run and
      waits for its own nested future when a rerun starts from the second one. */
  lemma {:induction false} RunCanBeOpen(f: Func, v: Value) returns (p: Program, actions: seq<Action>, s: State)
    ensures p.Valid() && RunsTo(p, Unlimited, Initial(CallOf(f, "root", v)), actions, s)
    ensures Shape(s) && Original(s, Recorded(s), Numbering(s), IdOf(2))
    ensures !Keepable(Recorded(s), Numbering(s), IdOf(2))
  {
    OpenLayerIsValid(f, v);
    p, actions, s := ReturnsTwice(OpenLayer(f, v), f, v);
    assert s.calls[1] == ShiftCall(CallOf(f, "open", v), 1);
    CallsOnce(f, v, s);
    RecordCanBeRerunFromAllIff(s);
    OpenRunIsKept(s);
  }

  lemma CallsOnce(f: Func, v: Value, s: State)
    requires s.calls == [CallOf(f, "root", v)] + ShiftCalls(OpenLayer(f, v).calls, 1)
             + ShiftCalls([CallOf(f, "leaf", v)], 4)
    ensures SingleUse(s.calls)
  {
    forall i | 0 <= i < |s.calls| ensures UsesOnce(s.calls[i]) {
      if i == 3 {
        assert s.calls[i] == ShiftCall(PairOf(f, 0, 1), 1);
      } else {
        assert |s.calls[i].kwargs| == 1;
      }
    }
  }

  lemma RecordOf(s: State, i: nat)
    requires Shape(s) && WellFormed(Recorded(s), Numbering(s)) && i < |s.calls|
    ensures RunById(Recorded(s).runs, IdOf(i)) == Some(RunAt(s, i))
    ensures IdOf(i) in Numbering(s) && Numbering(s)[IdOf(i)] == i
  {
    NumberOf(s, i);
    assert Recorded(s).runs[i] == RunAt(s, i);
    RunByIdOf(Recorded(s), Numbering(s), RunAt(s, i));
  }

  /** A run whose arguments are concrete is downstream of nothing. */
  lemma {:induction false} ConcreteNotAffected(s: State, g: GraphData, at: map<Id, nat>, x: Id, r: Id)
    requires FromRecord(s, g, at, r) && x in at && at[x] < |s.calls|
    requires forall k | 0 <= k < |s.calls[at[x]].kwargs| :: s.calls[at[x]].kwargs[k].arg.Concrete?
    ensures !Affected(g, at, r, x)
  {
    if Affected(g, at, r, x) {
      var e :| e in g.edges && e.destination == Some(x) && e.source.Some?;
      EdgeUses(g, s, at, e);
      assert false;
    }
  }

  /** A sibling of the starting point that depends on nothing is neither skipped nor reset. */
  lemma {:induction false} SiblingIsKept(s: State, g: GraphData, at: map<Id, nat>, x: Id, r: Id, root: Id)
    requires FromRecord(s, g, at, r) && x in at && at[x] < |s.calls| && root in at && x != r && x != root
    requires forall k | 0 <= k < |s.calls[at[x]].kwargs| :: s.calls[at[x]].kwargs[k].arg.Concrete?
    requires ParentOf(g, x) == ParentOf(g, r) == Some(root) && ParentOf(g, root).None?
    ensures !Skipped(g, at, r, x) && !Reset(g, at, r, x)
  {
    LineIsKept(g, at, r, r);
    SiblingsSkipped(g, at, r, x, r);
    assert !Above(g, at, x, root);
    ConcreteNotAffected(s, g, at, x, r);
  }

  lemma {:induction false} OpenRunIsKept(s: State)
    requires Shape(s) && |s.calls| == 5 && Original(s, Recorded(s), Numbering(s), IdOf(2))
    requires s.cells[0].parent.None? && s.cells[1].parent == Some(0) && s.cells[2].parent == Some(0)
    requires s.cells[4].parent == Some(1) && s.cells[1].state == RAN
    requires forall k | 0 <= k < |s.calls[1].kwargs| :: s.calls[1].kwargs[k].arg.Concrete?
    ensures !Keepable(Recorded(s), Numbering(s), IdOf(2))
  {
    var g, at := Recorded(s), Numbering(s);
    FirstIsKept(s, g, at);
    RecordOf(s, 1);
    RecordOf(s, 4);
    ChildIs(g, at, Some(IdOf(1)), IdOf(4));
    assert !KeepableRun(g, IdOf(1));
  }

  lemma {:induction false} FirstIsKept(s: State, g: GraphData, at: map<Id, nat>)
    requires Shape(s) && |s.calls| == 5 && g == Recorded(s) && at == Numbering(s) && FromRecord(s, g, at, IdOf(2))
    requires s.cells[0].parent.None? && s.cells[1].parent == Some(0) && s.cells[2].parent == Some(0)
    requires forall k | 0 <= k < |s.calls[1].kwargs| :: s.calls[1].kwargs[k].arg.Concrete?
    ensures IdOf(1) in at && !Skipped(g, at, IdOf(2), IdOf(1)) && !Reset(g, at, IdOf(2), IdOf(1))
  {
    RecordOf(s, 0);
    RecordOf(s, 1);
    RecordOf(s, 2);
    SameId(1, 2);
    SameId(0, 1);
    SiblingIsKept(s, g, at, IdOf(1), IdOf(2), IdOf(0));
  }

  // ------------------------------------------------- continuing starts over

  /** A layer of one call, which returns a call of its own. */
  function ChainLayer(f: Func, v: Value): Layer {
    Layer([CallOf(f, "open", v)])
  }

  lemma {:induction false} ChainRuns(f: Func, v: Value) returns (p: Program, actions: seq<Action>, s: State)
    ensures p.Valid() && RunsTo(p, Unlimited, Initial(CallOf(f, "root", v)), actions, s)
    ensures Inv(p, s) && |s.cells| == 3 && SingleUse(s.calls)
    ensures s.cells[0].state == RAN && s.cells[0].nested == Some(1) && s.cells[1].state == RAN
  {
    p, actions, s := ReturnsTwice(ChainLayer(f, v), f, v);
    assert SingleUse(s.calls);
    OpenChain(p, s);
  }

  /** The result of cloning the record of `s` to continue it, which resets what needs a rerun. */
  ghost predicate ContinueOf(s: State, standalone: Func -> bool, reset: seq<Id>, result: CloneResult) {
    && |s.calls| == |s.cells| && CloneOf(Recorded(s), standalone, [], reset, true, result)
    && forall x :: x in reset <==> x in SortedByLayer(Recorded(s), false) && NeedsRerun(Recorded(s), x)
  }

  /** Continuing a pipeline starts a future over that had run and waits for its nested one, if that
      one waits for a nested one in its turn: the clone has it CREATED and nested, which no run
      from scratch does. */
  lemma {:induction false} ContinueCanStartOver(f: Func, v: Value, standalone: Func -> bool)
    returns (p: Program, actions: seq<Action>, s: State)
    ensures p.Valid() && RunsTo(p, Unlimited, Initial(CallOf(f, "root", v)), actions, s) && Shape(s)
    ensures forall reset, result | ContinueOf(s, standalone, reset, result) :: StartsOver(p, result)
  {
    p, actions, s := ChainRuns(f, v);
    forall reset, result | ContinueOf(s, standalone, reset, result) ensures StartsOver(p, result) {
      ChainStartsOver(p, s, standalone, reset, result);
    }
  }

  lemma {:induction false} ChainStartsOver(p: Program, s: State, standalone: Func -> bool, reset: seq<Id>,
      result: CloneResult)
    requires Inv(p, s) && SingleUse(s.calls) && |s.cells| == 3 && ContinueOf(s, standalone, reset, result)
    requires s.cells[0].state == RAN && s.cells[0].nested == Some(1) && s.cells[1].state == RAN
    ensures StartsOver(p, result)
  {
    ContinuesAll(p, s, standalone, reset, result);
    assert Continued(s, Recorded(s), Numbering(s), result.ids, result.state.cells, IdOf(0));
    CreatedAndNested(p, result.state);
  }

  /** The root of the clone starts over, although it has a nested future. */
  ghost predicate StartsOver(p: Program, result: CloneResult) {
    && result.Cloned? && |result.state.cells| == |result.state.calls| > 0
    && result.state.cells[0].state == CREATED && result.state.cells[0].nested.Some?
    && !Inv(p, Seeded(result.state))
  }

  lemma OpenChain(p: Program, s: State)
    requires Inv(p, s) && |s.cells| > 1 && s.cells[1].parent == Some(0) && s.cells[0].state in {RAN, NESTED_FAILED}
    requires forall i | 1 < i < |s.cells| :: s.cells[i].parent == Some(1)
    ensures s.cells[0].nested == Some(1)
  {
    assert CellOk(p, s, 0) && NestedOk(s, 0);
  }

  /** A future that has not run has no nested future in a run from scratch. */
  lemma CreatedAndNested(p: Program, c: State)
    requires |c.cells| == |c.calls| > 0 && c.cells[0].state == CREATED && c.cells[0].nested.Some?
    ensures !Inv(p, Seeded(c))
  {
    SeededCell(c, 0);
    assert !CellOk(p, Seeded(c), 0);
  }

  /** Continuing clones all futures, the root first. */
  lemma {:induction false} ContinuesAll(p: Program, s: State, standalone: Func -> bool, reset: seq<Id>,
      result: CloneResult)
    requires Inv(p, s) && SingleUse(s.calls) && |s.cells| > 1 && ContinueOf(s, standalone, reset, result)
    ensures result.Cloned? && |result.state.cells| == |result.state.calls| == |result.ids| > 0
    ensures WellFormed(Recorded(s), Numbering(s)) && Position(result.ids, IdOf(0)) == 0
    ensures forall i | i in {0, 1} ::
              && RunById(Recorded(s).runs, IdOf(i)) == Some(RunAt(s, i)) && IdOf(i) in Numbering(s)
              && Continued(s, Recorded(s), Numbering(s), result.ids, result.state.cells, IdOf(i))
  {
    var g, at := Recorded(s), Numbering(s);
    RecordIsFaithful(s);
    RecordsWellFormed(g, s, at);
    RecordHasNoPairTwiceIff(s);
    ContinueClones(s, standalone, reset, result);
    AllCloned(s, g, at, reset, result.ids);
    PositionUnique(result.ids, 0);
    forall i | i in {0, 1}
      ensures RunById(g.runs, IdOf(i)) == Some(RunAt(s, i)) && IdOf(i) in at
      ensures Continued(s, g, at, result.ids, result.state.cells, IdOf(i))
    {
      RecordOf(s, i);
      ContinuedClone(p, s, g, at, standalone, Elements(reset), result.ids, result.state, IdOf(i));
    }
  }

  lemma {:induction false} ContinueClones(s: State, standalone: Func -> bool, reset: seq<Id>, result: CloneResult)
    requires Shape(s) && NoPairTwice(Recorded(s)) && WellFormed(Recorded(s), Numbering(s))
    requires RecordedAs(Recorded(s), s, Numbering(s)) && CloneOf(Recorded(s), standalone, [], reset, true, result)
    ensures var order := SortedByLayer(Recorded(s), false);
            && order != [] && order[0] == IdOf(0) && NoRepeats(order) && result.Cloned? && result.ids == order
            && IsClone(Recorded(s), standalone, Elements(reset), order, result.state)
  {
    var g, at := Recorded(s), Numbering(s);
    var order := SortedByLayer(g, false);
    ContinueSucceedsIff(s, g, at, standalone, reset, result);
    var root := RootRun(g, s, at);
    OrderStarts(g, at, false, root);
    OrderHasNoRepeats(g, false);
    assert Elements<Id>([]) == {};
    NothingSkipped(order);
    NumberedBy(s, root);
  }

  // ------------------------------------------------ continuing what failed

  /** The call with argument `root` returns a layer of one call, which fails. */
  function FailingProgram(f: Func, v: Value): Program {
    Program((_, args: map<string, Value>, _) =>
      if "root" in args then ReturnedFuture(Layer([CallOf(f, "leaf", v)])) else Raised(None, None, false), _ => None)
  }

  /** A future whose arguments are concrete runs and fails for good. */
  lemma {:induction false} Breaks(p: Program, s: State, i: nat) returns (t: State)
    requires |s.cells| == |s.calls| && Live(s) && i < |s.cells|
             && s.cells[i] == FRESH_CELL.(parent := s.cells[i].parent)
    requires |s.calls[i].kwargs| == 1 && s.calls[i].kwargs[0].arg.Concrete? && !s.calls[i].standalone
    requires p.behave(s.calls[i].func, Bind(s.calls[i].kwargs, Known(s)), 0).Raised? && p.retry(s.calls[i].func).None?
    ensures RunsTo(p, Unlimited, s, [Prepare(i), Begin(i), Settle(i)], t)
    ensures t.calls == s.calls && |t.cells| == |s.cells| && t.cells[i].state == FAILED
    ensures forall j | 0 <= j < |s.cells| && j != i ::
              t.cells[j] == if j in CallChain(s.cells, i) then s.cells[j].(state := NESTED_FAILED) else s.cells[j]
  {
    var a := Apply(p, s, Prepare(i));
    assert Known(a) == Known(s);
    var b := Apply(p, a, Begin(i));
    t := Apply(p, b, Settle(i));
    SameChain(s.cells, b.cells, i);
    assert Enabled(Unlimited, s, Prepare(i)) && Enabled(Unlimited, a, Begin(i)) && Enabled(Unlimited, b, Settle(i));
    assert RunsTo(p, Unlimited, t, [], t);
    assert [Settle(i)][1..] == [] && [Begin(i), Settle(i)][1..] == [Settle(i)];
    assert RunsTo(p, Unlimited, b, [Settle(i)], t);
    assert RunsTo(p, Unlimited, a, [Begin(i), Settle(i)], t);
    assert [Prepare(i), Begin(i), Settle(i)][1..] == [Begin(i), Settle(i)];
  }

  lemma {:induction false} SameChain(a: seq<Cell>, b: seq<Cell>, i: nat)
    requires |a| == |b| && forall j | 0 <= j < |a| :: a[j].parent == b[j].parent
    ensures CallChain(a, i) == CallChain(b, i)
    decreases i
  {
    if i < |a| && a[i].parent.Some? && a[i].parent.value < i {
      SameChain(a, b, a[i].parent.value);
    }
  }

  lemma {:induction false} FailingRuns(f: Func, v: Value) returns (p: Program, actions: seq<Action>, s: State)
    ensures p.Valid() && RunsTo(p, Unlimited, Initial(CallOf(f, "root", v)), actions, s)
    ensures Inv(p, s) && |s.cells| == 2 && SingleUse(s.calls)
    ensures s.cells[0].state == NESTED_FAILED && s.cells[0].nested == Some(1) && s.cells[1].state == FAILED
  {
    var root := CallOf(f, "root", v);
    p := FailingProgram(f, v);
    NamesDiffer();
    LeafLayer(f, v);
    var first, second := [Prepare(0), Begin(0), Settle(0)], [Prepare(1), Begin(1), Settle(1)];
    var u := Returns(p, Initial(root), 0, Layer([CallOf(f, "leaf", v)]));
    assert u.calls[1] == ShiftCall(CallOf(f, "leaf", v), 1);
    s := Breaks(p, u, 1);
    assert CallChain(u.cells, 1) == [1] + CallChain(u.cells, 0);
    actions := first + second;
    RunsToAppend(p, Unlimited, Initial(root), first, u, second, s);
    InitialInv(p, root);
    RunKeepsInv(p, Unlimited, Initial(root), actions, s);
    OpenChain(p, s);
  }

  /** Continuing a pipeline whose root failed with its nested future runs that one again, and the
      root waits for it. */
  lemma {:induction false} FailedIsContinued(f: Func, v: Value, standalone: Func -> bool)
    returns (p: Program, actions: seq<Action>, s: State)
    ensures p.Valid() && RunsTo(p, Unlimited, Initial(CallOf(f, "root", v)), actions, s) && Shape(s)
    ensures |s.cells| == 2 && s.cells[0].state == NESTED_FAILED && s.cells[1].state == FAILED
    ensures forall reset, result | ContinueOf(s, standalone, reset, result) :: GoesOnWaiting(result)
  {
    p, actions, s := FailingRuns(f, v);
    forall reset, result | ContinueOf(s, standalone, reset, result) ensures GoesOnWaiting(result) {
      FailedGoesOn(p, s, standalone, reset, result);
    }
  }

  lemma {:induction false} FailedGoesOn(p: Program, s: State, standalone: Func -> bool, reset: seq<Id>,
      result: CloneResult)
    requires Inv(p, s) && SingleUse(s.calls) && |s.cells| == 2 && ContinueOf(s, standalone, reset, result)
    requires s.cells[0].state == NESTED_FAILED && s.cells[0].nested == Some(1) && s.cells[1].state == FAILED
    ensures GoesOnWaiting(result)
  {
    ContinuesAll(p, s, standalone, reset, result);
    assert CellOk(p, s, 1);
    assert Continued(s, Recorded(s), Numbering(s), result.ids, result.state.cells, IdOf(1));
    assert Continued(s, Recorded(s), Numbering(s), result.ids, result.state.cells, IdOf(0));
  }

  /** The root of the clone has run and waits for its nested future, which starts over. */
  ghost predicate GoesOnWaiting(result: CloneResult) {
    && result.Cloned? && result.state.cells != [] && result.state.cells[0].state == RAN
    && result.state.cells[0].nested.Some? && result.state.cells[0].nested.value < |result.state.cells|
    && result.state.cells[result.state.cells[0].nested.value].state == CREATED
  }
}
