/** Termination: a cost read off the recursive evaluation of a call bounds the number of
    actions the runner can take, and decides success or failure. */
module RunnerTermination {
  import opened FutureStates
  import opened Semantics
  import opened RunnerState
  import opened RunnerInvariant
  import opened RunnerTheorems
  import opened RunnerSoundness

  /** What a cost counts: every action but noting arguments, or only the starts of functions. */
  datatype Counted = AllSteps | Starts {
    /** What an action that neither notes arguments nor starts a function counts for. */
    function Other(): nat {
      if AllSteps? then 1 else 0
    }

    function Weight(a: Action): nat {
      match a
      case Prepare(_) => 0
      case Begin(_) => 1
      case _ => Other()
    }

    /** What `k` attempts count for, each of them started and settled. */
    function Attempts(k: nat): nat {
      if AllSteps? then 2 * k else k
    }

    /** What the actions of a run count for. */
    function Count(actions: seq<Action>): nat {
      if actions == [] then 0 else Weight(actions[0]) + Count(actions[1..])
    }
  }

  /** What a call takes from scheduling to its value, explored to depth `n`: its attempts, and if
      the last of them returns a future, the calls of the layer and taking over its value. */
  ghost function CallCost(p: Program, w: Counted, n: nat, f: Func, args: map<string, Value>): nat
    decreases n, 0, 0
  {
    var k := p.FinalAttempt(f, args, 0);
    w.Attempts(k + 1) +
      match p.behave(f, args, k)
      case ReturnedFuture(layer) =>
        w.Other() + if n == 0 then 0 else LayerCost(p, w, n - 1, layer.calls, |layer.calls|)
      case _ => 0
  }

  /** The cost of a call of a list; a call whose inputs fail is never scheduled. */
  ghost function NodeCost(p: Program, w: Counted, n: nat, calls: seq<Call>, i: nat): nat
    requires i < |calls|
    decreases n, 0, 1
  {
    var r := EvalAll(p, n, calls);
    if AllVal(calls[i].kwargs, r) then CallCost(p, w, n, calls[i].func, Bind(calls[i].kwargs, r)) else 0
  }

  ghost function LayerCost(p: Program, w: Counted, n: nat, calls: seq<Call>, k: nat): nat
    requires k <= |calls|
    decreases n, k, 2
  {
    if k == 0 then 0 else LayerCost(p, w, n, calls, k - 1) + NodeCost(p, w, n, calls, k - 1)
  }

  /** What is still ahead of a future. */
  ghost function Remaining(p: Program, w: Counted, n: nat, s: State, i: nat): int
    requires i < |s.cells| == |s.calls|
  {
    var c := s.cells[i];
    match c.state
    case CREATED => NodeCost(p, w, n, s.calls, i)
    case SCHEDULED => CallCost(p, w, n, s.calls[i].func, c.resolvedKwargs) - w.Attempts(c.retryCount) - 1
    case RETRYING => CallCost(p, w, n, s.calls[i].func, c.resolvedKwargs) - w.Attempts(c.retryCount)
    case RAN => w.Other()
    case _ => 0
  }

  ghost function SumRemaining(p: Program, w: Counted, n: nat, s: State, k: nat): int
    requires k <= |s.cells| == |s.calls|
  {
    if k == 0 then 0 else SumRemaining(p, w, n, s, k - 1) + Remaining(p, w, n, s, k - 1)
  }

  ghost function Measure(p: Program, w: Counted, n: nat, s: State): int
    requires |s.cells| == |s.calls|
  {
    SumRemaining(p, w, n, s, |s.cells|)
  }

  /** The recursive unfolding of every call of the pool is finite, of depth at most `n`. */
  ghost predicate Total(p: Program, n: nat, calls: seq<Call>) {
    forall i: nat | i < |calls| :: Eval(p, n, calls, i) != Unknown
  }

  // ---------------------------------------------------------------- sums

  lemma {:induction false} SumAtLeast(p: Program, w: Counted, n: nat, s: State, k: nat)
    requires k <= |s.cells| == |s.calls|
    requires forall j: nat | j < k :: Remaining(p, w, n, s, j) >= 0
    ensures SumRemaining(p, w, n, s, k) >= 0
    decreases k
  {
    if k > 0 {
      SumAtLeast(p, w, n, s, k - 1);
    }
  }

  lemma {:induction false} SumBelow(p: Program, w: Counted, n: nat, s: State, t: State, k: nat)
    requires k <= |s.cells| == |s.calls| && k <= |t.cells| == |t.calls|
    requires forall j: nat | j < k :: Remaining(p, w, n, t, j) <= Remaining(p, w, n, s, j)
    ensures SumRemaining(p, w, n, t, k) <= SumRemaining(p, w, n, s, k)
    decreases k
  {
    if k > 0 {
      SumBelow(p, w, n, s, t, k - 1);
    }
  }

  lemma {:induction false} SumSame(p: Program, w: Counted, n: nat, s: State, t: State, k: nat)
    requires k <= |s.cells| == |s.calls| && k <= |t.cells| == |t.calls|
    requires forall j: nat | j < k :: Remaining(p, w, n, t, j) == Remaining(p, w, n, s, j)
    ensures SumRemaining(p, w, n, t, k) == SumRemaining(p, w, n, s, k)
    decreases k
  {
    if k > 0 {
      SumSame(p, w, n, s, t, k - 1);
    }
  }

  /** Future `i` has `d` less ahead, the others as much as before. */
  lemma {:induction false} SumDrops(p: Program, w: Counted, n: nat, s: State, t: State, i: nat, d: int, k: nat)
    requires i < k <= |s.cells| == |s.calls| && k <= |t.cells| == |t.calls|
    requires forall j: nat | j < k && j != i :: Remaining(p, w, n, t, j) == Remaining(p, w, n, s, j)
    requires Remaining(p, w, n, t, i) + d == Remaining(p, w, n, s, i)
    ensures SumRemaining(p, w, n, t, k) + d == SumRemaining(p, w, n, s, k)
    decreases k
  {
    if k == i + 1 {
      SumSame(p, w, n, s, t, i);
    } else {
      SumDrops(p, w, n, s, t, i, d, k - 1);
    }
  }

  /** Future `i` has at least `d` less ahead, the others no more than before. */
  lemma {:induction false} SumDropsBy(p: Program, w: Counted, n: nat, s: State, t: State, i: nat, d: int, k: nat)
    requires i < k <= |s.cells| == |s.calls| && k <= |t.cells| == |t.calls|
    requires forall j: nat | j < k && j != i :: Remaining(p, w, n, t, j) <= Remaining(p, w, n, s, j)
    requires Remaining(p, w, n, t, i) + d <= Remaining(p, w, n, s, i)
    ensures SumRemaining(p, w, n, t, k) + d <= SumRemaining(p, w, n, s, k)
    decreases k
  {
    if k == i + 1 {
      SumBelow(p, w, n, s, t, i);
    } else {
      SumDropsBy(p, w, n, s, t, i, d, k - 1);
    }
  }

  // ------------------------------------------------- cost does not depend on depth

  lemma {:induction false} NodeCostStable(p: Program, w: Counted, n: nat, calls: seq<Call>, i: nat)
    requires p.Valid() && ValidCalls(calls) && i < |calls|
    requires Eval(p, n, calls, i) != Unknown
    ensures NodeCost(p, w, n + 1, calls, i) == NodeCost(p, w, n, calls, i)
    decreases n, 0, 1
  {
    var r, s := EvalAll(p, n, calls), EvalAll(p, n + 1, calls);
    EvalUnfold(p, n, calls, i);
    forall k | 0 <= k < |calls[i].kwargs|
      ensures Lookup(calls[i].kwargs[k].arg, r) == Lookup(calls[i].kwargs[k].arg, s)
    {
      assert !Lookup(calls[i].kwargs[k].arg, r).Unknown?;
      if calls[i].kwargs[k].arg.Upstream? {
        assert Uses(calls[i], calls[i].kwargs[k].arg.id);
        EvalDeeper(p, n, calls, calls[i].kwargs[k].arg.id);
      }
    }
    assert AgreeOn(calls[i].kwargs, r, s);
    AgreeingArguments(p, n, calls[i], r, s);
    if AllVal(calls[i].kwargs, r) {
      CallCostStable(p, w, n, calls[i].func, Bind(calls[i].kwargs, r));
    }
  }

  lemma {:induction false} CallCostStable(p: Program, w: Counted, n: nat, f: Func, args: map<string, Value>)
    requires p.Valid()
    requires var o := p.FinalOutcome(f, args);
             o.ReturnedFuture? ==> n > 0 && Eval(p, n - 1, o.layer.calls, |o.layer.calls| - 1) != Unknown
    ensures CallCost(p, w, n + 1, f, args) == CallCost(p, w, n, f, args)
    decreases n, 0, 0
  {
    var o := p.FinalOutcome(f, args);
    if o.ReturnedFuture? {
      LayerCostStable(p, w, n - 1, o.layer.calls, |o.layer.calls|);
    }
  }

  lemma {:induction false} LayerCostStable(p: Program, w: Counted, n: nat, calls: seq<Call>, k: nat)
    requires p.Valid() && ValidLayer(calls) && k <= |calls|
    requires Eval(p, n, calls, |calls| - 1) != Unknown
    ensures LayerCost(p, w, n + 1, calls, k) == LayerCost(p, w, n, calls, k)
    decreases n, k, 2
  {
    if k > 0 {
      LayerCostStable(p, w, n, calls, k - 1);
      LayerKnown(p, n, calls, k - 1);
      NodeCostStable(p, w, n, calls, k - 1);
    }
  }

  // ------------------------------------------------------------ finite unfoldings

  /** Where the unfolding is finite to depth `n`, values agree with evaluation to depth `n`. */
  lemma ValuesAtDepth(p: Program, n: nat, s: State)
    requires Sane(p, s) && Total(p, n, s.calls)
    ensures forall j: nat | j < |s.cells| :: ValueAgrees(p, n, s, j)
  {
    var m: nat :| Sound(p, m, s);
    forall j: nat | j < |s.cells| ensures ValueAgrees(p, n, s, j) {
      assert ValueAgrees(p, m, s, j);
      if s.cells[j].value.Some? {
        EvalStable(p, m, if m < n then n else m, s.calls, j);
        EvalStable(p, n, if m < n then n else m, s.calls, j);
      }
    }
  }

  /** A scheduled future's evaluation, explored to the depth that suffices for it. */
  lemma ScheduledEval(p: Program, n: nat, s: State, i: nat)
    requires Sane(p, s) && Total(p, n, s.calls) && i < |s.cells| && Ready(s, i)
    ensures Eval(p, n, s.calls, i) == EvalOne(p, n, s.calls[i], EvalAll(p, n, s.calls))
    ensures var o := p.FinalOutcome(s.calls[i].func, Bind(s.calls[i].kwargs, Known(s)));
            && (o.Raised? ==> Eval(p, n, s.calls, i) == Fails)
            && (o.ReturnedFuture? ==>
                  && n > 0 && o.layer.calls != []
                  && Eval(p, n, s.calls, i) == Eval(p, n - 1, o.layer.calls, |o.layer.calls| - 1) != Unknown)
  {
    ValuesAtDepth(p, n, s);
    ArgumentsEvaluate(p, n, s, i);
    EvalUnfold(p, n, s.calls, i);
  }

  lemma ScheduledCost(p: Program, w: Counted, n: nat, s: State, i: nat)
    requires Sane(p, s) && Total(p, n, s.calls) && i < |s.cells| && Ready(s, i)
    ensures NodeCost(p, w, n, s.calls, i) == CallCost(p, w, n, s.calls[i].func, Bind(s.calls[i].kwargs, Known(s)))
  {
    ValuesAtDepth(p, n, s);
    ArgumentsEvaluate(p, n, s, i);
  }

  lemma SpawnTotal(p: Program, n: nat, calls: seq<Call>, layer: seq<Call>)
    requires ValidCalls(calls) && Total(p, n, calls) && ValidLayer(layer)
    requires n > 0 && Eval(p, n - 1, layer, |layer| - 1) != Unknown
    ensures Total(p, n, calls + ShiftCalls(layer, |calls|))
  {
    var all := calls + ShiftCalls(layer, |calls|);
    forall j: nat | j < |all| ensures Eval(p, n, all, j) != Unknown {
      if j < |calls| {
        EvalExtended(p, n, calls, ShiftCalls(layer, |calls|), j);
      } else {
        SpawnEval(p, n, calls, layer, j - |calls|);
        LayerKnown(p, n - 1, layer, j - |calls|);
        EvalStable(p, n - 1, n, layer, j - |calls|);
      }
    }
  }

  lemma ActionKeepsTotal(p: Program, n: nat, limit: Limit, s: State, a: Action)
    requires p.Valid() && Sane(p, s) && Total(p, n, s.calls) && Enabled(limit, s, a)
    ensures Total(p, n, Apply(p, s, a).calls)
  {
    if a.Settle? && OutcomeOf(p, s, a.i).ReturnedFuture? {
      assert SaneCell(p, s, a.i);
      OutcomeIsFinal(p, s, a.i);
      ScheduledEval(p, n, s, a.i);
      SpawnTotal(p, n, s.calls, OutcomeOf(p, s, a.i).layer.calls);
    }
  }

  // ------------------------------------------------------------ the measure drops

  lemma RemainingNonNegative(p: Program, w: Counted, n: nat, s: State, i: nat)
    requires Sane(p, s) && i < |s.cells|
    ensures Remaining(p, w, n, s, i) >= 0
  {
    assert PastOk(p, s, i);
    var c := s.cells[i];
    if c.state in {SCHEDULED, RETRYING} {
      assert Attempted(p, s, i);
      assert c.retryCount <= p.FinalAttempt(s.calls[i].func, c.resolvedKwargs, 0);
    }
  }

  lemma MeasureNonNegative(p: Program, w: Counted, n: nat, s: State)
    requires Sane(p, s)
    ensures Measure(p, w, n, s) >= 0
  {
    forall j: nat | j < |s.cells| ensures Remaining(p, w, n, s, j) >= 0 {
      RemainingNonNegative(p, w, n, s, j);
    }
    SumAtLeast(p, w, n, s, |s.cells|);
  }

  /** An action that updates one cell and leaves it with `d` less ahead. */
  lemma LocalDrop(p: Program, w: Counted, n: nat, s: State, i: nat, c: Cell, d: int)
    requires i < |s.cells| == |s.calls|
    requires Remaining(p, w, n, SetCell(s, i, c), i) + d == Remaining(p, w, n, s, i)
    ensures Measure(p, w, n, SetCell(s, i, c)) + d == Measure(p, w, n, s)
  {
    SumDrops(p, w, n, s, SetCell(s, i, c), i, d, |s.cells|);
  }

  lemma SweptHasLess(p: Program, w: Counted, n: nat, s: State, i: nat)
    requires Sane(p, s) && i < |s.cells| && s.cells[i].state == SCHEDULED
    ensures Remaining(p, w, n, Sweep(s, i), i) + w.Other() <= Remaining(p, w, n, s, i)
  {
    assert PastOk(p, s, i) && Attempted(p, s, i);
    assert s.cells[i].retryCount <= p.FinalAttempt(s.calls[i].func, s.cells[i].resolvedKwargs, 0);
  }

  lemma SweepDrops(p: Program, w: Counted, n: nat, s: State, i: nat)
    requires Sane(p, s) && i < |s.cells| && s.cells[i].state == SCHEDULED
    ensures Measure(p, w, n, Sweep(s, i)) + w.Other() <= Measure(p, w, n, s)
  {
    SweptHasLess(p, w, n, s, i);
    forall j: nat | j < |s.cells| && j != i ensures Remaining(p, w, n, Sweep(s, i), j) <= Remaining(p, w, n, s, j) {
      RemainingNonNegative(p, w, n, s, j);
    }
    SumDropsBy(p, w, n, s, Sweep(s, i), i, w.Other(), |s.cells|);
  }

  lemma {:induction false} RenamedCost(p: Program, w: Counted, n: nat, a: seq<Call>, b: seq<Call>, rho: seq<nat>,
      i: nat)
    requires ValidCalls(a) && ValidCalls(b) && Renames(a, b, rho) && i < |a|
    ensures NodeCost(p, w, n, a, i) == NodeCost(p, w, n, b, rho[i])
  {
    RenamedLookups(p, n, a, b, rho, i);
    SameCallBinds(a[i], b[rho[i]], rho, EvalAll(p, n, a), EvalAll(p, n, b));
  }

  lemma SpawnCost(p: Program, w: Counted, n: nat, calls: seq<Call>, layer: seq<Call>, all: seq<Call>, j: nat)
    requires ValidCalls(calls) && ValidLayer(layer) && j < |layer|
    requires all == calls + ShiftCalls(layer, |calls|)
    ensures NodeCost(p, w, n, all, |calls| + j) == NodeCost(p, w, n, layer, j)
  {
    SpawnCalls(calls, layer);
    SpawnRenames(calls, layer);
    RenamedCost(p, w, n, layer, all, LayerNames(|calls|, |layer|), j);
  }

  ghost predicate NewLayer(calls: seq<Call>, layer: Layer, t: State) {
    && t.calls == calls + ShiftCalls(layer.calls, |calls|) && |t.cells| == |t.calls|
    && forall j | |calls| <= j < |t.cells| :: t.cells[j].state == CREATED
  }

  lemma NewRemaining(p: Program, w: Counted, n: nat, calls: seq<Call>, layer: Layer, t: State, j: nat)
    requires p.Valid() && ValidCalls(calls) && ValidLayer(layer.calls) && j < |layer.calls|
    requires n > 0 && Eval(p, n - 1, layer.calls, |layer.calls| - 1) != Unknown
    requires NewLayer(calls, layer, t)
    ensures Remaining(p, w, n, t, |calls| + j) == NodeCost(p, w, n - 1, layer.calls, j)
  {
    LayerKnown(p, n - 1, layer.calls, j);
    NodeCostStable(p, w, n - 1, layer.calls, j);
    SpawnCost(p, w, n, calls, layer.calls, t.calls, j);
  }

  /** The futures of a new layer cost what the layer costs. */
  lemma {:induction false} LayerSum(p: Program, w: Counted, n: nat, calls: seq<Call>, layer: Layer, t: State, k: nat)
    requires p.Valid() && ValidCalls(calls) && ValidLayer(layer.calls) && k <= |layer.calls|
    requires n > 0 && Eval(p, n - 1, layer.calls, |layer.calls| - 1) != Unknown
    requires NewLayer(calls, layer, t)
    ensures SumRemaining(p, w, n, t, |calls| + k)
         == SumRemaining(p, w, n, t, |calls|) + LayerCost(p, w, n - 1, layer.calls, k)
    decreases k
  {
    if k > 0 {
      LayerSum(p, w, n, calls, layer, t, k - 1);
      NewRemaining(p, w, n, calls, layer, t, k - 1);
      SumStep(p, w, n, t, |calls| + k);
    }
  }

  lemma SumStep(p: Program, w: Counted, n: nat, s: State, k: nat)
    requires 0 < k <= |s.cells| == |s.calls|
    ensures SumRemaining(p, w, n, s, k) == SumRemaining(p, w, n, s, k - 1) + Remaining(p, w, n, s, k - 1)
  {
  }

  /** Futures that existed before a layer was added have as much ahead as before. */
  lemma OldRemaining(p: Program, w: Counted, n: nat, s: State, t: State, more: seq<Call>, j: nat)
    requires j < |s.cells| == |s.calls| && ValidCalls(s.calls) && |t.cells| == |t.calls|
    requires t.calls == s.calls + more && t.cells[j] == s.cells[j]
    ensures Remaining(p, w, n, t, j) == Remaining(p, w, n, s, j)
  {
    OldNodeCost(p, w, n, s.calls, more, j);
  }

  lemma SpawnCosts(p: Program, w: Counted, n: nat, s: State, i: nat)
    requires p.Valid() && Sane(p, s) && Live(s) && Total(p, n, s.calls)
    requires i < |s.cells| && s.cells[i].state == SCHEDULED
    requires OutcomeOf(p, s, i).ReturnedFuture?
    ensures n > 0 && OutcomeOf(p, s, i).layer.calls != []
    ensures var layer := OutcomeOf(p, s, i).layer;
            && ValidLayer(layer.calls)
            && Eval(p, n - 1, layer.calls, |layer.calls| - 1) != Unknown
            && Remaining(p, w, n, s, i) == LayerCost(p, w, n - 1, layer.calls, |layer.calls|) + 2 * w.Other()
  {
    assert SaneCell(p, s, i);
    OutcomeIsFinal(p, s, i);
    ScheduledEval(p, n, s, i);
  }

  lemma SpawnDrops(p: Program, w: Counted, n: nat, s: State, i: nat, layer: Layer, t: State)
    requires p.Valid() && Sane(p, s) && Live(s) && Total(p, n, s.calls)
    requires i < |s.cells| && s.cells[i].state == SCHEDULED
    requires OutcomeOf(p, s, i) == ReturnedFuture(layer) && NewLayer(s.calls, layer, t)
    requires t.cells[i].state == RAN && forall j | 0 <= j < |s.cells| && j != i :: t.cells[j] == s.cells[j]
    ensures Measure(p, w, n, t) + w.Other() == Measure(p, w, n, s)
  {
    SpawnCosts(p, w, n, s, i);
    CostOfLayerDrops(p, w, n, s, i, layer, t, LayerCost(p, w, n - 1, layer.calls, |layer.calls|));
  }

  lemma CostOfLayerDrops(p: Program, w: Counted, n: nat, s: State, i: nat, layer: Layer, t: State, cost: int)
    requires p.Valid() && |s.cells| == |s.calls| && ValidCalls(s.calls) && i < |s.cells|
    requires ValidLayer(layer.calls) && n > 0 && Eval(p, n - 1, layer.calls, |layer.calls| - 1) != Unknown
    requires cost == LayerCost(p, w, n - 1, layer.calls, |layer.calls|)
    requires Remaining(p, w, n, s, i) == cost + 2 * w.Other()
    requires NewLayer(s.calls, layer, t) && t.cells[i].state == RAN
    requires forall j | 0 <= j < |s.cells| && j != i :: t.cells[j] == s.cells[j]
    ensures Measure(p, w, n, t) + w.Other() == Measure(p, w, n, s)
  {
    assert |t.cells| == |s.cells| + |layer.calls|;
    var old', new' := SumRemaining(p, w, n, t, |s.cells|), SumRemaining(p, w, n, t, |t.cells|);
    assert new' == old' + cost by {
      LayerSum(p, w, n, s.calls, layer, t, |layer.calls|);
    }
    assert old' + cost + w.Other() == SumRemaining(p, w, n, s, |s.cells|) by {
      SpawnDropsOld(p, w, n, s, i, layer, t, cost + w.Other());
    }
  }

  /** The futures that existed before have less ahead by what the new layer costs, and one step. */
  lemma SpawnDropsOld(p: Program, w: Counted, n: nat, s: State, i: nat, layer: Layer, t: State, d: int)
    requires |s.cells| == |s.calls| && ValidCalls(s.calls) && i < |s.cells| && NewLayer(s.calls, layer, t)
    requires t.cells[i].state == RAN && forall j | 0 <= j < |s.cells| && j != i :: t.cells[j] == s.cells[j]
    requires Remaining(p, w, n, s, i) == d + w.Other()
    ensures SumRemaining(p, w, n, t, |s.cells|) + d == SumRemaining(p, w, n, s, |s.cells|)
  {
    forall j: nat | j < |s.cells| && j != i ensures Remaining(p, w, n, t, j) == Remaining(p, w, n, s, j) {
      OldRemaining(p, w, n, s, t, ShiftCalls(layer.calls, |s.calls|), j);
    }
    SumDrops(p, w, n, s, t, i, d, |s.cells|);
  }

  lemma OldNodeCost(p: Program, w: Counted, n: nat, calls: seq<Call>, more: seq<Call>, j: nat)
    requires ValidCalls(calls) && j < |calls|
    ensures NodeCost(p, w, n, calls + more, j) == NodeCost(p, w, n, calls, j)
  {
    var r, s := EvalAll(p, n, calls), EvalAll(p, n, calls + more);
    forall k | 0 <= k < |calls[j].kwargs|
      ensures Lookup(calls[j].kwargs[k].arg, r) == Lookup(calls[j].kwargs[k].arg, s)
    {
      if calls[j].kwargs[k].arg.Upstream? {
        assert Uses(calls[j], calls[j].kwargs[k].arg.id);
        EvalExtended(p, n, calls, more, calls[j].kwargs[k].arg.id);
      }
    }
    assert AgreeOn(calls[j].kwargs, r, s);
    AgreeingArguments(p, n, calls[j], r, s);
  }

  /** Taking in an outcome leaves as much less ahead as it counts for. */
  lemma SettleDrops(p: Program, w: Counted, n: nat, s: State, i: nat)
    requires p.Valid() && Sane(p, s) && Total(p, n, s.calls) && Enabled(Unlimited, s, Settle(i))
    ensures var t := Apply(p, s, Settle(i)); |t.cells| == |t.calls| && Spends(p, w, n, s, t, w.Other())
  {
    var c, t := s.cells[i], Apply(p, s, Settle(i));
    assert SaneCell(p, s, i);
    match OutcomeOf(p, s, i) {
      case Returned(_) =>
        OutcomeIsFinal(p, s, i);
        LocalDrop(p, w, n, s, i, t.cells[i], w.Other());
      case ReturnedFuture(layer) => SpawnDrops(p, w, n, s, i, layer, t);
      case Raised(_, _, _) =>
        if p.Retried(s.calls[i].func, c.resolvedKwargs, c.retryCount) {
          LocalDrop(p, w, n, s, i, t.cells[i], w.Other());
        } else {
          SweepDrops(p, w, n, s, i);
          assert t.cells[i].state == FAILED;
        }
    }
  }

  /** From `s` to `t` what is ahead gets less by exactly `d`, or by more if a failure ended the
      run: then what was left of other branches is never done. */
  ghost predicate Spends(p: Program, w: Counted, n: nat, s: State, t: State, d: nat)
    requires |s.cells| == |s.calls| && |t.cells| == |t.calls|
  {
    && Measure(p, w, n, t) + d <= Measure(p, w, n, s)
    && (Live(t) ==> Measure(p, w, n, t) + d == Measure(p, w, n, s))
  }

  /** Every action leaves as much less ahead as it counts for. */
  lemma MeasureDrops(p: Program, w: Counted, n: nat, limit: Limit, s: State, a: Action)
    requires p.Valid() && Sane(p, s) && Total(p, n, s.calls) && Enabled(limit, s, a)
    ensures var t := Apply(p, s, a); |t.cells| == |t.calls| && Spends(p, w, n, s, t, w.Weight(a))
  {
    var i, t := a.i, Apply(p, s, a);
    assert SaneCell(p, s, i);
    match a {
      case Prepare(_) => LocalDrop(p, w, n, s, i, t.cells[i], 0);
      case Begin(_) =>
        ScheduledCost(p, w, n, s, i);
        LocalDrop(p, w, n, s, i, t.cells[i], 1);
      case Bubble(_) => LocalDrop(p, w, n, s, i, t.cells[i], w.Other());
      case Settle(_) => SettleDrops(p, w, n, s, i);
    }
  }

  /** What a run does and what it leaves ahead are together what was ahead before; where a
      failure ended the run, they are at most that. Noting the concrete arguments of a future
      counts for nothing: every pass of the loop notes them again while the limit keeps it from
      scheduling the future. */
  lemma {:induction false} RunsAreBounded(p: Program, w: Counted, n: nat, limit: Limit, s: State,
      actions: seq<Action>, t: State)
    requires p.Valid() && Sane(p, s) && Total(p, n, s.calls) && RunsTo(p, limit, s, actions, t)
    ensures |t.cells| == |t.calls| && Spends(p, w, n, s, t, w.Count(actions))
    decreases |actions|
  {
    if actions != [] {
      MeasureDrops(p, w, n, limit, s, actions[0]);
      ActionKeepsSane(p, limit, s, actions[0]);
      ActionKeepsTotal(p, n, limit, s, actions[0]);
      RunsAreBounded(p, w, n, limit, Apply(p, s, actions[0]), actions[1..], t);
    }
  }

  // ---------------------------------------------------------------- executions

  function ExecutionsAt(cells: seq<Cell>, i: nat): nat {
    if i < |cells| then cells[i].executions else 0
  }

  /** How often the functions of the first `k` futures were started, all in all. */
  function Executed(cells: seq<Cell>, k: nat): nat {
    if k == 0 then 0 else Executed(cells, k - 1) + ExecutionsAt(cells, k - 1)
  }

  /** Future `i` was started `d` times more, the others as often as before. */
  lemma {:induction false} ExecutedGrows(a: seq<Cell>, b: seq<Cell>, i: nat, d: nat, k: nat)
    requires forall j: nat | j < k && j != i :: ExecutionsAt(b, j) == ExecutionsAt(a, j)
    requires ExecutionsAt(b, i) == ExecutionsAt(a, i) + d
    ensures Executed(b, k) == Executed(a, k) + if i < k then d else 0
    decreases k
  {
    if k > 0 {
      ExecutedGrows(a, b, i, d, k - 1);
    }
  }

  lemma {:induction false} ExecutedBeyond(cells: seq<Cell>, k: nat)
    requires |cells| <= k
    ensures Executed(cells, k) == Executed(cells, |cells|)
    decreases k
  {
    if |cells| < k {
      ExecutedBeyond(cells, k - 1);
    }
  }

  /** Only a future that is scheduled is started, and it is started once. */
  lemma ActionExecutes(p: Program, limit: Limit, s: State, a: Action)
    requires Enabled(limit, s, a)
    ensures var t := Apply(p, s, a);
            Executed(t.cells, |t.cells|) == Executed(s.cells, |s.cells|) + Starts.Weight(a)
  {
    var t := Apply(p, s, a);
    ExecutedGrows(s.cells, t.cells, a.i, Starts.Weight(a), |t.cells|);
    ExecutedBeyond(s.cells, |t.cells|);
  }

  lemma {:induction false} RunExecutes(p: Program, limit: Limit, s: State, actions: seq<Action>, t: State)
    requires RunsTo(p, limit, s, actions, t)
    ensures Executed(t.cells, |t.cells|) == Executed(s.cells, |s.cells|) + Starts.Count(actions)
    decreases |actions|
  {
    if actions != [] {
      ActionExecutes(p, limit, s, actions[0]);
      RunExecutes(p, limit, Apply(p, s, actions[0]), actions[1..], t);
    }
  }

  /** The starts of functions so far and the starts still ahead are together what they were
      before a run; where a failure ended the run, they are at most that. */
  lemma ExecutionsAreBounded(p: Program, n: nat, limit: Limit, s: State, actions: seq<Action>, t: State)
    requires p.Valid() && Sane(p, s) && Total(p, n, s.calls) && RunsTo(p, limit, s, actions, t)
    ensures |t.cells| == |t.calls|
    ensures var ahead, left := Measure(p, Starts, n, s), Measure(p, Starts, n, t);
            && Executed(t.cells, |t.cells|) + left <= Executed(s.cells, |s.cells|) + ahead
            && (Live(t) ==> Executed(t.cells, |t.cells|) + left == Executed(s.cells, |s.cells|) + ahead)
  {
    RunsAreBounded(p, Starts, n, limit, s, actions, t);
    RunExecutes(p, limit, s, actions, t);
  }

  /** When the root is resolved, nothing is ahead. */
  lemma NothingAhead(p: Program, w: Counted, n: nat, s: State)
    requires Inv(p, s) && s.cells[0].state == RESOLVED
    ensures Live(s) && Measure(p, w, n, s) == 0
  {
    forall i: nat | i < |s.cells| ensures s.cells[i].state == RESOLVED {
      AllResolved(p, s, i);
    }
    SumOfNothing(p, w, n, s, |s.cells|);
  }

  lemma {:induction false} AllResolved(p: Program, s: State, i: nat)
    requires Shape(s) && Life(p, s) && s.cells[0].state == RESOLVED && i < |s.cells|
    ensures s.cells[i].state == RESOLVED
    decreases i
  {
    if i > 0 {
      assert HasParent(s, i);
      AllResolved(p, s, s.cells[i].parent.value);
      ResolvedLayer(p, s, i);
    }
  }

  lemma {:induction false} SumOfNothing(p: Program, w: Counted, n: nat, s: State, k: nat)
    requires k <= |s.cells| == |s.calls| && forall i: nat | i < k :: s.cells[i].state == RESOLVED
    ensures SumRemaining(p, w, n, s, k) == 0
    decreases k
  {
    if k > 0 {
      SumOfNothing(p, w, n, s, k - 1);
    }
  }

  /** A run of a root call whose unfolding is finite has no more steps than the call costs. It
      starts functions, all its futures taken together, no more often than the calls of the
      unfolding have attempts. A run that resolves the root has exactly as many of both. */
  lemma RootRunsAreBounded(p: Program, n: nat, limit: Limit, root: Call, actions: seq<Action>, t: State)
    requires p.Valid() && forall k | 0 <= k < |root.kwargs| :: root.kwargs[k].arg.Concrete?
    requires Eval(p, n, [root], 0) != Unknown && RunsTo(p, limit, Initial(root), actions, t)
    ensures Executed(t.cells, |t.cells|) == Starts.Count(actions)
    ensures forall w: Counted :: w.Count(actions) <= CallCost(p, w, n, root.func, Bind(root.kwargs, []))
    ensures |t.cells| > 0 && t.cells[0].state == RESOLVED ==>
              forall w: Counted :: w.Count(actions) == CallCost(p, w, n, root.func, Bind(root.kwargs, []))
  {
    var s := Initial(root);
    InitialInv(p, root);
    InvIsSane(p, s);
    RunKeepsInv(p, limit, s, actions, t);
    RunKeepsSane(p, limit, s, actions, t);
    RunExecutes(p, limit, s, actions, t);
    assert Executed(s.cells, 1) == 0;
    forall w: Counted
      ensures w.Count(actions) <= CallCost(p, w, n, root.func, Bind(root.kwargs, []))
      ensures t.cells[0].state == RESOLVED ==>
                w.Count(actions) == CallCost(p, w, n, root.func, Bind(root.kwargs, []))
    {
      InitialMeasure(p, w, n, root);
      RunsAreBounded(p, w, n, limit, s, actions, t);
      MeasureNonNegative(p, w, n, t);
      if t.cells[0].state == RESOLVED {
        NothingAhead(p, w, n, t);
      }
    }
  }

  lemma InitialMeasure(p: Program, w: Counted, n: nat, root: Call)
    requires forall k | 0 <= k < |root.kwargs| :: root.kwargs[k].arg.Concrete?
    ensures Measure(p, w, n, Initial(root)) == CallCost(p, w, n, root.func, Bind(root.kwargs, []))
  {
    var s := Initial(root);
    var r := EvalAll(p, n, [root]);
    assert AgreeOn(root.kwargs, [], r);
    AgreeingArguments(p, n, root, [], r);
    assert SumRemaining(p, w, n, s, 1) == SumRemaining(p, w, n, s, 0) + Remaining(p, w, n, s, 0);
    assert Remaining(p, w, n, s, 0) == NodeCost(p, w, n, [root], 0);
  }

  // ---------------------------------------------------------------- failure

  /** If a call fails, so does everything that waits for it, up to the root. */
  lemma {:induction false} FailureReachesRoot(p: Program, n: nat, s: State, i: nat)
    requires Shape(s) && Sound(p, n, s) && Total(p, n, s.calls) && i < |s.cells|
    requires Eval(p, n, s.calls, i) == Fails
    ensures Eval(p, n, s.calls, 0) == Fails
    decreases LayerIndex(s, i), |s.cells| - i
  {
    if i > 0 {
      assert HasParent(s, i) && LinkedUp(s, i);
      var q := s.cells[i].parent.value;
      if s.cells[q].nested == Some(i) {
        assert NestedAgrees(p, n, s, q) && Eval(p, n + 1, s.calls, q) == Eval(p, n, s.calls, i);
        EvalDeeper(p, n, s.calls, q);
        assert q > 0 ==> HasParent(s, q);
        FailureReachesRoot(p, n, s, q);
      } else {
        var j :| i < j < |s.calls| && Uses(s.calls[j], i);
        InputMatters(p, n, s.calls, j, i);
        assert SameLayer(s, j);
        FailureReachesRoot(p, n, s, j);
      }
    }
  }

  /** Every call that fails makes the root call fail. */
  ghost predicate Blames(p: Program, n: nat, calls: seq<Call>) {
    calls != [] && forall i: nat | i < |calls| && Eval(p, n, calls, i) == Fails :: Eval(p, n, calls, 0) == Fails
  }

  /** Unfoldings are finite, to depth `n`, and no call fails without the root. */
  ghost predicate Bounded(p: Program, n: nat, calls: seq<Call>) {
    Total(p, n, calls) && Blames(p, n, calls)
  }

  lemma ActionKeepsBounded(p: Program, n: nat, limit: Limit, s: State, a: Action)
    requires p.Valid() && Sane(p, s) && Bounded(p, n, s.calls) && Enabled(limit, s, a)
    ensures Bounded(p, n, Apply(p, s, a).calls)
  {
    ActionKeepsTotal(p, n, limit, s, a);
    ActionKeepsBlames(p, n, limit, s, a);
  }

  lemma {:induction false} RunKeepsBounded(p: Program, n: nat, limit: Limit, s: State, actions: seq<Action>, t: State)
    requires p.Valid() && Sane(p, s) && Bounded(p, n, s.calls) && RunsTo(p, limit, s, actions, t)
    ensures Bounded(p, n, t.calls)
    decreases |actions|
  {
    if actions != [] {
      ActionKeepsSane(p, limit, s, actions[0]);
      ActionKeepsBounded(p, n, limit, s, actions[0]);
      RunKeepsBounded(p, n, limit, Apply(p, s, actions[0]), actions[1..], t);
    }
  }

  /** In a run from scratch, there is a way from every call up to the root. */
  lemma InvBlames(p: Program, n: nat, s: State)
    requires Inv(p, s) && Total(p, n, s.calls)
    ensures Blames(p, n, s.calls)
  {
    var m: nat :| Sound(p, m, s);
    var d := if m < n then n else m;
    forall j: nat | j < |s.calls| ensures Eval(p, d, s.calls, j) == Eval(p, n, s.calls, j) {
      EvalStable(p, n, d, s.calls, j);
    }
    SoundDeeper(p, m, d, s);
    forall i: nat | i < |s.calls| && Eval(p, n, s.calls, i) == Fails ensures Eval(p, n, s.calls, 0) == Fails {
      FailureReachesRoot(p, d, s, i);
    }
  }

  /** A call of a layer that fails makes the layer fail. */
  lemma {:induction false} LayerFails(p: Program, n: nat, layer: seq<Call>, k: nat)
    requires ValidLayer(layer) && k < |layer| && Eval(p, n, layer, |layer| - 1) != Unknown
    requires Eval(p, n, layer, k) == Fails
    ensures Eval(p, n, layer, |layer| - 1) == Fails
    decreases |layer| - k
  {
    if k < |layer| - 1 {
      assert UsedLater(layer, k);
      var j :| k < j < |layer| && Uses(layer[j], k);
      InputMatters(p, n, layer, j, k);
      LayerKnown(p, n, layer, j);
      LayerFails(p, n, layer, j);
    }
  }

  lemma SpawnBlames(p: Program, n: nat, calls: seq<Call>, i: nat, layer: seq<Call>)
    requires ValidCalls(calls) && ValidLayer(layer) && Blames(p, n, calls) && i < |calls| && n > 0
    requires Eval(p, n, calls, i) == Eval(p, n - 1, layer, |layer| - 1) != Unknown
    ensures Blames(p, n, calls + ShiftCalls(layer, |calls|))
  {
    var all := calls + ShiftCalls(layer, |calls|);
    EvalExtended(p, n, calls, ShiftCalls(layer, |calls|), 0);
    forall j: nat | j < |all| && Eval(p, n, all, j) == Fails ensures Eval(p, n, all, 0) == Fails {
      if j < |calls| {
        EvalExtended(p, n, calls, ShiftCalls(layer, |calls|), j);
      } else {
        SpawnEval(p, n, calls, layer, j - |calls|);
        EvalStable(p, n - 1, n, layer, |layer| - 1);
        LayerFails(p, n, layer, j - |calls|);
      }
    }
  }

  /** No action adds a call that can fail without the root failing. */
  lemma ActionKeepsBlames(p: Program, n: nat, limit: Limit, s: State, a: Action)
    requires p.Valid() && Sane(p, s) && Total(p, n, s.calls) && Blames(p, n, s.calls) && Enabled(limit, s, a)
    ensures Blames(p, n, Apply(p, s, a).calls)
  {
    if a.Settle? && OutcomeOf(p, s, a.i).ReturnedFuture? {
      assert SaneCell(p, s, a.i);
      OutcomeIsFinal(p, s, a.i);
      ScheduledEval(p, n, s, a.i);
      SpawnBlames(p, n, s.calls, a.i, OutcomeOf(p, s, a.i).layer.calls);
    }
  }

  /** Where every failing call makes the root fail, a future fails only if the root call does. */
  lemma FailureIsTheRoots(p: Program, n: nat, s: State, i: nat)
    requires Sane(p, s) && Total(p, n, s.calls) && Blames(p, n, s.calls) && i < |s.cells| && s.cells[i].state == FAILED
    ensures Eval(p, n, s.calls, 0) == Fails
  {
    assert PastOk(p, s, i);
    var m: nat :| Eval(p, m, s.calls, i) == Fails;
    EvalStable(p, m, if m < n then n else m, s.calls, i);
    EvalStable(p, n, if m < n then n else m, s.calls, i);
  }

  /** A future fails only if the root call has no value: the failure is the pipeline's own,
      not an accident of scheduling. */
  lemma FailedMeansRootFails(p: Program, n: nat, s: State, i: nat)
    requires Inv(p, s) && Total(p, n, s.calls) && i < |s.cells| && s.cells[i].state == FAILED
    ensures Eval(p, n, s.calls, 0) == Fails
  {
    InvIsSane(p, s);
    InvBlames(p, n, s);
    FailureIsTheRoots(p, n, s, i);
  }
}
