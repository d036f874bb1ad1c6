/** What every reachable runner state satisfies: the structure of layers, the life of each
    future, and agreement with the recursive evaluator. */
module RunnerInvariant {
  import opened FutureStates
  import opened Semantics
  import opened RunnerState

  // ---------------------------------------------------------------- definitions

  ghost predicate NoDuplicates(queue: seq<nat>) {
    forall k, l | 0 <= k < l < |queue| :: queue[k] != queue[l]
  }

  /** Every non-root future has an earlier parent, whose function returned this layer. */
  ghost predicate HasParent(s: State, i: nat)
    requires i < |s.cells|
  {
    && s.cells[i].parent.Some?
    && s.cells[i].parent.value < i
    && s.cells[s.cells[i].parent.value].nested.Some?
  }

  /** A non-root future is its parent's nested future or an input of another future. */
  ghost predicate LinkedUp(s: State, i: nat)
    requires i < |s.cells| && HasParent(s, i)
  {
    s.cells[s.cells[i].parent.value].nested == Some(i) || UsedLater(s.calls, i)
  }

  ghost predicate NestedOk(s: State, i: nat)
    requires i < |s.cells|
  {
    s.cells[i].nested.Some? ==>
      && i < s.cells[i].nested.value < |s.cells|
      && s.cells[s.cells[i].nested.value].parent == Some(i)
  }

  /** All inputs of a future have the future's own parent. */
  ghost predicate SameLayer(s: State, i: nat)
    requires i < |s.cells| == |s.calls|
  {
    forall j: nat | j < |s.cells| && Uses(s.calls[i], j) :: s.cells[j].parent == s.cells[i].parent
  }

  ghost predicate Shape(s: State) {
    && |s.cells| == |s.calls| > 0
    && ValidCalls(s.calls)
    && NoDuplicates(s.queue) && s.queue != [] && s.queue[0] == 0
    && (forall i: nat :: i in s.queue <==> i < |s.calls|)
    && s.cells[0].parent.None?
    && (forall i: nat | 0 < i < |s.cells| :: HasParent(s, i))
    && (forall i: nat | 0 < i < |s.cells| :: LinkedUp(s, i))
    && (forall i: nat | i < |s.cells| :: NestedOk(s, i))
    && (forall i: nat | i < |s.cells| :: SameLayer(s, i))
  }

  /** Every attempt so far was retried. */
  ghost predicate Attempted(p: Program, s: State, i: nat)
    requires i < |s.cells| == |s.calls|
  {
    forall k: nat | k < s.cells[i].retryCount :: p.Retried(s.calls[i].func, s.cells[i].resolvedKwargs, k)
  }

  /** A future that was started: with its arguments, and every attempt so far retried. */
  ghost predicate Started(p: Program, s: State, i: nat)
    requires i < |s.cells| == |s.calls|
  {
    && Ready(s, i) && s.cells[i].resolvedKwargs == Bind(s.calls[i].kwargs, Known(s))
    && Attempted(p, s, i)
  }

  /** What the state of a future says about its other fields. */
  ghost predicate CellOk(p: Program, s: State, i: nat)
    requires i < |s.cells| == |s.calls|
  {
    var c := s.cells[i];
    && (c.state == CREATED ==> c.nested.None? && c.retryCount == 0 && c.executions == 0)
    && (c.state != CREATED ==> Ready(s, i) && c.resolvedKwargs == Bind(s.calls[i].kwargs, Known(s)))
    && (c.state in {SCHEDULED, RETRYING, FAILED} ==> c.nested.None? && Attempted(p, s, i))
    && (c.state == FAILED ==> !p.Retried(s.calls[i].func, c.resolvedKwargs, c.retryCount) && OutcomeOf(p, s, i).Raised?)
    && (c.state in {RAN, NESTED_FAILED} ==> c.nested.Some?)
    && (c.state == RESOLVED <==> c.value.Some?)
    && (c.state == RESOLVED && c.nested.Some? && c.nested.value < |s.cells| ==>
         s.cells[c.nested.value].value == c.value)
    && c.retryCount <= p.Retries(s.calls[i].func)
    && c.executions <= c.retryCount + (if c.state in {CREATED, RETRYING} then 0 else 1)
    && c.state != CANCELED
  }

  ghost predicate Life(p: Program, s: State)
    requires |s.cells| == |s.calls|
  {
    forall i: nat | i < |s.cells| :: CellOk(p, s, i)
  }

  /** A future and its nested future have the same result from depth `n` on. */
  ghost predicate NestedAgrees(p: Program, n: nat, s: State, i: nat)
    requires i < |s.cells| == |s.calls|
  {
    s.cells[i].nested.Some? && s.cells[i].nested.value < |s.calls| ==>
      forall m: nat | n <= m :: Eval(p, m + 1, s.calls, i) == Eval(p, m, s.calls, s.cells[i].nested.value)
  }

  ghost predicate ValueAgrees(p: Program, n: nat, s: State, i: nat)
    requires i < |s.cells| == |s.calls|
  {
    s.cells[i].value.Some? ==> Eval(p, n, s.calls, i) == Val(s.cells[i].value.value)
  }

  /** Every value, and every link to a nested future, is what evaluation to depth `n` says. */
  ghost predicate Sound(p: Program, n: nat, s: State)
    requires |s.cells| == |s.calls|
  {
    forall i: nat | i < |s.cells| :: NestedAgrees(p, n, s, i) && ValueAgrees(p, n, s, i)
  }

  ghost predicate Inv(p: Program, s: State) {
    Shape(s) && Life(p, s) && exists n: nat :: Sound(p, n, s)
  }

  // ------------------------------------------------------------- consequences

  /** A future whose inputs are ready has inputs that are resolved. */
  lemma ReadyInput(s: State, i: nat, j: nat)
    requires i < |s.calls| == |s.cells| && Ready(s, i) && Uses(s.calls[i], j)
    ensures j < |s.cells| && s.cells[j].state == RESOLVED && s.cells[j].value.Some?
  {
    var k :| 0 <= k < |s.calls[i].kwargs| && s.calls[i].kwargs[k].arg == Upstream(j);
    assert Lookup(s.calls[i].kwargs[k].arg, Known(s)).Val?;
  }

  /** If a parent is resolved, so is its whole layer. */
  lemma {:induction false} ResolvedLayer(p: Program, s: State, i: nat)
    requires Shape(s) && Life(p, s)
    requires 0 < i < |s.cells| && HasParent(s, i) && s.cells[s.cells[i].parent.value].state == RESOLVED
    ensures s.cells[i].state == RESOLVED
    decreases |s.cells| - i
  {
    assert HasParent(s, i) && LinkedUp(s, i);
    var q := s.cells[i].parent.value;
    assert CellOk(p, s, q) && CellOk(p, s, i);
    if s.cells[q].nested != Some(i) {
      var j :| i < j < |s.calls| && Uses(s.calls[j], i);
      assert SameLayer(s, j);
      ResolvedLayer(p, s, j);
      assert CellOk(p, s, j);
      ReadyInput(s, j, i);
    }
  }

  /** The arguments of a started future evaluate to what the runner passes to it. */
  lemma ArgumentsEvaluate(p: Program, n: nat, s: State, i: nat)
    requires |s.cells| == |s.calls| && forall j: nat | j < |s.cells| :: ValueAgrees(p, n, s, j)
    requires i < |s.cells| && Ready(s, i)
    ensures AllVal(s.calls[i].kwargs, EvalAll(p, n, s.calls)) && !AnyUnknown(s.calls[i].kwargs, EvalAll(p, n, s.calls))
    ensures Bind(s.calls[i].kwargs, EvalAll(p, n, s.calls)) == Bind(s.calls[i].kwargs, Known(s))
  {
    var r := EvalAll(p, n, s.calls);
    forall k | 0 <= k < |s.calls[i].kwargs|
      ensures Lookup(s.calls[i].kwargs[k].arg, Known(s)) == Lookup(s.calls[i].kwargs[k].arg, r)
    {
      if s.calls[i].kwargs[k].arg.Upstream? {
        var j := s.calls[i].kwargs[k].arg.id;
        assert Uses(s.calls[i], j);
        ReadyInput(s, i, j);
        assert ValueAgrees(p, n, s, j);
      }
    }
    assert AgreeOn(s.calls[i].kwargs, Known(s), r);
    AgreeingArguments(p, n, s.calls[i], Known(s), r);
  }

  /** Evaluation of a future whose inputs are ready, in terms of its function's final outcome. */
  lemma ReadyEval(p: Program, n: nat, s: State, i: nat)
    requires |s.cells| == |s.calls| && ValidCalls(s.calls) && Sound(p, n, s)
    requires i < |s.cells| && Ready(s, i)
    ensures var o := p.FinalOutcome(s.calls[i].func, Bind(s.calls[i].kwargs, Known(s)));
            Eval(p, n, s.calls, i) ==
              match o
              case Returned(v) => Val(v)
              case Raised(_, _, _) => Fails
              case ReturnedFuture(layer) =>
                if n == 0 || layer.calls == [] then Unknown else Eval(p, n - 1, layer.calls, |layer.calls| - 1)
  {
    ArgumentsEvaluate(p, n, s, i);
    EvalUnfold(p, n, s.calls, i);
  }

  lemma SoundDeeper(p: Program, n: nat, m: nat, s: State)
    requires |s.cells| == |s.calls| && Sound(p, n, s) && n <= m
    ensures Sound(p, m, s)
  {
    forall i: nat | i < |s.cells| ensures NestedAgrees(p, m, s, i) && ValueAgrees(p, m, s, i) {
      assert NestedAgrees(p, n, s, i) && ValueAgrees(p, n, s, i);
      if s.cells[i].value.Some? {
        EvalStable(p, n, m, s.calls, i);
      }
    }
  }

  /** The outcome the runner sees is the evaluator's final one, unless it is retried. */
  lemma OutcomeIsFinal(p: Program, s: State, i: nat)
    requires i < |s.cells| == |s.calls| && Started(p, s, i)
    requires !p.Retried(s.calls[i].func, s.cells[i].resolvedKwargs, s.cells[i].retryCount)
    ensures OutcomeOf(p, s, i) == p.FinalOutcome(s.calls[i].func, Bind(s.calls[i].kwargs, Known(s)))
    ensures p.FinalAttempt(s.calls[i].func, s.cells[i].resolvedKwargs, 0) == s.cells[i].retryCount
  {
    var f, args := s.calls[i].func, s.cells[i].resolvedKwargs;
    var l := p.FinalAttempt(f, args, 0);
    assert Attempted(p, s, i);
  }

  // ------------------------------------------------------ single-cell updates

  /** The update of one cell that keeps its place in the tree and does not touch values
      other futures may have read. */
  ghost predicate LocalUpdate(s: State, i: nat, c: Cell) {
    && i < |s.cells| == |s.calls|
    && c.parent == s.cells[i].parent && c.nested == s.cells[i].nested
    && s.cells[i].state != RESOLVED
  }

  lemma UpdateShape(s: State, i: nat, c: Cell)
    requires Shape(s) && LocalUpdate(s, i, c)
    ensures Shape(SetCell(s, i, c))
  {
    var t := SetCell(s, i, c);
    forall j: nat | 0 < j < |t.cells| ensures HasParent(t, j) && LinkedUp(t, j) {
      assert HasParent(s, j) && LinkedUp(s, j);
    }
    forall j: nat | j < |t.cells| ensures NestedOk(t, j) && SameLayer(t, j) {
      assert NestedOk(s, j) && SameLayer(s, j);
    }
  }

  /** What was known stays known. */
  lemma {:induction false} UpdateKnown(s: State, i: nat, c: Cell, j: nat)
    requires LocalUpdate(s, i, c) && j < |s.calls| && Ready(s, j)
    ensures Ready(SetCell(s, i, c), j)
    ensures Bind(s.calls[j].kwargs, Known(SetCell(s, i, c))) == Bind(s.calls[j].kwargs, Known(s))
  {
    var t := SetCell(s, i, c);
    forall k | 0 <= k < |s.calls[j].kwargs|
      ensures Lookup(s.calls[j].kwargs[k].arg, Known(t)) == Lookup(s.calls[j].kwargs[k].arg, Known(s))
    {
      assert Lookup(s.calls[j].kwargs[k].arg, Known(s)).Val?;
    }
    assert AgreeOn(s.calls[j].kwargs, Known(t), Known(s));
  }

  lemma UpdateLife(p: Program, s: State, i: nat, c: Cell)
    requires Shape(s) && Life(p, s) && LocalUpdate(s, i, c)
    requires CellOk(p, SetCell(s, i, c), i)
    ensures Life(p, SetCell(s, i, c))
  {
    var t := SetCell(s, i, c);
    assert CellOk(p, s, i);
    forall j: nat | j < |t.cells| ensures CellOk(p, t, j) {
      if j != i {
        assert CellOk(p, s, j) && NestedOk(s, j);
        if s.cells[j].state != CREATED {
          UpdateKnown(s, i, c, j);
        }
      }
    }
  }

  lemma UpdateSound(p: Program, n: nat, s: State, i: nat, c: Cell)
    requires |s.cells| == |s.calls| && Sound(p, n, s) && LocalUpdate(s, i, c)
    requires c.value.Some? ==> Eval(p, n, s.calls, i) == Val(c.value.value)
    ensures Sound(p, n, SetCell(s, i, c))
  {
    var t := SetCell(s, i, c);
    forall j: nat | j < |t.cells| ensures NestedAgrees(p, n, t, j) && ValueAgrees(p, n, t, j) {
      assert NestedAgrees(p, n, s, j) && ValueAgrees(p, n, s, j);
    }
  }

  // -------------------------------------------------------------- each action

  lemma PrepareKeepsInv(p: Program, n: nat, s: State, i: nat)
    requires Shape(s) && Life(p, s) && Sound(p, n, s) && Enabled(Unlimited, s, Prepare(i))
    ensures var t := Apply(p, s, Prepare(i)); Shape(t) && Life(p, t) && Sound(p, n, t)
  {
    var c := s.cells[i].(resolvedKwargs := Bind(s.calls[i].kwargs, Known(s)));
    assert CellOk(p, s, i) && ValueAgrees(p, n, s, i);
    UpdateShape(s, i, c);
    UpdateLife(p, s, i, c);
    UpdateSound(p, n, s, i, c);
  }

  lemma BeginKeepsInv(p: Program, n: nat, s: State, i: nat)
    requires Shape(s) && Life(p, s) && Sound(p, n, s) && Enabled(Unlimited, s, Begin(i))
    ensures var t := Apply(p, s, Begin(i)); Shape(t) && Life(p, t) && Sound(p, n, t)
  {
    var c := s.cells[i].(state := SCHEDULED, executions := s.cells[i].executions + 1);
    assert CellOk(p, s, i) && ValueAgrees(p, n, s, i);
    UpdateKnown(s, i, c, i);
    UpdateShape(s, i, c);
    UpdateLife(p, s, i, c);
    UpdateSound(p, n, s, i, c);
  }

  lemma BubbleKeepsInv(p: Program, n: nat, s: State, i: nat)
    requires Shape(s) && Life(p, s) && Sound(p, n, s) && Enabled(Unlimited, s, Bubble(i))
    ensures var t := Apply(p, s, Bubble(i)); Shape(t) && Life(p, t) && Sound(p, n + 1, t)
  {
    var m := s.cells[i].nested.value;
    var c := s.cells[i].(value := s.cells[m].value, state := RESOLVED);
    assert CellOk(p, s, i) && CellOk(p, s, m) && NestedOk(s, i);
    UpdateKnown(s, i, c, i);
    UpdateShape(s, i, c);
    UpdateLife(p, s, i, c);
    assert NestedAgrees(p, n, s, i) && ValueAgrees(p, n, s, m);
    SoundDeeper(p, n, n + 1, s);
    UpdateSound(p, n + 1, s, i, c);
  }

  lemma ResolveKeepsInv(p: Program, n: nat, s: State, i: nat)
    requires Shape(s) && Life(p, s) && Sound(p, n, s) && Enabled(Unlimited, s, Settle(i))
    requires OutcomeOf(p, s, i).Returned?
    ensures var t := Apply(p, s, Settle(i)); Shape(t) && Life(p, t) && Sound(p, n, t)
  {
    var c := s.cells[i].(value := Some(OutcomeOf(p, s, i).value), state := RESOLVED);
    assert CellOk(p, s, i);
    UpdateKnown(s, i, c, i);
    UpdateShape(s, i, c);
    UpdateLife(p, s, i, c);
    OutcomeIsFinal(p, s, i);
    ReadyEval(p, n, s, i);
    UpdateSound(p, n, s, i, c);
  }

  lemma RetryKeepsInv(p: Program, n: nat, s: State, i: nat)
    requires Shape(s) && Life(p, s) && Sound(p, n, s) && Enabled(Unlimited, s, Settle(i))
    requires OutcomeOf(p, s, i).Raised? && p.Retried(s.calls[i].func, s.cells[i].resolvedKwargs, s.cells[i].retryCount)
    ensures var t := Apply(p, s, Settle(i)); Shape(t) && Life(p, t) && Sound(p, n, t)
  {
    var c := s.cells[i].(state := RETRYING, retryCount := s.cells[i].retryCount + 1);
    assert CellOk(p, s, i) && ValueAgrees(p, n, s, i);
    UpdateKnown(s, i, c, i);
    UpdateShape(s, i, c);
    UpdateLife(p, s, i, c);
    UpdateSound(p, n, s, i, c);
  }

  // ------------------------------------------------------------ a nested layer

  /** Everything a future newly listed depends on is listed with it. */
  ghost predicate ClosedBeyond(calls: seq<Call>, old_: seq<nat>, queue: seq<nat>) {
    forall x: nat, y: nat | x in queue && x !in old_ && x < |calls| && Uses(calls[x], y) :: y in queue
  }

  lemma {:induction false} EnqueueLists(calls: seq<Call>, queue: seq<nat>, i: nat, base: nat)
    requires ValidCalls(calls) && base <= i < |calls| && NoDuplicates(queue)
    requires forall x: nat, y: nat | base <= x < |calls| && Uses(calls[x], y) :: base <= y
    ensures var r := Enqueue(calls, queue, i);
            && i in r && queue <= r && NoDuplicates(r) && ClosedBeyond(calls, queue, r)
            && forall x | x in r && x !in queue :: base <= x < |calls|
    decreases i, 1, 0
  {
    if i !in queue {
      EnqueueArgsLists(calls, queue + [i], i, |calls[i].kwargs|, base);
      var r := Enqueue(calls, queue, i);
      assert r == EnqueueArgs(calls, queue + [i], i, |calls[i].kwargs|);
      assert queue <= queue + [i] <= r;
      assert (queue + [i])[|queue|] == i;
    }
  }

  lemma {:induction false} EnqueueArgsLists(calls: seq<Call>, queue: seq<nat>, i: nat, k: nat, base: nat)
    requires ValidCalls(calls) && base <= i < |calls| && k <= |calls[i].kwargs| && NoDuplicates(queue)
    requires forall x: nat, y: nat | base <= x < |calls| && Uses(calls[x], y) :: base <= y
    ensures var r := EnqueueArgs(calls, queue, i, k);
            && queue <= r && NoDuplicates(r) && ClosedBeyond(calls, queue, r)
            && (forall x | x in r && x !in queue :: base <= x < |calls|)
            && forall l | 0 <= l < k && calls[i].kwargs[l].arg.Upstream? :: calls[i].kwargs[l].arg.id in r
    decreases i, 0, k
  {
    if k > 0 {
      EnqueueArgsLists(calls, queue, i, k - 1, base);
      var before := EnqueueArgs(calls, queue, i, k - 1);
      if calls[i].kwargs[k - 1].arg.Upstream? {
        var j := calls[i].kwargs[k - 1].arg.id;
        assert Uses(calls[i], j);
        EnqueueLists(calls, before, j, base);
        var r := Enqueue(calls, before, j);
        assert r == EnqueueArgs(calls, queue, i, k);
        forall x: nat, y: nat | x in r && x !in queue && x < |calls| && Uses(calls[x], y) ensures y in r {
          assert x in before ==> y in before;
        }
      }
    }
  }

  /** Enqueuing the last future of a fresh layer lists exactly that layer. */
  lemma EnqueueLayer(calls: seq<Call>, queue: seq<nat>, base: nat)
    requires ValidCalls(calls) && base < |calls| && NoDuplicates(queue) && forall x: nat | x in queue :: x < base
    requires forall x: nat, y: nat | base <= x < |calls| && Uses(calls[x], y) :: base <= y
    requires forall x: nat | base <= x < |calls| - 1 :: UsedLater(calls, x)
    ensures var r := Enqueue(calls, queue, |calls| - 1);
            queue <= r && NoDuplicates(r) && forall x: nat :: x in r <==> x in queue || base <= x < |calls|
  {
    EnqueueLists(calls, queue, |calls| - 1, base);
    var r := Enqueue(calls, queue, |calls| - 1);
    forall x: nat | base <= x < |calls| ensures x in r {
      LayerListed(calls, queue, base, x);
    }
  }

  lemma {:induction false} LayerListed(calls: seq<Call>, queue: seq<nat>, base: nat, x: nat)
    requires base <= x < |calls| && ClosedBeyond(calls, queue, Enqueue(calls, queue, |calls| - 1))
    requires |calls| - 1 in Enqueue(calls, queue, |calls| - 1)
    requires forall x: nat | x in queue :: x < base
    requires forall x: nat | base <= x < |calls| - 1 :: UsedLater(calls, x)
    ensures x in Enqueue(calls, queue, |calls| - 1)
    decreases |calls| - x
  {
    if x < |calls| - 1 {
      assert UsedLater(calls, x);
      var y: nat :| x < y < |calls| && Uses(calls[y], x);
      LayerListed(calls, queue, base, y);
    }
  }

  lemma ShiftUses(layer: seq<Call>, base: nat, i: nat, j: nat)
    requires i < |layer|
    ensures Uses(ShiftCalls(layer, base)[i], j) <==> (base <= j && Uses(layer[i], j - base))
  {
    var a, b := layer[i], ShiftCalls(layer, base)[i];
    assert forall k | 0 <= k < |a.kwargs| :: b.kwargs[k].arg == ShiftArg(a.kwargs[k].arg, base);
    if base <= j && Uses(a, j - base) {
      var k :| 0 <= k < |a.kwargs| && a.kwargs[k].arg == Upstream(j - base);
      assert b.kwargs[k].arg == Upstream(j);
    }
    if Uses(b, j) {
      var k :| 0 <= k < |b.kwargs| && b.kwargs[k].arg == Upstream(j);
      assert a.kwargs[k].arg == Upstream(j - base);
    }
  }

  /** The calls of a pool extended with a layer: valid, with the new ones among themselves. */
  lemma SpawnCalls(calls: seq<Call>, layer: seq<Call>)
    requires ValidCalls(calls) && ValidLayer(layer)
    ensures var all := calls + ShiftCalls(layer, |calls|);
            && ValidCalls(all)
            && (forall x: nat, y: nat | |calls| <= x < |all| && Uses(all[x], y) :: |calls| <= y)
            && (forall x: nat | |calls| <= x < |all| - 1 :: UsedLater(all, x))
            && (forall x: nat | x < |calls| && UsedLater(calls, x) :: UsedLater(all, x))
  {
    var base := |calls|;
    var all := calls + ShiftCalls(layer, base);
    forall x: nat, y: nat | x < |all| && Uses(all[x], y) ensures y < x && (x >= base ==> base <= y) {
      if x >= base {
        ShiftUses(layer, base, x - base, y);
        assert Uses(layer[x - base], y - base);
      } else {
        assert Uses(calls[x], y);
      }
    }
    forall x: nat | base <= x < |all| - 1 ensures UsedLater(all, x) {
      assert UsedLater(layer, x - base);
      var j :| x - base < j < |layer| && Uses(layer[j], x - base);
      ShiftUses(layer, base, j, x);
      assert Uses(all[base + j], x);
    }
    forall x: nat | x < base && UsedLater(calls, x) ensures UsedLater(all, x) {
      var j :| x < j < base && Uses(calls[j], x);
      assert Uses(all[j], x);
    }
  }

  lemma SpawnShape(s: State, i: nat, layer: Layer)
    requires Shape(s) && i < |s.cells| && ValidLayer(layer.calls) && s.cells[i].nested.None?
    ensures Shape(Spawn(s, i, layer)) && s.queue <= Spawn(s, i, layer).queue
  {
    var t, base := Spawn(s, i, layer), |s.calls|;
    SpawnCalls(s.calls, layer.calls);
    EnqueueLayer(t.calls, s.queue, base);
    forall j: nat | 0 < j < |t.cells| ensures HasParent(t, j) && LinkedUp(t, j) {
      if j < base {
        assert HasParent(s, j) && LinkedUp(s, j);
      }
    }
    forall j: nat | j < |t.cells| ensures NestedOk(t, j) && SameLayer(t, j) {
      if j < base {
        assert NestedOk(s, j) && SameLayer(s, j);
        assert forall x: nat | Uses(t.calls[j], x) :: x < base;
      }
    }
  }

  lemma {:induction false} SpawnKnown(s: State, i: nat, layer: Layer, j: nat)
    requires i < |s.cells| == |s.calls| && layer.calls != [] && s.cells[i].state != RESOLVED
    requires j < |s.calls| && Ready(s, j)
    ensures var t := Spawn(s, i, layer);
            Ready(t, j) && Bind(s.calls[j].kwargs, Known(t)) == Bind(s.calls[j].kwargs, Known(s))
  {
    var t := Spawn(s, i, layer);
    forall k | 0 <= k < |s.calls[j].kwargs|
      ensures Lookup(s.calls[j].kwargs[k].arg, Known(t)) == Lookup(s.calls[j].kwargs[k].arg, Known(s))
    {
      assert Lookup(s.calls[j].kwargs[k].arg, Known(s)).Val?;
    }
    assert AgreeOn(s.calls[j].kwargs, Known(t), Known(s));
  }

  lemma SpawnLife(p: Program, s: State, i: nat, layer: Layer)
    requires Shape(s) && Life(p, s) && i < |s.cells| && ValidLayer(layer.calls) && s.cells[i].state == SCHEDULED
    ensures Life(p, Spawn(s, i, layer))
  {
    var t := Spawn(s, i, layer);
    assert CellOk(p, s, i);
    forall j: nat | j < |t.cells| ensures CellOk(p, t, j) {
      if j < |s.cells| {
        assert CellOk(p, s, j) && NestedOk(s, j);
        if s.cells[j].state != CREATED {
          SpawnKnown(s, i, layer, j);
        }
      }
    }
  }

  /** Where the calls of a layer allocated from `base` on come from. */
  function LayerNames(base: nat, size: nat): seq<nat> {
    seq(size, x requires 0 <= x < size => base + x)
  }

  lemma {:induction false} SpawnRenames(calls: seq<Call>, layer: seq<Call>)
    requires ValidCalls(calls) && ValidLayer(layer)
    ensures Renames(layer, calls + ShiftCalls(layer, |calls|), LayerNames(|calls|, |layer|))
  {
    var rho, all := LayerNames(|calls|, |layer|), calls + ShiftCalls(layer, |calls|);
    forall x | 0 <= x < |layer| ensures rho[x] < |all| && SameCall(layer[x], all[rho[x]], rho) {
      assert all[rho[x]] == ShiftCall(layer[x], |calls|);
      ShiftedSame(layer, |calls|, x);
    }
  }

  lemma ShiftedSame(layer: seq<Call>, base: nat, x: nat)
    requires ValidLayer(layer) && x < |layer|
    ensures SameCall(layer[x], ShiftCall(layer[x], base), LayerNames(base, |layer|))
  {
    var a, b, rho := layer[x], ShiftCall(layer[x], base), LayerNames(base, |layer|);
    forall k | 0 <= k < |a.kwargs| ensures Matches(a.kwargs[k], b.kwargs[k], rho) {
      if a.kwargs[k].arg.Upstream? {
        assert Uses(a, a.kwargs[k].arg.id);
      }
    }
  }

  /** A layer evaluates in the pool as it does on its own. */
  lemma SpawnEval(p: Program, n: nat, calls: seq<Call>, layer: seq<Call>, j: nat)
    requires ValidCalls(calls) && ValidLayer(layer) && j < |layer|
    ensures Eval(p, n, calls + ShiftCalls(layer, |calls|), |calls| + j) == Eval(p, n, layer, j)
  {
    SpawnCalls(calls, layer);
    SpawnRenames(calls, layer);
    EvalRenamed(p, n, layer, calls + ShiftCalls(layer, |calls|), LayerNames(|calls|, |layer|), j);
  }

  /** Nested futures are in the pool. */
  ghost predicate NestedInPool(s: State) {
    forall i: nat | i < |s.cells| && s.cells[i].nested.Some? :: s.cells[i].nested.value < |s.cells|
  }

  lemma ShapeNests(s: State)
    requires Shape(s)
    ensures NestedInPool(s)
  {
    forall i: nat | i < |s.cells| && s.cells[i].nested.Some? ensures s.cells[i].nested.value < |s.cells| {
      assert NestedOk(s, i);
    }
  }

  lemma SpawnSound(p: Program, n: nat, s: State, i: nat, layer: Layer)
    requires |s.cells| == |s.calls| && ValidCalls(s.calls) && NestedInPool(s) && Sound(p, n, s)
    requires i < |s.cells| && ValidLayer(layer.calls) && Started(p, s, i) && OutcomeOf(p, s, i) == ReturnedFuture(layer)
    ensures Sound(p, n, Spawn(s, i, layer))
  {
    var t := Spawn(s, i, layer);
    forall j: nat | j < |t.cells| ensures NestedAgrees(p, n, t, j) && ValueAgrees(p, n, t, j) {
      if j < |s.cells| {
        assert NestedAgrees(p, n, s, j) && ValueAgrees(p, n, s, j);
        EvalExtended(p, n, s.calls, ShiftCalls(layer.calls, |s.calls|), j);
        if t.cells[j].nested.Some? {
          forall m: nat | n <= m
            ensures Eval(p, m + 1, t.calls, j) == Eval(p, m, t.calls, t.cells[j].nested.value)
          {
            if j == i {
              SpawnedAgrees(p, n, m, s, i, layer);
            } else {
              EvalExtended(p, m + 1, s.calls, ShiftCalls(layer.calls, |s.calls|), j);
              EvalExtended(p, m, s.calls, ShiftCalls(layer.calls, |s.calls|), s.cells[j].nested.value);
            }
          }
        }
      }
    }
  }

  /** The future that returned a layer has the result of the layer's last call. */
  lemma SpawnedAgrees(p: Program, n: nat, m: nat, s: State, i: nat, layer: Layer)
    requires |s.cells| == |s.calls| && ValidCalls(s.calls) && Sound(p, n, s) && n <= m
    requires i < |s.cells| && ValidLayer(layer.calls) && Started(p, s, i) && OutcomeOf(p, s, i) == ReturnedFuture(layer)
    ensures var calls := s.calls + ShiftCalls(layer.calls, |s.calls|);
            Eval(p, m + 1, calls, i) == Eval(p, m, calls, |calls| - 1)
  {
    EvalExtended(p, m + 1, s.calls, ShiftCalls(layer.calls, |s.calls|), i);
    SpawnEval(p, m, s.calls, layer.calls, |layer.calls| - 1);
    OutcomeIsFinal(p, s, i);
    SoundDeeper(p, n, m + 1, s);
    ReadyEval(p, m + 1, s, i);
  }

  // -------------------------------------------------------------- the sweep

  /** While the runner is live, all ancestors of an unresolved future are in state RAN. */
  lemma {:induction false} AncestorsRan(p: Program, s: State, i: nat, j: nat)
    requires Shape(s) && Life(p, s) && Live(s) && i < |s.cells|
    requires s.cells[i].state != RESOLVED && j in CallChain(s.cells, i) && j != i
    ensures j < i && s.cells[j].state == RAN
    decreases i
  {
    if i > 0 {
      assert HasParent(s, i);
      var q := s.cells[i].parent.value;
      assert CellOk(p, s, q);
      if s.cells[q].state == RESOLVED {
        ResolvedLayer(p, s, i);
      }
      if j != q {
        AncestorsRan(p, s, q, j);
      }
    }
  }

  lemma SweepShape(s: State, i: nat)
    requires Shape(s)
    ensures Shape(Sweep(s, i))
  {
    var t := Sweep(s, i);
    forall j: nat | 0 < j < |t.cells| ensures HasParent(t, j) && LinkedUp(t, j) {
      assert HasParent(s, j) && LinkedUp(s, j);
    }
    forall j: nat | j < |t.cells| ensures NestedOk(t, j) && SameLayer(t, j) {
      assert NestedOk(s, j) && SameLayer(s, j);
    }
  }

  lemma SweepKeepsInv(p: Program, n: nat, s: State, i: nat)
    requires Shape(s) && Life(p, s) && Sound(p, n, s) && Enabled(Unlimited, s, Settle(i))
    requires OutcomeOf(p, s, i).Raised? && !p.Retried(s.calls[i].func, s.cells[i].resolvedKwargs, s.cells[i].retryCount)
    ensures var t := Apply(p, s, Settle(i)); Shape(t) && Life(p, t) && Sound(p, n, t)
  {
    var t := Sweep(s, i);
    assert CellOk(p, s, i);
    forall j | j in CallChain(s.cells, i) && j != i ensures j < i && s.cells[j].state == RAN {
      AncestorsRan(p, s, i, j);
    }
    assert Known(t) == Known(s);
    SweepShape(s, i);
    forall j: nat | j < |t.cells| ensures CellOk(p, t, j) {
      assert CellOk(p, s, j);
    }
    forall j: nat | j < |t.cells| ensures NestedAgrees(p, n, t, j) && ValueAgrees(p, n, t, j) {
      assert NestedAgrees(p, n, s, j) && ValueAgrees(p, n, s, j);
    }
  }
}
