/** The promises of the runner over whole runs, for every program, every order of actions
    and every number of retries. */
module RunnerTheorems {
  import opened FutureStates
  import opened Semantics
  import opened RunnerState
  import opened RunnerInvariant

  // -------------------------------------------------------------- reachability

  lemma InitialInv(p: Program, root: Call)
    requires forall k | 0 <= k < |root.kwargs| :: root.kwargs[k].arg.Concrete?
    ensures Inv(p, Initial(root)) && Live(Initial(root))
  {
    var s := Initial(root);
    assert forall i: nat, j: nat | i < |s.calls| :: !Uses(s.calls[i], j);
    assert Sound(p, 0, s);
  }

  /** No action breaks the invariant. */
  lemma ActionKeepsInv(p: Program, limit: Limit, s: State, a: Action)
    requires p.Valid() && Inv(p, s) && Enabled(limit, s, a)
    ensures Inv(p, Apply(p, s, a))
  {
    var n: nat :| Sound(p, n, s);
    var t, i := Apply(p, s, a), a.i;
    match a {
      case Prepare(_) => PrepareKeepsInv(p, n, s, i);
      case Begin(_) => BeginKeepsInv(p, n, s, i);
      case Bubble(_) =>
        BubbleKeepsInv(p, n, s, i);
        assert Sound(p, n + 1, t);
      case Settle(_) =>
        match OutcomeOf(p, s, i) {
          case Returned(_) => ResolveKeepsInv(p, n, s, i);
          case ReturnedFuture(layer) =>
            assert CellOk(p, s, i);
            SpawnShape(s, i, layer);
            SpawnLife(p, s, i, layer);
            ShapeNests(s);
            SpawnSound(p, n, s, i, layer);
          case Raised(_, _, _) =>
            if p.Retried(s.calls[i].func, s.cells[i].resolvedKwargs, s.cells[i].retryCount) {
              RetryKeepsInv(p, n, s, i);
            } else {
              SweepKeepsInv(p, n, s, i);
            }
        }
    }
  }

  lemma {:induction false} RunKeepsInv(p: Program, limit: Limit, s: State, actions: seq<Action>, t: State)
    requires p.Valid() && Inv(p, s) && RunsTo(p, limit, s, actions, t)
    ensures Inv(p, t)
    decreases |actions|
  {
    if actions != [] {
      ActionKeepsInv(p, limit, s, actions[0]);
      RunKeepsInv(p, limit, Apply(p, s, actions[0]), actions[1..], t);
    }
  }

  // ----------------------------------------------------------------- legality

  /** What one action, and hence any run, may do to the futures that exist before it. */
  ghost predicate Evolves(s: State, t: State) {
    && |s.cells| <= |t.cells| && s.calls <= t.calls && s.queue <= t.queue
    && forall i | 0 <= i < |s.cells| ::
         && t.cells[i].parent == s.cells[i].parent
         && (s.cells[i].nested.Some? ==> t.cells[i].nested == s.cells[i].nested)
         && (s.cells[i].state.IsTerminal() ==>
               t.cells[i].state == s.cells[i].state && t.cells[i].value == s.cells[i].value)
  }

  /** The transitions that the runner makes. */
  ghost predicate Taken(from: FutureState, to: FutureState) {
    || (from in {CREATED, RETRYING} && to == SCHEDULED)
    || (from == SCHEDULED && to in {RAN, RETRYING, RESOLVED, FAILED})
    || (from == RAN && to in {RESOLVED, NESTED_FAILED})
  }

  /** The table allows what the runner does, to cancel a future that is not in a terminal state, to
      fail one before it is started, and to go on from a failure by retrying. */
  lemma AllowedIff(from: FutureState, to: FutureState)
    ensures IsAllowedTransition(from, to) <==>
            || Taken(from, to)
            || (to == CANCELED && from !in {NESTED_FAILED, FAILED, RESOLVED, CANCELED})
            || (to == FAILED && from in {CREATED, RETRYING})
            || (to == RETRYING && from == FAILED)
    ensures from.IsTerminal() <==> !IsAllowedTransition(from, CANCELED)
  {
  }

  /** Every state change of every future is one that the runner makes and that the table allows, new
      futures are CREATED, and no terminal state is left: in particular the ancestors that a failure
      sweep marks NESTED_FAILED were all RAN. */
  lemma TransitionsAreLegal(p: Program, limit: Limit, s: State, a: Action)
    requires p.Valid() && Inv(p, s) && Enabled(limit, s, a)
    ensures var t := Apply(p, s, a);
            && Evolves(s, t)
            && (forall i | 0 <= i < |s.cells| && t.cells[i].state != s.cells[i].state ::
                  Taken(s.cells[i].state, t.cells[i].state) && IsAllowedTransition(s.cells[i].state, t.cells[i].state))
            && (forall i | |s.cells| <= i < |t.cells| :: t.cells[i].state == CREATED)
  {
    var i, t := a.i, Apply(p, s, a);
    assert CellOk(p, s, i);
    if a.Settle? && OutcomeOf(p, s, i).ReturnedFuture? {
      SpawnIsLegal(s, i, OutcomeOf(p, s, i).layer);
    } else if a.Settle? && OutcomeOf(p, s, i).Raised?
              && !p.Retried(s.calls[i].func, s.cells[i].resolvedKwargs, s.cells[i].retryCount) {
      SweepIsLegal(p, s, i);
    } else {
      UpdateIsLegal(s, i, t.cells[i]);
    }
    forall j | 0 <= j < |s.cells| {
      AllowedIff(s.cells[j].state, t.cells[j].state);
    }
  }

  lemma UpdateIsLegal(s: State, i: nat, c: Cell)
    requires i < |s.cells| && !s.cells[i].state.IsTerminal()
    requires c.parent == s.cells[i].parent && c.nested == s.cells[i].nested
    requires c.state == s.cells[i].state || Taken(s.cells[i].state, c.state)
    ensures var t := SetCell(s, i, c);
            && Evolves(s, t)
            && forall j | 0 <= j < |s.cells| ::
                 t.cells[j].state == s.cells[j].state || Taken(s.cells[j].state, t.cells[j].state)
  {
  }

  lemma SpawnIsLegal(s: State, i: nat, layer: Layer)
    requires Shape(s) && i < |s.cells| && s.cells[i].state == SCHEDULED && s.cells[i].nested.None?
    requires ValidLayer(layer.calls)
    ensures var t := Spawn(s, i, layer);
            && Evolves(s, t) && t.cells[i].state == RAN
            && (forall j | 0 <= j < |s.cells| && j != i :: t.cells[j] == s.cells[j])
            && (forall j | |s.cells| <= j < |t.cells| :: t.cells[j].state == CREATED)
  {
    SpawnShape(s, i, layer);
  }

  lemma SweepIsLegal(p: Program, s: State, i: nat)
    requires Inv(p, s) && Live(s) && i < |s.cells| && s.cells[i].state == SCHEDULED
    ensures var t := Sweep(s, i);
            && Evolves(s, t)
            && forall j | 0 <= j < |s.cells| ::
                 t.cells[j].state == s.cells[j].state || Taken(s.cells[j].state, t.cells[j].state)
  {
    forall j | j in CallChain(s.cells, i) && j != i ensures j < i && s.cells[j].state == RAN {
      AncestorsRan(p, s, i, j);
    }
  }

  lemma {:induction false} RunEvolves(p: Program, limit: Limit, s: State, actions: seq<Action>, t: State)
    requires p.Valid() && Inv(p, s) && RunsTo(p, limit, s, actions, t)
    ensures Evolves(s, t)
    decreases |actions|
  {
    if actions != [] {
      TransitionsAreLegal(p, limit, s, actions[0]);
      ActionKeepsInv(p, limit, s, actions[0]);
      RunEvolves(p, limit, Apply(p, s, actions[0]), actions[1..], t);
    }
  }

  // ------------------------------------------------------ refinement of the evaluator

  /** In every reachable state, a resolved future's value is what its call evaluates to. */
  lemma ResolvedValues(p: Program, limit: Limit, s: State, actions: seq<Action>, t: State, i: nat)
    requires p.Valid() && Inv(p, s) && RunsTo(p, limit, s, actions, t)
    requires i < |t.cells| && t.cells[i].state == RESOLVED
    ensures i < |t.calls| && t.cells[i].value.Some? && EvaluatesTo(p, t.calls, i, t.cells[i].value.value)
  {
    RunKeepsInv(p, limit, s, actions, t);
    var n: nat :| Sound(p, n, t);
    assert CellOk(p, t, i) && ValueAgrees(p, n, t, i);
  }

  /** The root's value depends on neither list order nor scheduling: two runs of the same
      root call, under any limits, that both resolve it give the same value. */
  lemma RootValueIsScheduleIndependent(p: Program, root: Call,
      limit1: Limit, actions1: seq<Action>, t1: State, limit2: Limit, actions2: seq<Action>, t2: State)
    requires p.Valid() && forall k | 0 <= k < |root.kwargs| :: root.kwargs[k].arg.Concrete?
    requires RunsTo(p, limit1, Initial(root), actions1, t1) && t1.cells != [] && t1.cells[0].state == RESOLVED
    requires RunsTo(p, limit2, Initial(root), actions2, t2) && t2.cells != [] && t2.cells[0].state == RESOLVED
    ensures t1.cells[0].value == t2.cells[0].value
    ensures t1.cells[0].value.Some? && EvaluatesTo(p, [root], 0, t1.cells[0].value.value)
  {
    InitialInv(p, root);
    RootEvaluates(p, limit1, root, actions1, t1);
    RootEvaluates(p, limit2, root, actions2, t2);
    ValueUnique(p, [root], 0, t1.cells[0].value.value, t2.cells[0].value.value);
  }

  lemma RootEvaluates(p: Program, limit: Limit, root: Call, actions: seq<Action>, t: State)
    requires p.Valid() && Inv(p, Initial(root))
    requires RunsTo(p, limit, Initial(root), actions, t) && t.cells != [] && t.cells[0].state == RESOLVED
    ensures t.cells[0].value.Some? && EvaluatesTo(p, [root], 0, t.cells[0].value.value)
  {
    ResolvedValues(p, limit, Initial(root), actions, t, 0);
    RunEvolves(p, limit, Initial(root), actions, t);
    var n: nat :| Eval(p, n, t.calls, 0) == Val(t.cells[0].value.value);
    EvalExtended(p, n, [root], t.calls[1..], 0);
    assert t.calls == [root] + t.calls[1..];
    assert Eval(p, n, [root], 0) == Val(t.cells[0].value.value);
  }

  // ----------------------------------------------------------------- progress

  /** Something the main loop can do with future `i`, or an execution it can wait for. */
  ghost predicate HasWork(limit: Limit, s: State, i: nat)
    requires i < |s.cells| == |s.calls|
  {
    var c := s.cells[i];
    || (c.state == CREATED && Ready(s, i) && CanSchedule(limit, s, i))
    || (c.state == RETRYING && CanSchedule(limit, s, i))
    || (c.state == RAN && c.nested.Some? && c.nested.value < |s.cells| && s.cells[c.nested.value].state == RESOLVED)
    || c.state == SCHEDULED
  }

  function LayerIndex(s: State, i: nat): nat
    requires i < |s.cells|
  {
    if s.cells[i].parent.None? then 0 else s.cells[i].parent.value + 1
  }

  lemma {:induction false} NothingScheduled(s: State, queue: seq<nat>)
    requires forall i | 0 <= i < |s.cells| :: s.cells[i].state != SCHEDULED
    ensures ScheduledIn(s, queue) == 0
    decreases |queue|
  {
    if queue != [] {
      NothingScheduled(s, queue[..|queue| - 1]);
    }
  }

  /** Below any unresolved future there is work, or something is executing. */
  lemma {:induction false} UnresolvedHasWork(p: Program, limit: Limit, s: State, i: nat)
    requires Shape(s) && Life(p, s) && Live(s) && (limit.AtMost? ==> limit.n >= 1)
    requires i < |s.cells| && s.cells[i].state != RESOLVED
    ensures exists j: nat :: j < |s.cells| && HasWork(limit, s, j)
    decreases |s.cells| - LayerIndex(s, i), i
  {
    if j: nat :| j < |s.cells| && s.cells[j].state == SCHEDULED {
      assert HasWork(limit, s, j);
    } else {
      NothingScheduled(s, s.queue);
      assert CanSchedule(limit, s, i);
      assert CellOk(p, s, i) && NestedOk(s, i) && SameLayer(s, i);
      if s.cells[i].state == RAN {
        var m := s.cells[i].nested.value;
        if s.cells[m].state == RESOLVED {
          assert HasWork(limit, s, i);
        } else {
          assert i > 0 ==> HasParent(s, i);
          UnresolvedHasWork(p, limit, s, m);
        }
      } else if s.cells[i].state == CREATED && !Ready(s, i) {
        var k :| 0 <= k < |s.calls[i].kwargs| && !Lookup(s.calls[i].kwargs[k].arg, Known(s)).Val?;
        var j := s.calls[i].kwargs[k].arg.id;
        assert Uses(s.calls[i], j);
        assert CellOk(p, s, j);
        UnresolvedHasWork(p, limit, s, j);
      } else {
        assert HasWork(limit, s, i);
      }
    }
  }

  /** No deadlock: if the root is not terminal and no future of the list can be scheduled or
      resolved, a future is executing, so the runner never waits on nothing. */
  lemma NeverWaitsOnNothing(p: Program, limit: Limit, s: State)
    requires Inv(p, s) && Live(s) && !s.cells[0].state.IsTerminal()
    requires limit.AtMost? ==> limit.n >= 1
    requires forall i: nat | i < |s.cells| && HasWork(limit, s, i) :: s.cells[i].state == SCHEDULED
    ensures exists i: nat :: i in s.queue && i < |s.cells| && s.cells[i].state == SCHEDULED
  {
    UnresolvedHasWork(p, limit, s, 0);
    var j: nat :| j < |s.cells| && HasWork(limit, s, j);
    assert j in s.queue;
  }

  // -------------------------------------------------------------- parallelism

  function StandaloneScheduled(s: State): set<nat>
    requires |s.cells| == |s.calls|
  {
    set i: nat | i < |s.cells| && s.calls[i].standalone && s.cells[i].state == SCHEDULED
  }

  ghost predicate WithinLimit(limit: Limit, s: State)
    requires |s.cells| == |s.calls|
  {
    limit.AtMost? ==> |StandaloneScheduled(s)| <= limit.n
  }

  predicate IsScheduled(s: State, i: nat) {
    i < |s.cells| && s.cells[i].state == SCHEDULED
  }

  function ScheduledOf(s: State, queue: seq<nat>): set<nat> {
    set i | i in queue && IsScheduled(s, i)
  }

  lemma {:induction false} ScheduledInCounts(s: State, queue: seq<nat>)
    requires NoDuplicates(queue)
    ensures ScheduledIn(s, queue) == |ScheduledOf(s, queue)|
    decreases |queue|
  {
    if queue != [] {
      var init, last := queue[..|queue| - 1], queue[|queue| - 1];
      ScheduledInCounts(s, init);
      assert queue == init + [last];
      assert last !in init;
      assert ScheduledOf(s, queue) == ScheduledOf(s, init) + if IsScheduled(s, last) then {last} else {};
    }
  }

  lemma SubsetSize<T>(a: set<T>, b: set<T>)
    requires a <= b
    ensures |a| <= |b|
  {
    assert b == a + (b - a);
  }

  lemma OnlyBeginSchedules(p: Program, s: State, a: Action, j: nat)
    requires a.i < |s.cells| == |s.calls| && !a.Begin?
    requires j < |Apply(p, s, a).cells| && Apply(p, s, a).cells[j].state == SCHEDULED
    ensures j < |s.cells| && s.cells[j].state == SCHEDULED
  {
  }

  /** Scheduling one future, if the limit allows it. */
  lemma BeginKeepsLimit(limit: Limit, s: State, i: nat, t: State)
    requires NoDuplicates(s.queue) && forall j: nat | IsScheduled(s, j) :: j in s.queue
    requires i < |s.cells| == |s.calls| && CanSchedule(limit, s, i) && WithinLimit(limit, s)
    requires t.calls == s.calls && |t.cells| == |s.cells|
    requires forall j | 0 <= j < |s.cells| && j != i :: t.cells[j].state == s.cells[j].state
    ensures WithinLimit(limit, t)
  {
    var before, after := StandaloneScheduled(s), StandaloneScheduled(t);
    if s.calls[i].standalone {
      ScheduledInCounts(s, s.queue);
      SubsetSize(before, ScheduledOf(s, s.queue));
      SubsetSize(after, before + {i});
    } else {
      SubsetSize(after, before);
    }
  }

  lemma OthersScheduleNone(p: Program, s: State, a: Action, t: State)
    requires a.i < |s.cells| == |s.calls| && !a.Begin?
    requires t == Apply(p, s, a) && |t.cells| == |t.calls| && s.calls <= t.calls
    ensures StandaloneScheduled(t) <= StandaloneScheduled(s)
    ensures |StandaloneScheduled(t)| <= |StandaloneScheduled(s)|
  {
    forall j | j in StandaloneScheduled(t) ensures j in StandaloneScheduled(s) {
      OnlyBeginSchedules(p, s, a, j);
      assert t.calls[j] == s.calls[j];
    }
    SubsetSize(StandaloneScheduled(t), StandaloneScheduled(s));
  }

  lemma ActionKeepsLimit(p: Program, limit: Limit, s: State, a: Action)
    requires p.Valid() && Inv(p, s) && Enabled(limit, s, a) && WithinLimit(limit, s)
    ensures |Apply(p, s, a).cells| == |Apply(p, s, a).calls| && WithinLimit(limit, Apply(p, s, a))
  {
    if a.Begin? {
      BeginKeepsLimit(limit, s, a.i, Apply(p, s, a));
    } else {
      ActionKeepsInv(p, limit, s, a);
      TransitionsAreLegal(p, limit, s, a);
      OthersScheduleNone(p, s, a, Apply(p, s, a));
    }
  }

  /** In every state of every run, at most `limit` standalone futures are SCHEDULED. */
  lemma {:induction false} ParallelismBound(p: Program, limit: Limit, s: State, actions: seq<Action>, t: State)
    requires p.Valid() && Inv(p, s) && WithinLimit(limit, s) && RunsTo(p, limit, s, actions, t)
    ensures |t.cells| == |t.calls| && WithinLimit(limit, t)
    decreases |actions|
  {
    if actions != [] {
      ActionKeepsInv(p, limit, s, actions[0]);
      ActionKeepsLimit(p, limit, s, actions[0]);
      ParallelismBound(p, limit, Apply(p, s, actions[0]), actions[1..], t);
    }
  }

  /** A run from scratch starts within any limit, so it stays within it, retries included. */
  lemma ParallelismBoundFromScratch(p: Program, limit: Limit, root: Call, actions: seq<Action>, t: State)
    requires p.Valid() && forall k | 0 <= k < |root.kwargs| :: root.kwargs[k].arg.Concrete?
    requires RunsTo(p, limit, Initial(root), actions, t)
    ensures |t.cells| == |t.calls| && WithinLimit(limit, t)
  {
    InitialInv(p, root);
    assert StandaloneScheduled(Initial(root)) == {};
    ParallelismBound(p, limit, Initial(root), actions, t);
  }

  /** In every state of every run, each function was started at most `retries + 1` times. */
  lemma ExecutionsBounded(p: Program, limit: Limit, s: State, actions: seq<Action>, t: State, i: nat)
    requires p.Valid() && Inv(p, s) && RunsTo(p, limit, s, actions, t) && i < |t.cells|
    ensures i < |t.calls| && t.cells[i].executions <= p.Retries(t.calls[i].func) + 1
  {
    RunKeepsInv(p, limit, s, actions, t);
    assert CellOk(p, t, i);
  }
}
