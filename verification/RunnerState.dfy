/** The state of a `StateMachineRunner` and the actions that change it.

    Future objects live in one pool and are named by their index: `calls` holds what a future
    is created with, `cells` the fields the runner updates, and `queue` is `self._futures`. */
module RunnerState {
  import opened FutureStates
  import opened Semantics

  datatype Cell = Cell(
    state: FutureState,
    resolvedKwargs: map<string, Value>,
    value: Option<Value>,
    parent: Option<nat>,
    nested: Option<nat>,
    retryCount: nat,
    executions: nat)  // history only: how often the function was started

  const FRESH_CELL := Cell(CREATED, map[], None, None, None, 0, 0)

  datatype State = State(calls: seq<Call>, cells: seq<Cell>, queue: seq<nat>)

  // ---------------------------------------------------------------- enqueuing

  /** `_enqueue_future`: depth first through the arguments, skipping futures already listed. */
  function Enqueue(calls: seq<Call>, queue: seq<nat>, i: nat): seq<nat>
    decreases i, 1, 0
  {
    if i in queue || i >= |calls| then queue
    else EnqueueArgs(calls, queue + [i], i, |calls[i].kwargs|)
  }

  /** The first `k` arguments of `i`, in order. */
  function EnqueueArgs(calls: seq<Call>, queue: seq<nat>, i: nat, k: nat): seq<nat>
    requires i < |calls| && k <= |calls[i].kwargs|
    decreases i, 0, k
  {
    if k == 0 then queue
    else
      var before := EnqueueArgs(calls, queue, i, k - 1);
      match calls[i].kwargs[k - 1].arg
      case Concrete(_) => before
      case Upstream(j) => if j < i then Enqueue(calls, before, j) else before
  }

  // ---------------------------------------------------------------- actions

  /** The values known so far. */
  function Known(s: State): seq<Result> {
    seq(|s.cells|, i requires 0 <= i < |s.cells| =>
      if s.cells[i].state == RESOLVED && s.cells[i].value.Some? then Val(s.cells[i].value.value) else Unknown)
  }

  predicate Ready(s: State, i: nat)
    requires i < |s.calls|
  {
    AllVal(s.calls[i].kwargs, Known(s))
  }

  function SetCell(s: State, i: nat, c: Cell): State
    requires i < |s.cells|
  {
    s.(cells := s.cells[i := c])
  }

  function ShiftArg(arg: Arg, base: nat): Arg {
    match arg
    case Concrete(_) => arg
    case Upstream(j) => Upstream(base + j)
  }

  function ShiftCall(call: Call, base: nat): Call {
    call.(kwargs := seq(|call.kwargs|, k requires 0 <= k < |call.kwargs| =>
      Kwarg(call.kwargs[k].name, ShiftArg(call.kwargs[k].arg, base))))
  }

  /** A layer's calls as future objects allocated from `base` on. */
  function ShiftCalls(calls: seq<Call>, base: nat): seq<Call> {
    seq(|calls|, i requires 0 <= i < |calls| => ShiftCall(calls[i], base))
  }

  /** Future `i` ran and returned the last future of a new layer. */
  function Spawn(s: State, i: nat, layer: Layer): State
    requires i < |s.cells| && layer.calls != []
  {
    var calls := s.calls + ShiftCalls(layer.calls, |s.calls|);
    var nested := |calls| - 1;
    State(
      calls,
      s.cells[i := s.cells[i].(state := RAN, nested := Some(nested))]
      + seq(|layer.calls|, _ => FRESH_CELL.(parent := Some(i))),
      Enqueue(calls, s.queue, nested))
  }

  /** The future, the future it was returned from, and so on up to the root. */
  function CallChain(cells: seq<Cell>, i: nat): seq<nat> {
    if i < |cells| && cells[i].parent.Some? && cells[i].parent.value < i
    then [i] + CallChain(cells, cells[i].parent.value)
    else [i]
  }

  /** `_fail_future_and_parents`. */
  function Sweep(s: State, i: nat): State {
    s.(cells := seq(|s.cells|, j requires 0 <= j < |s.cells| =>
      if j == i then s.cells[j].(state := FAILED)
      else if j in CallChain(s.cells, i) then s.cells[j].(state := NESTED_FAILED)
      else s.cells[j]))
  }

  datatype Action =
    | Prepare(i: nat)  // note the concrete arguments of a future whose inputs are ready
    | Begin(i: nat)    // schedule a future
    | Settle(i: nat)   // take in the outcome of a scheduled future
    | Bubble(i: nat)   // take over the value of the nested future

  /** The limit on futures in the SCHEDULED state: `_can_schedule_future`. */
  datatype Limit = Unlimited | AtMost(n: nat)

  function ScheduledIn(s: State, queue: seq<nat>): nat {
    if queue == [] then 0
    else
      var i := queue[|queue| - 1];
      ScheduledIn(s, queue[..|queue| - 1]) + if i < |s.cells| && s.cells[i].state == SCHEDULED then 1 else 0
  }

  predicate CanSchedule(limit: Limit, s: State, i: nat)
    requires i < |s.calls|
  {
    !s.calls[i].standalone || limit.Unlimited? || ScheduledIn(s, s.queue) < limit.n
  }

  /** No future has failed: the runner stops at the first failure it cannot retry. */
  ghost predicate Live(s: State) {
    forall i | 0 <= i < |s.cells| :: s.cells[i].state in {CREATED, SCHEDULED, RETRYING, RAN, RESOLVED}
  }

  ghost predicate Enabled(limit: Limit, s: State, a: Action) {
    && Live(s) && |s.cells| == |s.calls| && a.i < |s.calls|
    && var c := s.cells[a.i];
       match a
       case Prepare(i) => c.state == CREATED && Ready(s, i)
       case Begin(i) =>
         && (c.state == RETRYING ||
             (c.state == CREATED && Ready(s, i) && c.resolvedKwargs == Bind(s.calls[i].kwargs, Known(s))))
         && CanSchedule(limit, s, i)
       case Settle(i) => c.state == SCHEDULED
       case Bubble(i) => c.state == RAN && c.nested.Some? && c.nested.value < |s.cells|
                         && s.cells[c.nested.value].state == RESOLVED
  }

  function OutcomeOf(p: Program, s: State, i: nat): Outcome
    requires i < |s.cells| == |s.calls|
  {
    p.behave(s.calls[i].func, s.cells[i].resolvedKwargs, s.cells[i].retryCount)
  }

  function Apply(p: Program, s: State, a: Action): State
    requires a.i < |s.cells| == |s.calls|
  {
    var i, c := a.i, s.cells[a.i];
    match a
    case Prepare(_) => SetCell(s, i, c.(resolvedKwargs := Bind(s.calls[i].kwargs, Known(s))))
    case Begin(_) => SetCell(s, i, c.(state := SCHEDULED, executions := c.executions + 1))
    case Settle(_) =>
      (match OutcomeOf(p, s, i)
       case Returned(v) => SetCell(s, i, c.(value := Some(v), state := RESOLVED))
       case ReturnedFuture(layer) => if layer.calls == [] then s else Spawn(s, i, layer)
       case Raised(_, _, _) =>
         if p.Retried(s.calls[i].func, c.resolvedKwargs, c.retryCount)
         then SetCell(s, i, c.(state := RETRYING, retryCount := c.retryCount + 1))
         else Sweep(s, i))
    case Bubble(_) =>
      if c.nested.Some? && c.nested.value < |s.cells|
      then SetCell(s, i, c.(value := s.cells[c.nested.value].value, state := RESOLVED))
      else s
  }

  /** A run: every action enabled in turn. */
  ghost predicate RunsTo(p: Program, limit: Limit, s: State, actions: seq<Action>, t: State)
    decreases |actions|
  {
    if actions == [] then s == t
    else Enabled(limit, s, actions[0]) && RunsTo(p, limit, Apply(p, s, actions[0]), actions[1..], t)
  }

  ghost predicate Reaches(p: Program, limit: Limit, s: State, t: State) {
    exists actions :: RunsTo(p, limit, s, actions, t)
  }

  lemma ReachesRefl(p: Program, limit: Limit, s: State)
    ensures Reaches(p, limit, s, s)
  {
    assert RunsTo(p, limit, s, [], s);
  }

  lemma {:induction false} RunsToAppend(p: Program, limit: Limit, s: State, xs: seq<Action>, t: State,
      ys: seq<Action>, u: State)
    requires RunsTo(p, limit, s, xs, t) && RunsTo(p, limit, t, ys, u)
    ensures RunsTo(p, limit, s, xs + ys, u)
    decreases |xs|
  {
    if xs == [] {
      assert xs + ys == ys;
    } else {
      RunsToAppend(p, limit, Apply(p, s, xs[0]), xs[1..], t, ys, u);
      assert (xs + ys)[1..] == xs[1..] + ys;
    }
  }

  lemma ReachesTrans(p: Program, limit: Limit, s: State, t: State, u: State)
    requires Reaches(p, limit, s, t) && Reaches(p, limit, t, u)
    ensures Reaches(p, limit, s, u)
  {
    var xs :| RunsTo(p, limit, s, xs, t);
    var ys :| RunsTo(p, limit, t, ys, u);
    RunsToAppend(p, limit, s, xs, t, ys, u);
  }

  lemma ReachesStep(p: Program, limit: Limit, s: State, t: State, a: Action)
    requires Reaches(p, limit, s, t) && Enabled(limit, t, a)
    ensures Reaches(p, limit, s, Apply(p, t, a))
  {
    assert RunsTo(p, limit, Apply(p, t, a), [a][1..], Apply(p, t, a));
    assert RunsTo(p, limit, t, [a], Apply(p, t, a));
    ReachesTrans(p, limit, s, t, Apply(p, t, a));
  }

  /** `_seed_graph`: the root future alone. */
  function Initial(root: Call): State {
    State([root], [FRESH_CELL], [0])
  }
}
