/** `StateMachineRunner` with the overrides of `SilentRunner` and of `CloudRunner`: the code
    that moves futures through their states, proved to be a run of the actions of
    `RunnerState` that ends with what the recursive evaluator says. */
module Runner {
  import opened FutureStates
  import opened Semantics
  import opened RunnerState
  import opened RunnerInvariant
  import opened RunnerTheorems
  import opened Retries
  import opened RunnerSoundness
  import opened RunnerTermination
  import opened RunnerProgress

  /** The constructor of `CloudRunner` rejects limits below one. */
  type Parallelism = n: nat | n >= 1 witness 1

  datatype Kind = Silent | Cloud(maxParallelism: Option<Parallelism>)

  /** What a call that may raise `PipelineRunError` gives back. */
  datatype Attempt = Done(changed: bool) | PipelineRunError

  datatype RunResult = Success(value: Value) | Failure | NotConcrete

  // ----------------------------------------------------------------- lemmas

  /** The concrete ones among the first `k` arguments. */
  ghost function BindTo(kwargs: Kwargs, k: nat, known: seq<Result>): map<string, Value>
    requires k <= |kwargs|
  {
    if k == 0 then map[]
    else
      match Lookup(kwargs[k - 1].arg, known)
      case Val(v) => BindTo(kwargs, k - 1, known)[kwargs[k - 1].name := v]
      case _ => BindTo(kwargs, k - 1, known)
  }

  lemma {:induction false} BindToAt(kwargs: Kwargs, k: nat, known: seq<Result>, x: string)
    requires k <= |kwargs|
    ensures forall l | 0 <= l < k :: (kwargs[l].name in BindTo(kwargs, k, known) <==> Lookup(kwargs[l].arg, known).Val?)
    ensures forall l | 0 <= l < k && Lookup(kwargs[l].arg, known).Val? ::
              BindTo(kwargs, k, known)[kwargs[l].name] == Lookup(kwargs[l].arg, known).value
    ensures x in BindTo(kwargs, k, known) ==> exists l | 0 <= l < k :: kwargs[l].name == x
    decreases k
  {
    if k > 0 {
      BindToAt(kwargs, k - 1, known, x);
      BindToAt(kwargs, k - 1, known, kwargs[k - 1].name);
    }
  }

  lemma BindToWhole(kwargs: Kwargs, known: seq<Result>)
    ensures BindTo(kwargs, |kwargs|, known) == Bind(kwargs, known)
  {
    var a, b := BindTo(kwargs, |kwargs|, known), Bind(kwargs, known);
    forall x ensures x in a <==> x in b {
      BindToAt(kwargs, |kwargs|, known, x);
    }
    forall x | x in b ensures a[x] == b[x] {
      var l :| 0 <= l < |kwargs| && kwargs[l].name == x && Lookup(kwargs[l].arg, known).Val?;
      BindToAt(kwargs, |kwargs|, known, x);
      BindAt(kwargs, known, l);
    }
  }

  /** As many names are bound as there are arguments exactly if all arguments are concrete. */
  lemma {:induction false} BindToSize(kwargs: Kwargs, k: nat, known: seq<Result>)
    requires k <= |kwargs|
    ensures |BindTo(kwargs, k, known)| <= k
    ensures |BindTo(kwargs, k, known)| == k <==> forall l | 0 <= l < k :: Lookup(kwargs[l].arg, known).Val?
    decreases k
  {
    if k > 0 {
      BindToSize(kwargs, k - 1, known);
      BindToAt(kwargs, k - 1, known, kwargs[k - 1].name);
    }
  }

  /** Future `y` is an argument of a future listed in `queue` but not before. */
  ghost predicate UsedByNew(calls: seq<Call>, before: seq<nat>, queue: seq<nat>, y: nat) {
    exists x: nat :: x in queue && x !in before && x < |calls| && Uses(calls[x], y)
  }

  /** Listing the last future of a new layer lists the layer; all others in it are arguments. */
  lemma {:induction false} UsedInLayer(calls: seq<Call>, queue: seq<nat>, base: nat, futures: seq<nat>)
    requires ValidCalls(calls) && base < |calls| && NoDuplicates(queue)
    requires futures == Enqueue(calls, queue, |calls| - 1) && forall x: nat | x in queue :: x < base
    requires forall x: nat, y: nat | base <= x < |calls| && Uses(calls[x], y) :: base <= y
    requires forall x: nat | base <= x < |calls| - 1 :: UsedLater(calls, x)
    ensures forall y: nat :: UsedByNew(calls, queue, futures, y) <==> base <= y < |calls| - 1
  {
    EnqueueLayer(calls, queue, base);
    forall y: nat ensures UsedByNew(calls, queue, futures, y) <==> base <= y < |calls| - 1 {
      if base <= y < |calls| - 1 {
        assert UsedLater(calls, y);
        var x: nat :| y < x < |calls| && Uses(calls[x], y);
        assert x in futures && x !in queue;
      }
    }
  }

  ghost predicate UsesAmong(call: Call, k: nat, y: nat) {
    exists l: nat :: l < k && l < |call.kwargs| && call.kwargs[l].arg == Upstream(y)
  }

  lemma UsesNext(call: Call, k: nat, j: nat)
    requires k < |call.kwargs| && call.kwargs[k].arg == Upstream(j)
    ensures forall y: nat :: UsesAmong(call, k + 1, y) <==> UsesAmong(call, k, y) || y == j
  {
    forall y: nat ensures UsesAmong(call, k + 1, y) <==> UsesAmong(call, k, y) || y == j {
      if y == j {
        assert call.kwargs[k].arg == Upstream(y);
      }
    }
  }

  /** The cells `b` are the cells `a`, with the parent of `i` given to the first `k` arguments of
      `i` and to the arguments of the futures listed in `q` and not in `q0`. */
  ghost predicate Parented(calls: seq<Call>, a: seq<Cell>, b: seq<Cell>, q0: seq<nat>, q: seq<nat>, i: nat, k: nat)
    requires i < |calls| == |a|
  {
    && |b| == |a| && b[i] == a[i] && q0 <= q
    && forall y | 0 <= y < |a| ::
         b[y] == if UsesAmong(calls[i], k, y) || UsedByNew(calls, q0, q, y)
                 then a[y].(parent := a[i].parent) else a[y]
  }

  /** After the next argument `j` was given its parent and was enqueued. */
  lemma {:induction false} ParentedNext(calls: seq<Call>, a: seq<Cell>, b: seq<Cell>, c: seq<Cell>, q0: seq<nat>,
      q: seq<nat>, i: nat, k: nat, j: nat)
    requires ValidCalls(calls) && i < |calls| == |a| && j < i && k < |calls[i].kwargs| && |c| == |a|
    requires Parented(calls, a, b, q0, q, i, k) && q == EnqueueArgs(calls, q0, i, k)
    requires calls[i].kwargs[k].arg == Upstream(j)
    requires forall y | 0 <= y < |a| ::
               c[y] == if y == j || UsedByNew(calls, q, Enqueue(calls, q, j), y)
                       then b[y].(parent := a[i].parent) else b[y]
    ensures Parented(calls, a, c, q0, Enqueue(calls, q, j), i, k + 1)
  {
    var r := Enqueue(calls, q, j);
    EnqueueExtends(calls, q, j);
    UsesNext(calls[i], k, j);
    UsedByMore(calls, q0, q, r);
    EnqueueBelow(calls, q0, i, k + 1);
    assert !UsedByNew(calls, q0, r, i);
  }

  lemma UsedByMore(calls: seq<Call>, q0: seq<nat>, q: seq<nat>, q': seq<nat>)
    requires q0 <= q <= q'
    ensures forall y: nat :: UsedByNew(calls, q0, q', y) <==> UsedByNew(calls, q0, q, y) || UsedByNew(calls, q, q', y)
  {
  }

  /** The first future newly listed is `i`. */
  lemma UsedByListed(calls: seq<Call>, queue: seq<nat>, futures: seq<nat>, i: nat)
    requires i < |calls| && i !in queue && queue + [i] <= futures
    ensures forall y: nat ::
              UsedByNew(calls, queue, futures, y)
              <==> UsesAmong(calls[i], |calls[i].kwargs|, y) || UsedByNew(calls, queue + [i], futures, y)
  {
    assert (queue + [i])[|queue|] == i && i in futures;
    forall y: nat
      ensures UsedByNew(calls, queue, futures, y)
         <==> UsesAmong(calls[i], |calls[i].kwargs|, y) || UsedByNew(calls, queue + [i], futures, y)
    {
      assert UsesAmong(calls[i], |calls[i].kwargs|, y) <==> Uses(calls[i], y);
      if x: nat :| x in futures && x !in queue && x < |calls| && Uses(calls[x], y) {
        assert x == i || x !in queue + [i];
      }
    }
  }

  lemma {:induction false} EnqueueExtends(calls: seq<Call>, queue: seq<nat>, i: nat)
    ensures queue <= Enqueue(calls, queue, i)
    decreases i, 1, 0
  {
    if i !in queue && i < |calls| {
      EnqueueArgsExtends(calls, queue + [i], i, |calls[i].kwargs|);
      assert queue <= queue + [i] <= Enqueue(calls, queue, i);
    }
  }

  lemma {:induction false} EnqueueArgsExtends(calls: seq<Call>, queue: seq<nat>, i: nat, k: nat)
    requires i < |calls| && k <= |calls[i].kwargs|
    ensures queue <= EnqueueArgs(calls, queue, i, k)
    decreases i, 0, k
  {
    if k > 0 {
      EnqueueArgsExtends(calls, queue, i, k - 1);
      match calls[i].kwargs[k - 1].arg
      case Concrete(_) =>
      case Upstream(j) =>
        if j < i {
          EnqueueExtends(calls, EnqueueArgs(calls, queue, i, k - 1), j);
        }
    }
  }

  /** Enqueuing the arguments of `i` lists earlier futures only. */
  lemma {:induction false} EnqueueBelow(calls: seq<Call>, queue: seq<nat>, i: nat, k: nat)
    requires ValidCalls(calls) && i < |calls| && k <= |calls[i].kwargs|
    ensures forall x | x in EnqueueArgs(calls, queue, i, k) && x !in queue :: x < i
    decreases i, 0, k
  {
    if k > 0 {
      EnqueueBelow(calls, queue, i, k - 1);
      match calls[i].kwargs[k - 1].arg
      case Concrete(_) =>
      case Upstream(j) =>
        var before := EnqueueArgs(calls, queue, i, k - 1);
        if j < i && j !in before {
          EnqueueBelow(calls, before + [j], j, |calls[j].kwargs|);
          var r := EnqueueArgs(calls, before + [j], j, |calls[j].kwargs|);
          assert r == EnqueueArgs(calls, queue, i, k);
          forall x | x in r && x !in queue ensures x < i {
            assert x !in before + [j] ==> x < j;
          }
        }
    }
  }

  lemma {:induction false} ChainBelow(cells: seq<Cell>, i: nat)
    ensures forall j | j in CallChain(cells, i) :: j <= i
    decreases i
  {
    if i < |cells| && cells[i].parent.Some? && cells[i].parent.value < i {
      ChainBelow(cells, cells[i].parent.value);
    }
  }

  /** From `q` on, `chain` is the call chain of `q`. */
  ghost predicate OnChain(s: State, chain: seq<nat>, q: nat) {
    q < |s.cells| && forall j :: j in chain && j <= q <==> j in CallChain(s.cells, q)
  }

  lemma ChainStep(s: State, chain: seq<nat>, q: nat)
    requires Linked(s) && OnChain(s, chain, q)
    ensures q in chain
    ensures s.cells[q].parent.Some? ==>
              var u := s.cells[q].parent.value;
              u < q && OnChain(s, chain, u) && u in chain && forall j | j in chain :: j <= u || j == q || j > q
    ensures s.cells[q].parent.None? ==> forall j | j in chain :: j == q || j > q
  {
    assert ParentBelow(s, q);
    if s.cells[q].parent.Some? {
      ChainBelow(s.cells, s.cells[q].parent.value);
    }
  }

  /** The two states differ in noted arguments only. */
  ghost predicate SameProgress(s: State, t: State) {
    && s.calls == t.calls && s.queue == t.queue && |s.cells| == |t.cells| == |s.calls|
    && forall j | 0 <= j < |s.cells| ::
         s.cells[j].(resolvedKwargs := map[]) == t.cells[j].(resolvedKwargs := map[])
  }

  lemma {:induction false} SameScheduled(s: State, t: State, queue: seq<nat>)
    requires SameProgress(s, t)
    ensures ScheduledIn(s, queue) == ScheduledIn(t, queue)
    decreases |queue|
  {
    if queue != [] {
      SameScheduled(s, t, queue[..|queue| - 1]);
      var i := queue[|queue| - 1];
      assert i < |s.cells| ==> s.cells[i].(resolvedKwargs := map[]).state == t.cells[i].(resolvedKwargs := map[]).state;
    }
  }

  lemma SameWork(limit: Limit, s: State, t: State, i: nat)
    requires SameProgress(s, t) && i < |s.cells|
    ensures HasWork(limit, s, i) == HasWork(limit, t, i)
    ensures s.cells[i].state == t.cells[i].state
  {
    SameScheduled(s, t, s.queue);
    forall j | 0 <= j < |s.cells|
      ensures s.cells[j].state == t.cells[j].state && s.cells[j].value == t.cells[j].value
              && s.cells[j].nested == t.cells[j].nested
    {
      assert s.cells[j].(resolvedKwargs := map[]) == t.cells[j].(resolvedKwargs := map[]);
    }
    assert Known(s) == Known(t);
  }

  ghost function Higher(a: nat, b: nat): nat {
    if a < b then b else a
  }

  /** With a limit on the cloud, at most that many standalone futures are SCHEDULED, and `peak`, the
      most there were at a time, is within it. What is SCHEDULED is listed. */
  ghost predicate WithinParallelism(kind: Kind, s: State, peak: nat) {
    && |s.cells| == |s.calls| && (forall j: nat | IsScheduled(s, j) :: j in s.queue)
    && (kind.Cloud? && kind.maxParallelism.Some? ==>
          |StandaloneScheduled(s)| <= peak <= kind.maxParallelism.value)
  }

  lemma NothingIsScheduled(kind: Kind, s: State)
    requires |s.cells| == |s.calls| && forall j | 0 <= j < |s.cells| :: s.cells[j].state != SCHEDULED
    ensures WithinParallelism(kind, s, 0)
  {
    assert StandaloneScheduled(s) == {};
  }

  lemma SameParallelism(kind: Kind, s: State, t: State, peak: nat)
    requires SameProgress(s, t) && WithinParallelism(kind, s, peak)
    ensures WithinParallelism(kind, t, peak)
  {
    forall j | 0 <= j < |s.cells| ensures s.cells[j].state == t.cells[j].state {
      assert s.cells[j].(resolvedKwargs := map[]).state == t.cells[j].(resolvedKwargs := map[]).state;
    }
    assert StandaloneScheduled(t) == StandaloneScheduled(s);
    assert forall j: nat :: IsScheduled(t, j) <==> IsScheduled(s, j);
  }

  /** What the main loop keeps while it takes actions: `t` is reached from `s` by a run, and
      is closer to the end unless arguments were only noted. */
  ghost predicate Advances(p: Program, n: nat, limit: Limit, s: State, t: State, strictly: bool) {
    && Fit(p, s) && Fit(p, t) && Bounded(p, n, t.calls) && Reaches(p, limit, s, t)
    && s.calls <= t.calls && s.queue <= t.queue
    && Measure(p, AllSteps, n, t) <= Measure(p, AllSteps, n, s)
    && (strictly ==> Measure(p, AllSteps, n, t) < Measure(p, AllSteps, n, s))
  }

  lemma AdvancesRefl(p: Program, n: nat, limit: Limit, s: State)
    requires Fit(p, s) && Bounded(p, n, s.calls)
    ensures Advances(p, n, limit, s, s, false)
  {
    ReachesRefl(p, limit, s);
  }

  lemma AdvancesBy(p: Program, n: nat, limit: Limit, s: State, t: State, a: Action, strictly: bool)
    requires p.Valid() && Advances(p, n, limit, s, t, strictly) && Enabled(limit, t, a)
    ensures Advances(p, n, limit, s, Apply(p, t, a), strictly || !a.Prepare?)
  {
    ActionKeepsFit(p, limit, t, a);
    ActionKeepsBounded(p, n, limit, t, a);
    MeasureDrops(p, AllSteps, n, limit, t, a);
    ReachesStep(p, limit, s, t, a);
  }

  lemma AdvancesTrans(p: Program, n: nat, limit: Limit, s: State, t: State, u: State, a: bool, b: bool)
    requires Advances(p, n, limit, s, t, a) && Advances(p, n, limit, t, u, b)
    ensures Advances(p, n, limit, s, u, a || b)
  {
    ReachesTrans(p, limit, s, t, u);
  }

  /** Only a failure that is not retried ends the run. */
  lemma SettledLive(p: Program, s: State, i: nat)
    requires p.Valid() && Live(s) && i < |s.cells| == |s.calls| && s.cells[i].state == SCHEDULED
    ensures var t := Apply(p, s, Settle(i));
            && |s.cells| <= |t.cells|
            && (if OutcomeOf(p, s, i).Raised?
                 && !p.Retried(s.calls[i].func, s.cells[i].resolvedKwargs, s.cells[i].retryCount)
                then t.cells[i].state == FAILED
                else Live(t) && t.cells[i].state != SCHEDULED && forall j | 0 <= j < |s.cells| && j != i ::
                  t.cells[j] == s.cells[j])
            && (forall j | |s.cells| <= j < |t.cells| :: t.cells[j].state == CREATED)
  {
  }

  /** Taking in an outcome lists futures after those listed. */
  lemma SettleExtends(p: Program, s: State, i: nat)
    requires p.Valid() && Linked(s) && i < |s.cells|
    ensures var t := Apply(p, s, Settle(i));
            |t.cells| == |t.calls| && s.calls <= t.calls && s.queue <= t.queue
  {
    if OutcomeOf(p, s, i).ReturnedFuture? {
      SpawnLinked(s, i, OutcomeOf(p, s, i).layer);
    }
  }

  /** Taking in the outcome of one execution leaves the others executing, unless it ends the run. */
  lemma SettleLeavesOthers(p: Program, s: State, i: nat, j: nat)
    requires i < |s.cells| == |s.calls| && j < |s.cells| && i != j
    ensures var t := Apply(p, s, Settle(i));
            && j < |t.cells|
            && (t.cells[j].state == s.cells[j].state ||
                (OutcomeOf(p, s, i).Raised? && t.cells[j].state == NESTED_FAILED
                 && !p.Retried(s.calls[i].func, s.cells[i].resolvedKwargs, s.cells[i].retryCount)))
  {
  }

  /** Those that were SCHEDULED in `s` and are not among `ids` still are, or were swept if a failure
      ended the run. */
  ghost predicate OthersExecute(s: State, ids: seq<nat>, cells: seq<Cell>, ended: bool) {
    forall i: nat | i < |s.cells| && i !in ids && s.cells[i].state == SCHEDULED ::
      i < |cells| && (cells[i].state == SCHEDULED || (ended && cells[i].state == NESTED_FAILED))
  }

  // ------------------------------------------------------------------ class

  class StateMachineRunner {
    const program: Program
    const kind: Kind
    /** Whether the server reports, at its `k`-th poll, that the job of a future has ended. */
    const serverDone: (nat, nat) -> bool

    var calls: seq<Call>
    var cells: seq<Cell>
    var futures: seq<nat>
    var polls: nat
    /** The most standalone futures that were SCHEDULED at a time, in all states passed through. It
        can only grow when a future becomes SCHEDULED. */
    ghost var peak: nat

    constructor (program: Program, kind: Kind, serverDone: (nat, nat) -> bool)
      ensures this.program == program && this.kind == kind && this.serverDone == serverDone
      ensures S() == State([], [], [])
    {
      this.program, this.kind, this.serverDone := program, kind, serverDone;
      calls, cells, futures, polls, peak := [], [], [], 0, 0;
    }

    function S(): State
      reads this
    {
      State(calls, cells, futures)
    }

    function Limit(): Limit {
      if kind.Cloud? && kind.maxParallelism.Some?
      then AtMost(kind.maxParallelism.value)
      else Unlimited
    }

    /** Every job ends at some time. */
    ghost predicate Fair() {
      forall k: nat, i: nat :: EventuallyDone(k, i)
    }

    ghost predicate EventuallyDone(k: nat, i: nat) {
      exists m: nat :: k <= m && serverDone(m, i)
    }

    /** Between two steps of the main loop. */
    ghost predicate Ok()
      reads this
    {
      program.Valid() && Fit(program, S()) && Live(S())
    }

    /** Only futures that run as separate jobs are left executing. */
    ghost predicate AtRest()
      reads this
      requires |cells| == |calls|
    {
      forall i | 0 <= i < |cells| && cells[i].state == SCHEDULED :: calls[i].standalone && kind.Cloud?
    }

    // -------------------------------------------------------------- state changes

    method SetFutureState(i: nat, state: FutureState)
      requires i < |cells| == |calls|
      modifies this`cells, this`peak
      ensures cells == old(cells)[i := old(cells)[i].(state := state)]
      ensures peak == if state == SCHEDULED then Higher(old(peak), |StandaloneScheduled(S())|) else old(peak)
    {
      cells := cells[i := cells[i].(state := state)];
      if state == SCHEDULED {
        peak := Higher(peak, |StandaloneScheduled(S())|);
      }
    }

    method EnqueueFuture(i: nat)
      requires ValidCalls(calls) && |cells| == |calls| && i < |calls|
      modifies this`futures, this`cells
      ensures futures == Enqueue(calls, old(futures), i)
      ensures |cells| == |old(cells)|
      ensures forall y | 0 <= y < |cells| ::
                cells[y] == if UsedByNew(calls, old(futures), futures, y)
                            then old(cells)[y].(parent := old(cells)[i].parent) else old(cells)[y]
      decreases i
    {
      if i in futures {
        return;
      }
      ghost var q0 := futures + [i];
      futures := futures + [i];
      var kwargs := calls[i].kwargs;
      var k := 0;
      while k < |kwargs|
        invariant 0 <= k <= |kwargs| && |cells| == |calls|
        invariant futures == EnqueueArgs(calls, q0, i, k) && Parented(calls, old(cells), cells, q0, futures, i, k)
      {
        if kwargs[k].arg.Upstream? {
          var j := kwargs[k].arg.id;
          assert Uses(calls[i], j);
          ghost var q, c := futures, cells;
          cells := cells[j := cells[j].(parent := cells[i].parent)];
          EnqueueFuture(j);
          ParentedNext(calls, old(cells), c, cells, q0, q, i, k, j);
        } else {
          forall y: nat ensures UsesAmong(calls[i], k + 1, y) <==> UsesAmong(calls[i], k, y) {}
        }
        k := k + 1;
      }
      UsedByListed(calls, old(futures), futures, i);
    }

    /** Allocates the futures a function created and nests the one it returned. */
    method SetNestedFuture(i: nat, layer: Layer)
      requires Linked(S()) && i < |cells| && ValidLayer(layer.calls)
      modifies this`calls, this`cells, this`futures
      ensures S() == Spawn(old(S()), i, layer).(cells := cells)
      ensures cells == old(cells)[i := old(cells)[i].(nested := Some(|calls| - 1))]
                       + seq(|layer.calls|, _ => FRESH_CELL.(parent := Some(i)))
    {
      ghost var s, base := S(), |calls|;
      calls := calls + ShiftCalls(layer.calls, |calls|);
      cells := cells + seq(|layer.calls|, _ => FRESH_CELL);
      var nested := |calls| - 1;
      cells := cells[i := cells[i].(nested := Some(nested))];
      cells := cells[nested := cells[nested].(parent := Some(i))];
      SpawnCalls(s.calls, layer.calls);
      ghost var before := cells;
      EnqueueFuture(nested);
      UsedInLayer(calls, s.queue, base, futures);
      assert forall y | 0 <= y < |cells| :: cells[y] == if y < base then before[y] else FRESH_CELL.(parent := Some(i));
    }

    /** The outcome of future `i` was taken in, and raised if it failed for good. */
    ghost predicate Settled(s: State, i: nat, r: Attempt)
      reads this
      requires i < |s.cells| == |s.calls|
    {
      && S() == Apply(program, s, Settle(i))
      && (r.Done? ==> r.changed)
      && (r.PipelineRunError? <==>
            OutcomeOf(program, s, i).Raised?
              && !program.Retried(s.calls[i].func, s.cells[i].resolvedKwargs, s.cells[i].retryCount))
    }

    // ---------------------------------------------------------------- failures

    method FailFutureAndParents(i: nat)
      requires Linked(S()) && i < |cells|
      modifies this`cells, this`peak
      ensures S() == Sweep(old(S()), i) && peak == old(peak)
    {
      ghost var s, chain := S(), CallChain(S().cells, i);
      ChainBelow(s.cells, i);
      ChainStep(s, chain, i);
      SetFutureState(i, FAILED);
      var parent := cells[i].parent;
      while parent.Some?
        invariant |cells| == |s.cells| && peak == old(peak)
        invariant parent.Some? ==> parent.value < i && parent.value in chain && OnChain(s, chain, parent.value)
        invariant forall j | 0 <= j < |cells| ::
                    cells[j] == if j == i then s.cells[j].(state := FAILED)
                                else if j in chain && (parent.Some? ==> parent.value < j)
                                  then s.cells[j].(state := NESTED_FAILED)
                                else s.cells[j]
        decreases if parent.Some? then parent.value + 1 else 0
      {
        var q := parent.value;
        ChainStep(s, chain, q);
        SetFutureState(q, NESTED_FAILED);
        parent := cells[q].parent;
      }
    }

    /** Retries the future if its settings allow it, and fails the pipeline otherwise. */
    method HandleFutureFailure(i: nat, exception: Option<ExceptionMetadata>, external: Option<ExceptionMetadata>)
      returns (r: Attempt)
      requires Linked(S()) && i < |cells|
      requires var o := OutcomeOf(program, S(), i); o.Raised? && o.exception == exception && o.external == external
      modifies this`cells, this`peak
      ensures Settled(old(S()), i, r) && peak == old(peak)
      ensures r.Done? <==>
                var settings := program.retry(calls[i].func);
                && settings.Some? && (Listed(settings.value, exception) || Listed(settings.value, external))
                && old(cells)[i].retryCount < settings.value.retries
      ensures var c := old(cells)[i];
              S() == if r.Done? then SetCell(old(S()), i, c.(state := RETRYING, retryCount := c.retryCount + 1))
                     else Sweep(old(S()), i)
    {
      RetriedIff(program, calls[i].func, cells[i].resolvedKwargs, cells[i].retryCount);
      var settings := program.retry(calls[i].func);
      if settings.None? {
        FailFutureAndParents(i);
        return PipelineRunError;
      }
      if !settings.value.ShouldRetry(cells[i].retryCount, [exception, external]) {
        FailFutureAndParents(i);
        return PipelineRunError;
      }
      SetFutureState(i, RETRYING);
      cells := cells[i := cells[i].(retryCount := cells[i].retryCount + 1)];
      r := Done(true);
    }

    // ----------------------------------------------------------------- execution

    /** Takes in what the function of future `i` gave back: a value or a nested future. */
    method UpdateFutureWithValue(i: nat, outcome: Outcome) returns (r: Attempt)
      requires program.Valid() && Linked(S()) && i < |cells| && cells[i].state == SCHEDULED
      requires outcome == OutcomeOf(program, S(), i) && (outcome.Raised? ==> outcome.byCast)
      modifies this`calls, this`cells, this`futures, this`peak
      ensures Settled(old(S()), i, r) && peak == old(peak)
    {
      match outcome {
        case Returned(v) =>
          cells := cells[i := cells[i].(value := Some(v))];
          SetFutureState(i, RESOLVED);
          r := Done(true);
        case ReturnedFuture(layer) =>
          ghost var s := S();
          SetNestedFuture(i, layer);
          SetFutureState(i, RAN);
          assert cells == Spawn(s, i, layer).cells;
          r := Done(true);
        case Raised(exception, external, _) =>
          // the value does not have the function's output type
          r := HandleFutureFailure(i, exception, external);
      }
    }

    /** Runs the function of future `i` in the runner's own process. */
    method RunInline(i: nat) returns (r: Attempt)
      requires Ok() && Enabled(Limit(), S(), Begin(i))
      modifies this`calls, this`cells, this`futures, this`peak
      ensures Settled(Apply(program, old(S()), Begin(i)), i, r) && Noticed(old(S()), i, old(peak))
    {
      ghost var s := S();
      ActionKeepsFit(program, Limit(), s, Begin(i));
      SetFutureState(i, SCHEDULED);
      ghost var t := S();
      cells := cells[i := cells[i].(executions := cells[i].executions + 1)];
      assert S() == Apply(program, s, Begin(i));
      assert StandaloneScheduled(t) == StandaloneScheduled(S());
      var outcome := program.behave(calls[i].func, cells[i].resolvedKwargs, cells[i].retryCount);
      if outcome.Raised? && !outcome.byCast {
        r := HandleFutureFailure(i, outcome.exception, outcome.external);
      } else {
        r := UpdateFutureWithValue(i, outcome);
      }
    }

    /** The number of standalone futures that are SCHEDULED once future `i` is was noticed. */
    ghost predicate Noticed(s: State, i: nat, before: nat)
      reads this
      requires i < |s.cells| == |s.calls|
    {
      peak == Higher(before, |StandaloneScheduled(Apply(program, s, Begin(i)))|)
    }

    /** Submits future `i`: a job of its own on the cluster, inline execution otherwise. */
    method ScheduleFuture(i: nat) returns (r: Attempt)
      requires Ok() && Enabled(Limit(), S(), Begin(i))
      modifies this`calls, this`cells, this`futures, this`peak
      ensures kind.Cloud? ==> S() == Apply(program, old(S()), Begin(i)) && r == Done(true)
      ensures kind.Silent? ==> Settled(Apply(program, old(S()), Begin(i)), i, r)
      ensures Noticed(old(S()), i, old(peak))
    {
      if kind.Cloud? {
        SetFutureState(i, SCHEDULED);
        ghost var t := S();
        cells := cells[i := cells[i].(executions := cells[i].executions + 1)];
        assert StandaloneScheduled(t) == StandaloneScheduled(S());
        r := Done(true);
      } else {
        r := RunInline(i);
      }
    }

    method GetRemoteRunsCount() returns (n: nat)
      requires |cells| == |calls| && forall i | i in futures :: i < |cells|
      ensures n == ScheduledIn(S(), futures)
    {
      n := 0;
      for k := 0 to |futures|
        invariant n == ScheduledIn(S(), futures[..k])
      {
        assert futures[..k + 1][..k] == futures[..k];
        assert futures[k] in futures;
        if cells[futures[k]].state == SCHEDULED {
          n := n + 1;
        }
      }
      assert futures[..|futures|] == futures;
    }

    method CanScheduleFuture(i: nat) returns (can: bool)
      requires |cells| == |calls| && i < |calls| && forall j | j in futures :: j < |cells|
      ensures can == CanSchedule(Limit(), S(), i)
      ensures NoDuplicates(futures) ==>
                (can <==> !(kind.Cloud? && kind.maxParallelism.Some? && calls[i].standalone)
                          || |ScheduledOf(S(), futures)| < kind.maxParallelism.value)
    {
      if NoDuplicates(futures) {
        ScheduledInCounts(S(), futures);
      }
      if kind.Silent? || !calls[i].standalone || Limit().Unlimited? {
        return true;
      }
      var remoteRuns := GetRemoteRunsCount();
      can := remoteRuns < Limit().n;
    }

    /** Starts future `i` if the parallelism limit allows it. */
    method ExecuteFuture(i: nat) returns (r: Attempt)
      requires Ok() && i < |calls|
      requires CanSchedule(Limit(), S(), i) ==> Enabled(Limit(), S(), Begin(i))
      modifies this`calls, this`cells, this`futures, this`peak
      ensures !CanSchedule(Limit(), old(S()), i) ==> S() == old(S()) && r == Done(false) && peak == old(peak)
      ensures CanSchedule(Limit(), old(S()), i) ==> Noticed(old(S()), i, old(peak))
      ensures CanSchedule(Limit(), old(S()), i) ==>
                var s := Apply(program, old(S()), Begin(i));
                if old(calls)[i].standalone && kind.Cloud? then S() == s && r == Done(true)
                else Settled(s, i, r)
    {
      var can := CanScheduleFuture(i);
      if !can {
        return Done(false);
      }
      if calls[i].standalone {
        r := ScheduleFuture(i);
      } else {
        r := RunInline(i);
      }
    }

    method GetConcreteKwargs(i: nat) returns (concrete: map<string, Value>)
      requires i < |calls|
      ensures concrete == Bind(calls[i].kwargs, Known(S()))
      ensures |concrete| == |calls[i].kwargs| <==> Ready(S(), i)
    {
      var kwargs := calls[i].kwargs;
      ghost var known := Known(S());
      concrete := map[];
      for k := 0 to |kwargs|
        invariant concrete == BindTo(kwargs, k, known)
      {
        match kwargs[k].arg {
          case Concrete(v) => concrete := concrete[kwargs[k].name := v];
          case Upstream(j) =>
            if j < |cells| && cells[j].state == RESOLVED && cells[j].value.Some? {
              concrete := concrete[kwargs[k].name := cells[j].value.value];
            }
        }
      }
      BindToWhole(kwargs, known);
      BindToSize(kwargs, |kwargs|, known);
    }

    /** The effect of executing future `i` in state `s`, in which it can be. */
    ghost predicate Executed(s: State, i: nat, r: Attempt)
      reads this
      requires i < |s.cells| == |s.calls|
    {
      if !CanSchedule(Limit(), s, i) then S() == s && r == Done(false)
      else if s.calls[i].standalone && kind.Cloud? then S() == Apply(program, s, Begin(i)) && r == Done(true)
      else Settled(Apply(program, s, Begin(i)), i, r)
    }

    /** What was noticed of parallelism while future `i` was executed, in a state `s`. */
    ghost predicate Tracked(s: State, i: nat, before: nat)
      reads this
      requires i < |s.cells| == |s.calls|
    {
      if CanSchedule(Limit(), s, i) then Noticed(s, i, before) else peak == before
    }

    method ScheduleFutureIfArgsConcrete(i: nat) returns (r: Attempt)
      requires Ok() && i < |calls| && cells[i].state == CREATED
      modifies this`calls, this`cells, this`futures, this`peak
      ensures if Ready(old(S()), i) then Executed(Apply(program, old(S()), Prepare(i)), i, r)
              else S() == old(S()) && r == Done(false)
      ensures if Ready(old(S()), i) then Tracked(Apply(program, old(S()), Prepare(i)), i, old(peak))
              else peak == old(peak)
    {
      var concrete := GetConcreteKwargs(i);
      if |concrete| == |calls[i].kwargs| {
        ghost var s := S();
        cells := cells[i := cells[i].(resolvedKwargs := concrete)];
        assert S() == Apply(program, s, Prepare(i));
        ActionKeepsFit(program, Limit(), s, Prepare(i));
        assert SameProgress(s, S());
        PreparedReady(program, s, i);
        r := ExecuteFuture(i);
      } else {
        r := Done(false);
      }
    }

    /** Takes over the value of the nested future, if it is resolved. */
    method RunNestedFuture(i: nat) returns (changed: bool)
      requires Ok() && i < |cells| && cells[i].state == RAN
      modifies this`cells, this`peak
      ensures changed <==> Enabled(Limit(), old(S()), Bubble(i))
      ensures peak == old(peak)
      ensures S() == if changed then Apply(program, old(S()), Bubble(i)) else old(S())
    {
      assert RanNested(S(), i);
      var nested := cells[i].nested.value;
      cells := cells[nested := cells[nested].(parent := Some(i))];
      assert cells == old(cells);
      if cells[nested].state == RESOLVED {
        cells := cells[i := cells[i].(value := cells[nested].value)];
        SetFutureState(i, RESOLVED);
        return true;
      }
      changed := false;
    }

    /** One step of the main loop. */
    method VisitFuture(i: nat, ghost n: nat) returns (r: Attempt)
      requires Ok() && AtRest() && Bounded(program, n, calls) && i < |cells|
      modifies this`calls, this`cells, this`futures, this`peak
      ensures Visited(old(S()), i, n, r)
      ensures i in old(futures) && WithinParallelism(kind, old(S()), old(peak)) ==> WithinParallelism(kind, S(), peak)
    {
      ghost var s, before := S(), peak;
      AdvancesRefl(program, n, Limit(), s);
      if cells[i].state == CREATED {
        r := ScheduleFutureIfArgsConcrete(i);
        if Ready(s, i) {
          FollowPrepared(s, i, n, r);
          PreparedParallelism(s, i, before, r);
        }
        return;
      }
      if cells[i].state == RETRYING {
        r := ExecuteFuture(i);
        FollowExecution(s, s, i, n, r);
        FollowParallelism(s, s, i, before, r);
        return;
      }
      if cells[i].state == RAN {
        var changed := RunNestedFuture(i);
        if changed {
          FollowBubble(s, i, n);
          OtherKeepsParallelism(s, Bubble(i), before);
        }
        return Done(changed);
      }
      r := Done(false);
    }

    /** What one step of the main loop does: it advances, raises, or finds nothing to do. */
    ghost predicate Visited(s: State, i: nat, n: nat, r: Attempt)
      reads this
      requires i < |s.cells| == |s.calls|
    {
      && Advances(program, n, Limit(), s, S(), r == Done(true))
      && (r.Done? ==> Live(S()) && AtRest())
      && (r.PipelineRunError? ==> cells[i].state == FAILED)
      && (r == Done(false) ==>
            SameProgress(s, S()) && (HasWork(Limit(), s, i) ==> s.cells[i].state == SCHEDULED))
    }

    /** Scheduling a listed future, if the limit allows it, is within the parallelism. */
    lemma BeginKeepsParallelism(s: State, i: nat, before: nat)
      requires WithinParallelism(kind, s, before) && NoDuplicates(s.queue) && i in s.queue && i < |s.cells|
      requires CanSchedule(Limit(), s, i)
      ensures var t := Apply(program, s, Begin(i));
              |t.cells| == |t.calls| && WithinParallelism(kind, t, Higher(before, |StandaloneScheduled(t)|))
    {
      var t := Apply(program, s, Begin(i));
      if kind.Cloud? && kind.maxParallelism.Some? {
        BeginKeepsLimit(AtMost(kind.maxParallelism.value), s, i, t);
      }
    }

    lemma OtherKeepsParallelism(s: State, a: Action, before: nat)
      requires a.i < |s.cells| == |s.calls| && !a.Begin? && S() == Apply(program, s, a) && |calls| == |cells|
      requires s.calls <= calls && s.queue <= futures
      ensures WithinParallelism(kind, s, before) ==> WithinParallelism(kind, S(), before)
    {
      OthersScheduleNone(program, s, a, S());
      if WithinParallelism(kind, s, before) {
        forall j: nat | IsScheduled(S(), j) ensures j in futures {
          OnlyBeginSchedules(program, s, a, j);
          assert IsScheduled(s, j);
        }
      }
    }

    /** The state after executing future `i` of `t` is within the parallelism if `s` was. */
    lemma FollowParallelism(s: State, t: State, i: nat, before: nat, r: Attempt)
      requires i < |s.cells| && SameProgress(s, t) && NoDuplicates(s.queue)
      requires Executed(t, i, r) && Tracked(t, i, before)
      requires |calls| == |cells| && s.calls <= calls && s.queue <= futures
      ensures i in s.queue && WithinParallelism(kind, s, before) ==> WithinParallelism(kind, S(), peak)
    {
      if i in s.queue && WithinParallelism(kind, s, before) {
        SameParallelism(kind, s, t, before);
        if CanSchedule(Limit(), t, i) {
          BeginKeepsParallelism(t, i, before);
          if !(t.calls[i].standalone && kind.Cloud?) {
            OtherKeepsParallelism(Apply(program, t, Begin(i)), Settle(i), peak);
          }
        }
      }
    }

    lemma PreparedParallelism(s: State, i: nat, before: nat, r: Attempt)
      requires i < |s.cells| == |s.calls| && NoDuplicates(s.queue)
      requires var t := Apply(program, s, Prepare(i)); Executed(t, i, r) && Tracked(t, i, before)
      requires |calls| == |cells| && s.calls <= calls && s.queue <= futures
      ensures i in s.queue && WithinParallelism(kind, s, before) ==> WithinParallelism(kind, S(), peak)
    {
      FollowParallelism(s, Apply(program, s, Prepare(i)), i, before, r);
    }

    lemma FollowBubble(s: State, i: nat, n: nat)
      requires program.Valid() && Fit(program, s) && Live(s) && Bounded(program, n, s.calls)
      requires i < |s.cells| == |s.calls| && Enabled(Limit(), s, Bubble(i)) && S() == Apply(program, s, Bubble(i))
      requires forall j | 0 <= j < |s.cells| && s.cells[j].state == SCHEDULED :: s.calls[j].standalone && kind.Cloud?
      ensures Visited(s, i, n, Done(true))
    {
      AdvancesRefl(program, n, Limit(), s);
      AdvancesBy(program, n, Limit(), s, s, Bubble(i), false);
    }

    lemma FollowPrepared(s: State, i: nat, n: nat, r: Attempt)
      requires program.Valid() && Fit(program, s) && Live(s) && Bounded(program, n, s.calls)
      requires i < |s.cells| == |s.calls| && s.cells[i].state == CREATED && Ready(s, i)
      requires forall j | 0 <= j < |s.cells| && s.cells[j].state == SCHEDULED :: s.calls[j].standalone && kind.Cloud?
      requires Executed(Apply(program, s, Prepare(i)), i, r)
      ensures Visited(s, i, n, r)
    {
      AdvancesRefl(program, n, Limit(), s);
      AdvancesBy(program, n, Limit(), s, s, Prepare(i), false);
      PreparedReady(program, s, i);
      FollowExecution(s, Apply(program, s, Prepare(i)), i, n, r);
    }

    /** The state after executing future `i` of `t` is one the main loop can go on from. */
    lemma FollowExecution(s: State, t: State, i: nat, n: nat, r: Attempt)
      requires program.Valid() && Live(t) && Advances(program, n, Limit(), s, t, false) && i < |t.cells|
      requires SameProgress(s, t) && s.cells[i].state in {CREATED, RETRYING}
      requires forall j | 0 <= j < |t.cells| && t.cells[j].state == SCHEDULED :: t.calls[j].standalone && kind.Cloud?
      requires CanSchedule(Limit(), t, i) ==> Enabled(Limit(), t, Begin(i))
      requires Executed(t, i, r)
      ensures Visited(s, i, n, r)
    {
      if CanSchedule(Limit(), t, i) {
        FollowBegun(s, t, i, n, r);
      } else {
        SameWork(Limit(), s, t, i);
      }
    }

    lemma FollowBegun(s: State, t: State, i: nat, n: nat, r: Attempt)
      requires program.Valid() && Live(t) && Advances(program, n, Limit(), s, t, false) && i < |t.cells|
      requires i < |s.cells| == |s.calls|
      requires forall j | 0 <= j < |t.cells| && t.cells[j].state == SCHEDULED :: t.calls[j].standalone && kind.Cloud?
      requires CanSchedule(Limit(), t, i) && Enabled(Limit(), t, Begin(i)) && Executed(t, i, r)
      ensures Visited(s, i, n, r)
    {
      AdvancesBy(program, n, Limit(), s, t, Begin(i), false);
      if !(t.calls[i].standalone && kind.Cloud?) {
        FollowSettled(s, Apply(program, t, Begin(i)), i, n, r);
      }
    }

    /** The state after taking in an execution of `u` is one the main loop can go on from. */
    lemma FollowSettled(s: State, u: State, i: nat, n: nat, r: Attempt)
      requires program.Valid() && Live(u) && Advances(program, n, Limit(), s, u, false) && i < |u.cells| == |u.calls|
      requires u.cells[i].state == SCHEDULED && Settled(u, i, r)
      requires forall j | 0 <= j < |u.cells| && j != i && u.cells[j].state == SCHEDULED ::
                 u.calls[j].standalone && kind.Cloud?
      ensures Advances(program, n, Limit(), s, S(), true) && r != Done(false)
      ensures r.Done? ==> Live(S()) && AtRest()
      ensures r.PipelineRunError? ==> i < |cells| && cells[i].state == FAILED
      ensures r.Done? ==> forall j | 0 <= j < |u.cells| && j != i :: j < |cells| && cells[j] == u.cells[j]
    {
      SettledLive(program, u, i);
      AdvancesBy(program, n, Limit(), s, u, Settle(i), false);
    }

    // ------------------------------------------------------------------- waiting

    ghost predicate Executing(i: nat, standalone: bool)
      reads this
    {
      i < |cells| == |calls| && cells[i].state == SCHEDULED && calls[i].standalone == standalone
    }

    /** The executing futures that are, or are not, `standalone`, in list order. */
    method ScheduledFutures(standalone: bool) returns (ids: seq<nat>)
      requires Linked(S())
      ensures forall i: nat :: i in ids <==> i in futures && Executing(i, standalone)
      ensures NoDuplicates(ids) && InListOrder(futures, ids)
    {
      ids := [];
      for k := 0 to |futures|
        invariant forall i: nat :: i in ids <==> i in futures[..k] && Executing(i, standalone)
        invariant NoDuplicates(ids) && InListOrder(futures, ids)
      {
        assert futures[k] in futures;
        assert futures[..k + 1] == futures[..k] + [futures[k]];
        assert futures[k] !in futures[..k];
        ListedLater(futures, k, ids);
        if cells[futures[k]].state == SCHEDULED && calls[futures[k]].standalone == standalone {
          ids := ids + [futures[k]];
        }
      }
      assert futures[..|futures|] == futures;
    }

    /** At poll `q` the server reports that these of the jobs have ended. */
    ghost predicate EndedAt(jobs: seq<nat>, q: nat, ended: seq<nat>) {
      forall i: nat :: i in ended <==> i in jobs && serverDone(q, i)
    }

    /** At no poll from `q` on, up to `r`, any of the jobs has ended. */
    ghost predicate NoneEnded(jobs: seq<nat>, q: nat, r: nat) {
      forall m: nat | q <= m < r :: EndedAt(jobs, m, [])
    }

    /** Asks the server once which of these jobs have ended. */
    method PollJobs(scheduled: seq<nat>) returns (changed: seq<nat>)
      requires NoDuplicates(scheduled)
      modifies this`polls
      ensures polls == old(polls) + 1 && NoDuplicates(changed) && EndedAt(scheduled, old(polls), changed)
    {
      changed := [];
      for k := 0 to |scheduled|
        invariant NoDuplicates(changed)
        invariant forall i :: i in changed <==> i in scheduled[..k] && serverDone(polls, i)
      {
        assert scheduled[..k + 1] == scheduled[..k] + [scheduled[k]];
        if serverDone(polls, scheduled[k]) {
          changed := changed + [scheduled[k]];
        }
      }
      assert scheduled[..|scheduled|] == scheduled;
      polls := polls + 1;
    }

    /** Polls the server until the job of some scheduled future has ended. */
    method WaitForAnyRemoteJobs() returns (changed: seq<nat>, ghost scheduled: seq<nat>)
      requires Linked(S()) && Fair()
      modifies this`polls
      ensures forall i: nat :: i in scheduled <==> i in futures && Executing(i, true)
      ensures NoDuplicates(changed) && (changed != [] <==> scheduled != [])
      ensures changed != [] ==>
                && old(polls) < polls && NoneEnded(scheduled, old(polls), polls - 1)
                && EndedAt(scheduled, polls - 1, changed)
    {
      var scheduledFutures := ScheduledFutures(true);
      scheduled, changed := scheduledFutures, [];
      if scheduledFutures == [] {
        return;
      }
      assert EventuallyDone(polls, scheduled[0]);
      ghost var m: nat :| polls <= m && serverDone(m, scheduled[0]);
      while changed == []
        invariant old(polls) <= polls && NoDuplicates(changed)
        invariant changed == [] ==> polls <= m && NoneEnded(scheduled, old(polls), polls)
        invariant changed != [] ==>
                    && old(polls) < polls && NoneEnded(scheduled, old(polls), polls - 1)
                    && EndedAt(scheduled, polls - 1, changed)
        decreases changed == [], m - polls
      {
        changed := PollJobs(scheduledFutures);
      }
    }

    /** Takes in the outcome of a job that has ended. */
    method ProcessRunOutput(i: nat) returns (r: Attempt)
      requires Ok() && i < |cells| && cells[i].state == SCHEDULED
      modifies this`calls, this`cells, this`futures, this`peak
      ensures Settled(old(S()), i, r) && peak == old(peak)
    {
      var outcome := program.behave(calls[i].func, cells[i].resolvedKwargs, cells[i].retryCount);
      if outcome.Raised? && !outcome.byCast {
        r := HandleFutureFailure(i, outcome.exception, outcome.external);
      } else {
        r := UpdateFutureWithValue(i, outcome);
      }
    }

    lemma OutputKeepsParallelism(t: State, i: nat)
      requires program.Valid() && Linked(t) && i < |t.cells| == |t.calls| && S() == Apply(program, t, Settle(i))
      ensures WithinParallelism(kind, t, peak) ==> WithinParallelism(kind, S(), peak)
    {
      SettleExtends(program, t, i);
      OtherKeepsParallelism(t, Settle(i), peak);
    }

    lemma OthersGoOn(s: State, t: State, ids: seq<nat>, k: nat, r: Attempt)
      requires k < |ids| && ids[k] < |t.cells| == |t.calls|
      requires OthersExecute(s, ids, t.cells, false) && Settled(t, ids[k], r)
      ensures OthersExecute(s, ids, cells, r.PipelineRunError?)
    {
      forall i: nat | i < |s.cells| && i !in ids && s.cells[i].state == SCHEDULED
        ensures i < |cells| && (cells[i].state == SCHEDULED || (r.PipelineRunError? && cells[i].state == NESTED_FAILED))
      {
        SettleLeavesOthers(program, t, ids[k], i);
      }
    }

    /** Takes in the outcomes of executions that have ended, one by one. */
    method ProcessRunOutputs(ids: seq<nat>, ghost n: nat) returns (r: Attempt)
      requires Ok() && AtRest() && Bounded(program, n, calls)
      requires NoDuplicates(ids) && forall i: nat | i in ids :: i < |cells| && cells[i].state == SCHEDULED
      modifies this`calls, this`cells, this`futures, this`peak
      ensures Ongoing(old(S()), n, r)
      ensures r.Done? ==> r.changed == (ids != [])
      ensures OthersExecute(old(S()), ids, cells, r.PipelineRunError?)
      ensures WithinParallelism(kind, old(S()), old(peak)) ==> WithinParallelism(kind, S(), peak)
    {
      ghost var s := S();
      AdvancesRefl(program, n, Limit(), s);
      var k := 0;
      assert forall l | 0 <= l < |ids| :: ids[l] in ids;
      while k < |ids|
        invariant 0 <= k <= |ids|
        invariant Ok() && AtRest() && Advances(program, n, Limit(), s, S(), k > 0)
        invariant forall l | k <= l < |ids| :: ids[l] < |cells| && cells[ids[l]].state == SCHEDULED
        invariant OthersExecute(s, ids, cells, false)
        invariant WithinParallelism(kind, s, old(peak)) ==> WithinParallelism(kind, S(), peak)
      {
        ghost var t := S();
        r := ProcessRunOutput(ids[k]);
        OthersGoOn(s, t, ids, k, r);
        FollowSettled(s, t, ids[k], n, r);
        OutputKeepsParallelism(t, ids[k]);
        if r.PipelineRunError? {
          return;
        }
        k := k + 1;
      }
      r := Done(ids != []);
    }

    /** Whose outcome may be taken in: that of an inline execution, and only if there is none that of a
        job that the server has reported to have ended. */
    ghost predicate MayEnd(s: State, i: nat)
      reads this
    {
      && i < |s.cells| == |s.calls|
      && if exists j: nat :: j in s.queue && j < |s.cells| && s.cells[j].state == SCHEDULED && !s.calls[j].standalone
         then !s.calls[i].standalone else s.calls[i].standalone && polls > 0 && serverDone(polls - 1, i)
    }

    /** Executions whose outcome may not be taken in go on, unless a failure ended the run. */
    ghost predicate OnlyEndedSettle(s: State, ended: bool)
      reads this
    {
      forall i: nat | i < |s.cells| && s.cells[i].state == SCHEDULED && !MayEnd(s, i) ::
        i < |cells| && (cells[i].state == SCHEDULED || (ended && cells[i].state == NESTED_FAILED))
    }

    lemma OthersAreNotEnded(s: State, ids: seq<nat>, ended: bool)
      requires OthersExecute(s, ids, cells, ended) && forall i: nat | i in ids :: MayEnd(s, i)
      ensures OnlyEndedSettle(s, ended)
    {
    }

    /** Executions whose outcome may be taken in; some, if there is any execution. */
    method EndedExecutions() returns (ids: seq<nat>)
      requires Linked(S()) && Fair()
      modifies this`polls
      ensures NoDuplicates(ids)
      ensures forall i: nat | i in ids :: i < |cells| && cells[i].state == SCHEDULED && MayEnd(S(), i)
      ensures (exists i: nat :: i in futures && i < |cells| && cells[i].state == SCHEDULED) ==> ids != []
    {
      ids := ScheduledFutures(false);
      if ids == [] {
        ghost var scheduled;
        ids, scheduled := WaitForAnyRemoteJobs();
      } else {
        assert Executing(ids[0], false);
      }
      assert forall i: nat | i < |cells| && cells[i].state == SCHEDULED :: Executing(i, true) || Executing(i, false);
    }

    /** Waits for executions to end and takes in their outcomes; nothing to do when every
        execution is inline. */
    method WaitForScheduledRuns(ghost n: nat) returns (r: Attempt)
      requires Ok() && AtRest() && Bounded(program, n, calls) && Fair()
      modifies this
      ensures Ongoing(old(S()), n, r)
      ensures (exists i: nat :: i in old(futures) && i < |old(cells)| && old(cells)[i].state == SCHEDULED) ==>
                r != Done(false)
      ensures OnlyEndedSettle(old(S()), r.PipelineRunError?)
      ensures WithinParallelism(kind, old(S()), old(peak)) ==> WithinParallelism(kind, S(), peak)
    {
      if kind.Silent? {
        AdvancesRefl(program, n, Limit(), S());
        return Done(false);
      }
      ghost var s := S();
      var ids := EndedExecutions();
      assert S() == s;
      r := ProcessRunOutputs(ids, n);
      OthersAreNotEnded(s, ids, r.PipelineRunError?);
    }

    // ----------------------------------------------------------------- main loop

    /** The pipeline has advanced from `s` and either goes on or has failed. */
    ghost predicate Ongoing(s: State, n: nat, r: Attempt)
      reads this
    {
      && Advances(program, n, Limit(), s, S(), r == Done(true))
      && (r.Done? ==> Live(S()) && AtRest())
      && (r.PipelineRunError? ==> exists i: nat :: i < |cells| && cells[i].state == FAILED)
    }

    /** One pass of the main loop over the list, which grows meanwhile. */
    method VisitFutures(ghost n: nat) returns (r: Attempt)
      requires Ok() && AtRest() && Bounded(program, n, calls)
      modifies this`calls, this`cells, this`futures, this`peak
      ensures Ongoing(old(S()), n, r)
      ensures r == Done(false) ==> SameProgress(old(S()), S()) && AllIdle(Limit(), old(S()), |old(futures)|)
      ensures WithinParallelism(kind, old(S()), old(peak)) ==> WithinParallelism(kind, S(), peak)
    {
      ghost var s := S();
      AdvancesRefl(program, n, Limit(), s);
      var stateChanged := false;
      var k := 0;
      while k < |futures|
        invariant 0 <= k <= |futures|
        invariant Ok() && AtRest() && Advances(program, n, Limit(), s, S(), stateChanged)
        invariant !stateChanged ==> SameProgress(s, S()) && AllIdle(Limit(), s, k)
        invariant WithinParallelism(kind, s, old(peak)) ==> WithinParallelism(kind, S(), peak)
        decreases Measure(program, AllSteps, n, S()), |futures| - k
      {
        ghost var t := S();
        MeasureNonNegative(program, AllSteps, n, t);
        assert futures[k] in futures;
        var step := VisitFuture(futures[k], n);
        FollowVisit(s, t, k, n, stateChanged, step);
        if step.PipelineRunError? {
          return PipelineRunError;
        }
        stateChanged := stateChanged || step.changed;
        k := k + 1;
      }
      r := Done(stateChanged);
    }

    /** The state after visiting the `k`-th future of the list, in a pass that began in `s`. */
    lemma FollowVisit(s: State, t: State, k: nat, n: nat, stateChanged: bool, step: Attempt)
      requires Advances(program, n, Limit(), s, t, stateChanged) && |s.calls| == |s.cells|
      requires !stateChanged ==> SameProgress(s, t) && AllIdle(Limit(), s, k)
      requires k < |t.queue| && t.queue[k] < |t.cells| == |t.calls| && Visited(t, t.queue[k], n, step)
      ensures Advances(program, n, Limit(), s, S(), stateChanged || step == Done(true))
      ensures step == Done(false) && !stateChanged ==> SameProgress(s, S()) && AllIdle(Limit(), s, k + 1)
    {
      AdvancesTrans(program, n, Limit(), s, t, S(), stateChanged, step == Done(true));
      if step == Done(false) && !stateChanged {
        SameWork(Limit(), s, t, t.queue[k]);
      }
    }

    /** Runs the pipeline to its end. The recursive unfolding of the calls is finite, which
        `n` bounds; without that the pipeline itself does not end. */
    method PipelineRunLoop(ghost n: nat) returns (r: RunResult)
      requires Ok() && AtRest() && Bounded(program, n, calls) && Fair()
      modifies this
      ensures Fit(program, S()) && Reaches(program, Limit(), old(S()), S())
      ensures r.Success? ==> cells[0].value == Some(r.value) && Eval(program, n, old(calls), 0) == Val(r.value)
      ensures r.Failure? ==> Eval(program, n, old(calls), 0) == Fails
      ensures !r.NotConcrete?
      ensures if r.Success? then cells[0].state == RESOLVED
              else exists i: nat :: i < |cells| && cells[i].state == FAILED
      ensures WithinParallelism(kind, old(S()), old(peak)) ==> WithinParallelism(kind, S(), peak)
    {
      ghost var s := S();
      AdvancesRefl(program, n, Limit(), s);
      while !cells[0].state.IsTerminal()
        invariant Ok() && AtRest() && Advances(program, n, Limit(), s, S(), false)
        invariant WithinParallelism(kind, s, old(peak)) ==> WithinParallelism(kind, S(), peak)
        decreases Measure(program, AllSteps, n, S())
      {
        ghost var t := S();
        MeasureNonNegative(program, AllSteps, n, t);
        var step := VisitFutures(n);
        ghost var u := S();
        AdvancesTrans(program, n, Limit(), s, t, u, false, step == Done(true));
        if step == Done(false) {
          SomethingExecutes(program, Limit(), t, u);
          step := WaitForScheduledRuns(n);
          AdvancesTrans(program, n, Limit(), s, u, S(), false, step == Done(true));
        }
        if step.PipelineRunError? {
          RunFailed(program, n, s, S());
          return Failure;
        }
      }
      RunSucceeded(program, n, s, S());
      r := Success(cells[0].value.value);
    }

    /** Lists the root future alone, if all its arguments are concrete. */
    method EnqueueRootFuture(root: Call) returns (concrete: bool)
      modifies this`calls, this`cells, this`futures, this`peak
      ensures concrete <==> forall k | 0 <= k < |root.kwargs| :: root.kwargs[k].arg.Concrete?
      ensures concrete ==> S() == Apply(program, Initial(root), Prepare(0))
      ensures peak == 0 && WithinParallelism(kind, S(), peak)
    {
      calls, cells, futures, peak := [root], [FRESH_CELL], [], 0;
      RootReady(root, S());
      var kwargs := GetConcreteKwargs(0);
      concrete := |kwargs| == |root.kwargs|;
      if concrete {
        cells := cells[0 := cells[0].(resolvedKwargs := kwargs)];
        InitialEnqueued(root);
        EnqueueFuture(0);
        assert forall y: nat :: !UsedByNew(calls, [], [0], y);
        assert cells == [FRESH_CELL.(resolvedKwargs := kwargs)];
      }
      NothingIsScheduled(kind, S());
    }

    /** `run`: seeds the graph with the root future and runs the pipeline. */
    method Run(root: Call, ghost n: nat) returns (r: RunResult)
      requires program.Valid() && Fair() && Total(program, n, [root])
      modifies this
      ensures r.NotConcrete? <==> exists k | 0 <= k < |root.kwargs| :: root.kwargs[k].arg.Upstream?
      ensures r.Success? ==> Eval(program, n, [root], 0) == Val(r.value)
      ensures r.Failure? ==> Eval(program, n, [root], 0) == Fails
      ensures !r.NotConcrete? ==> Inv(program, S()) && Reaches(program, Limit(), Initial(root), S())
      ensures WithinParallelism(kind, S(), peak)
      ensures forall k: nat | IsLast(program, root.func, Bind(root.kwargs, []), k) && !r.NotConcrete? ::
                && cells[0].executions == k + 1
                && match program.behave(root.func, Bind(root.kwargs, []), k)
                   case Returned(v) => r == Success(v)
                   case Raised(_, _, _) => r == Failure
                   case ReturnedFuture(_) => true
    {
      var concrete := EnqueueRootFuture(root);
      if !concrete {
        return NotConcrete;
      }
      ghost var s, t := Initial(root), S();
      RootIsFit(program, n, Limit(), root);
      r := PipelineRunLoop(n);
      RootReaches(program, Limit(), root, t, S());
      forall k: nat | IsLast(program, root.func, Bind(root.kwargs, []), k)
        ensures RootAttempts(program, root, S(), r, k)
      {
        RootRetried(program, n, Limit(), root, S(), r, k);
      }
    }
  }

  /** A root call with its arguments noted is a state to go on from. */
  lemma RootIsFit(p: Program, n: nat, limit: Limit, root: Call)
    requires p.Valid() && Total(p, n, [root])
    requires forall k | 0 <= k < |root.kwargs| :: root.kwargs[k].arg.Concrete?
    ensures var t := Apply(p, Initial(root), Prepare(0));
            Fit(p, t) && Live(t) && Bounded(p, n, t.calls) && Reaches(p, limit, Initial(root), t)
  {
    var s := Initial(root);
    InitialInv(p, root);
    RootReady(root, s);
    ReachesRefl(p, limit, s);
    ReachesStep(p, limit, s, s, Prepare(0));
    ActionKeepsInv(p, limit, s, Prepare(0));
    InvIsFit(p, Apply(p, s, Prepare(0)));
    InvBlames(p, n, s);
  }

  lemma RootReaches(p: Program, limit: Limit, root: Call, t: State, u: State)
    requires p.Valid() && forall k | 0 <= k < |root.kwargs| :: root.kwargs[k].arg.Concrete?
    requires Reaches(p, limit, Initial(root), t) && Reaches(p, limit, t, u)
    ensures Inv(p, u) && Reaches(p, limit, Initial(root), u)
  {
    InitialInv(p, root);
    ReachesTrans(p, limit, Initial(root), t, u);
    var actions :| RunsTo(p, limit, Initial(root), actions, u);
    RunKeepsInv(p, limit, Initial(root), actions, u);
  }

  ghost predicate RootAttempts(p: Program, root: Call, t: State, r: RunResult, k: nat) {
    && t.cells != [] && t.cells[0].executions == k + 1
    && match p.behave(root.func, Bind(root.kwargs, []), k)
       case Returned(v) => r == Success(v)
       case Raised(_, _, _) => r == Failure
       case ReturnedFuture(_) => true
  }

  /** When a run has ended, its root was started as often as it takes, and if it returned no
      future, the run ended as its last attempt did. */
  lemma RootRetried(p: Program, n: nat, limit: Limit, root: Call, t: State, r: RunResult, k: nat)
    requires p.Valid() && forall k | 0 <= k < |root.kwargs| :: root.kwargs[k].arg.Concrete?
    requires Inv(p, t) && Reaches(p, limit, Initial(root), t) && !r.NotConcrete?
    requires Eval(p, n, [root], 0) == if r.Success? then Val(r.value) else Fails
    requires t.cells[0].state == RESOLVED || exists i: nat :: i < |t.cells| && t.cells[i].state == FAILED
    requires IsLast(p, root.func, Bind(root.kwargs, []), k)
    ensures RootAttempts(p, root, t, r, k)
  {
    var results := EvalAll(p, n, [root]);
    assert AgreeOn(root.kwargs, [], results) && AgreeOn(root.kwargs, [], Known(t));
    AgreeingArguments(p, n, root, [], results);
    AgreeingArguments(p, n, root, [], Known(t));
    RootHasNoInputs(root);
    RetriedCall(p, n, [root], 0, k);
    var actions :| RunsTo(p, limit, Initial(root), actions, t);
    InitialInv(p, root);
    RunEvolves(p, limit, Initial(root), actions, t);
    RunRetries(p, limit, root, actions, t, 0);
    RootIsDone(p, t);
    LastAttempt(p, root.func, Bind(root.kwargs, []), k);
    LastAttempt(p, root.func, Bind(root.kwargs, []), t.cells[0].executions - 1);
  }

  lemma RootHasNoInputs(root: Call)
    requires forall k | 0 <= k < |root.kwargs| :: root.kwargs[k].arg.Concrete?
    ensures ValidCalls([root])
  {
    assert forall j: nat :: !Uses(root, j);
  }

  /** If a future has failed, the root has had its last attempt: others come from it. */
  lemma RootIsDone(p: Program, t: State)
    requires Inv(p, t)
    requires t.cells[0].state == RESOLVED || exists i: nat :: i < |t.cells| && t.cells[i].state == FAILED
    ensures t.cells[0].state in {RAN, RESOLVED, FAILED, NESTED_FAILED}
    ensures t.cells[0].resolvedKwargs == Bind(t.calls[0].kwargs, Known(t))
  {
    assert CellOk(p, t, 0);
    if |t.cells| > 1 {
      assert HasParent(t, 1);
    }
  }

  /** A lone call is ready if no argument is a future; nothing is known yet. */
  lemma RootReady(root: Call, s: State)
    requires s.calls == [root] && s.cells == [FRESH_CELL]
    ensures Ready(s, 0) <==> forall k | 0 <= k < |root.kwargs| :: root.kwargs[k].arg.Concrete?
    ensures Known(s) == Known(Initial(root))
  {
    assert Known(s) == [Unknown];
    assert forall k | 0 <= k < |root.kwargs| ::
        Lookup(root.kwargs[k].arg, [Unknown]).Val? <==> root.kwargs[k].arg.Concrete?;
  }

  lemma InitialEnqueued(root: Call)
    requires forall k | 0 <= k < |root.kwargs| :: root.kwargs[k].arg.Concrete?
    ensures Enqueue([root], [], 0) == [0]
    ensures forall y: nat :: !Uses(root, y)
  {
    NoArgsEnqueued([root], [0], |root.kwargs|);
    assert [] + [0] == [0];
  }

  lemma {:induction false} NoArgsEnqueued(calls: seq<Call>, queue: seq<nat>, k: nat)
    requires calls != [] && k <= |calls[0].kwargs|
    requires forall l | 0 <= l < |calls[0].kwargs| :: calls[0].kwargs[l].arg.Concrete?
    ensures EnqueueArgs(calls, queue, 0, k) == queue
    decreases k
  {
    if k > 0 {
      NoArgsEnqueued(calls, queue, k - 1);
    }
  }

  /** What is picked from a list is in its order. */
  ghost predicate InListOrder(queue: seq<nat>, ids: seq<nat>) {
    forall a, b | 0 <= a < b < |ids| :: ListedBefore(queue, ids[a], ids[b])
  }

  ghost predicate ListedBefore(queue: seq<nat>, i: nat, j: nat) {
    exists k, l | 0 <= k < l < |queue| :: queue[k] == i && queue[l] == j
  }

  lemma ListedLater(queue: seq<nat>, k: nat, ids: seq<nat>)
    requires k < |queue| && InListOrder(queue, ids) && forall i | i in ids :: i in queue[..k]
    ensures InListOrder(queue, ids + [queue[k]])
  {
    forall a | 0 <= a < |ids| ensures ListedBefore(queue, ids[a], queue[k]) {
      assert ids[a] in queue[..k];
    }
  }

  /** There is nothing to do but wait for any of the first `k` futures listed. */
  ghost predicate AllIdle(limit: Limit, s: State, k: nat)
    requires |s.cells| == |s.calls|
  {
    forall l | 0 <= l < k && l < |s.queue| && s.queue[l] < |s.cells| ::
      HasWork(limit, s, s.queue[l]) ==> s.cells[s.queue[l]].state == SCHEDULED
  }

  /** A pass that changed nothing leaves something to wait for. */
  lemma SomethingExecutes(p: Program, limit: Limit, s: State, t: State)
    requires Fit(p, s) && Live(s) && !s.cells[0].state.IsTerminal() && SameProgress(s, t)
    requires limit.AtMost? ==> limit.n >= 1
    requires AllIdle(limit, s, |s.queue|)
    ensures exists i: nat :: i in t.queue && i < |t.cells| && t.cells[i].state == SCHEDULED
  {
    forall i: nat | ListedWork(limit, s, i) ensures s.cells[i].state == SCHEDULED {
      var l :| 0 <= l < |s.queue| && s.queue[l] == i;
      assert HasWork(limit, s, s.queue[l]);
    }
    NeverStuck(p, limit, s);
    var i: nat :| i in s.queue && i < |s.cells| && s.cells[i].state == SCHEDULED;
    SameWork(limit, s, t, i);
  }

  lemma RunFailed(p: Program, n: nat, s: State, t: State)
    requires s.calls != [] && s.calls <= t.calls && Sane(p, t) && Bounded(p, n, t.calls)
    requires exists i: nat :: i < |t.cells| && t.cells[i].state == FAILED
    ensures Eval(p, n, s.calls, 0) == Fails
  {
    var i: nat :| i < |t.cells| && t.cells[i].state == FAILED;
    FailureIsTheRoots(p, n, t, i);
    assert t.calls == s.calls + t.calls[|s.calls|..];
    EvalExtended(p, n, s.calls, t.calls[|s.calls|..], 0);
  }

  lemma RunSucceeded(p: Program, n: nat, s: State, t: State)
    requires s.calls != [] && s.calls <= t.calls && Sane(p, t) && Bounded(p, n, t.calls)
    requires t.cells[0].state == RESOLVED
    ensures t.cells[0].value.Some? && Eval(p, n, s.calls, 0) == Val(t.cells[0].value.value)
  {
    assert PastOk(p, t, 0);
    ValuesAtDepth(p, n, t);
    assert ValueAgrees(p, n, t, 0);
    assert t.calls == s.calls + t.calls[|s.calls|..];
    EvalExtended(p, n, s.calls, t.calls[|s.calls|..], 0);
  }

  /** Noting its arguments leaves a ready future ready to be scheduled. */
  lemma PreparedReady(p: Program, s: State, i: nat)
    requires i < |s.cells| == |s.calls| && s.cells[i].state == CREATED && Ready(s, i)
    ensures var t := Apply(p, s, Prepare(i));
            && SameProgress(s, t) && Known(t) == Known(s) && Ready(t, i)
            && t.cells[i].resolvedKwargs == Bind(s.calls[i].kwargs, Known(t))
  {
  }
}
