/** Values are right from any state in which values are right: what the runner computes does not
    depend on how the futures it starts with are nested or listed. */
module RunnerSoundness {
  import opened FutureStates
  import opened Semantics
  import opened RunnerState
  import opened RunnerInvariant

  /** A future that is executing has its arguments; one that is not has used no retries. */
  ghost predicate SaneCell(p: Program, s: State, i: nat)
    requires i < |s.cells| == |s.calls|
  {
    && (s.cells[i].state in {SCHEDULED, RETRYING} ==> Started(p, s, i))
    && (s.cells[i].state == CREATED ==> s.cells[i].retryCount == 0)
  }

  /** What is true of a future even after a failure has ended the run. */
  ghost predicate PastOk(p: Program, s: State, i: nat)
    requires i < |s.cells| == |s.calls|
  {
    && (s.cells[i].state == RESOLVED ==> s.cells[i].value.Some?)
    && (s.cells[i].state in {SCHEDULED, RETRYING} ==> Attempted(p, s, i))
    && (s.cells[i].state == FAILED ==> FailsAtLast(p, s.calls, i))
  }

  /** The call fails, at some nesting depth. */
  ghost predicate FailsAtLast(p: Program, calls: seq<Call>, i: nat)
    requires i < |calls|
  {
    exists n: nat :: Eval(p, n, calls, i) == Fails
  }

  /** Far less than the invariant of a run from scratch: nothing is said of parents, layers, the
      list of futures, or of futures that have a nested future before they have run. */
  ghost predicate Sane(p: Program, s: State) {
    && |s.cells| == |s.calls| && ValidCalls(s.calls) && NestedInPool(s)
    && (forall i: nat | i < |s.cells| :: PastOk(p, s, i))
    && (Live(s) ==> forall i: nat | i < |s.cells| :: SaneCell(p, s, i))
    && exists n: nat :: Sound(p, n, s)
  }

  lemma InvIsSane(p: Program, s: State)
    requires Inv(p, s)
    ensures Sane(p, s)
  {
    var n: nat :| Sound(p, n, s);
    forall i: nat | i < |s.cells| ensures SaneCell(p, s, i) && PastOk(p, s, i) {
      assert CellOk(p, s, i);
      if s.cells[i].state == FAILED {
        OutcomeIsFinal(p, s, i);
        ReadyEval(p, n, s, i);
      }
    }
    ShapeNests(s);
  }

  /** The update of one unresolved future leaves the others as they are. */
  lemma {:induction false} UpdateSane(p: Program, s: State, i: nat, c: Cell)
    requires Sane(p, s) && Live(s) && LocalUpdate(s, i, c)
    requires SaneCell(p, SetCell(s, i, c), i) && PastOk(p, SetCell(s, i, c), i)
    ensures forall j: nat | j < |s.cells| :: SaneCell(p, SetCell(s, i, c), j) && PastOk(p, SetCell(s, i, c), j)
  {
    forall j: nat | j < |s.cells| ensures SaneCell(p, SetCell(s, i, c), j) && PastOk(p, SetCell(s, i, c), j) {
      assert SaneCell(p, s, j) && PastOk(p, s, j);
      if j != i && s.cells[j].state in {SCHEDULED, RETRYING} {
        UpdateKnown(s, i, c, j);
        assert Attempted(p, s, j);
      }
    }
  }

  lemma PrepareKeepsSane(p: Program, s: State, i: nat)
    requires Sane(p, s) && Enabled(Unlimited, s, Prepare(i))
    ensures Sane(p, Apply(p, s, Prepare(i)))
  {
    var n: nat :| Sound(p, n, s);
    var c := s.cells[i].(resolvedKwargs := Bind(s.calls[i].kwargs, Known(s)));
    assert SaneCell(p, s, i) && ValueAgrees(p, n, s, i);
    UpdateSane(p, s, i, c);
    UpdateSound(p, n, s, i, c);
  }

  lemma BeginKeepsSane(p: Program, s: State, i: nat)
    requires Sane(p, s) && Enabled(Unlimited, s, Begin(i))
    ensures Sane(p, Apply(p, s, Begin(i)))
  {
    var n: nat :| Sound(p, n, s);
    var c := s.cells[i].(state := SCHEDULED, executions := s.cells[i].executions + 1);
    assert SaneCell(p, s, i) && ValueAgrees(p, n, s, i);
    assert s.cells[i].state == RETRYING ==> Attempted(p, s, i);
    UpdateKnown(s, i, c, i);
    UpdateSane(p, s, i, c);
    UpdateSound(p, n, s, i, c);
  }

  lemma BubbleKeepsSane(p: Program, s: State, i: nat)
    requires Sane(p, s) && Enabled(Unlimited, s, Bubble(i))
    ensures Sane(p, Apply(p, s, Bubble(i)))
  {
    var n: nat :| Sound(p, n, s);
    var m := s.cells[i].nested.value;
    var c := s.cells[i].(value := s.cells[m].value, state := RESOLVED);
    assert PastOk(p, s, m);
    UpdateSane(p, s, i, c);
    assert NestedAgrees(p, n, s, i) && ValueAgrees(p, n, s, m);
    SoundDeeper(p, n, n + 1, s);
    UpdateSound(p, n + 1, s, i, c);
  }

  lemma ResolveKeepsSane(p: Program, s: State, i: nat)
    requires Sane(p, s) && Enabled(Unlimited, s, Settle(i)) && OutcomeOf(p, s, i).Returned?
    ensures Sane(p, Apply(p, s, Settle(i)))
  {
    var n: nat :| Sound(p, n, s);
    var c := s.cells[i].(value := Some(OutcomeOf(p, s, i).value), state := RESOLVED);
    assert SaneCell(p, s, i);
    UpdateSane(p, s, i, c);
    OutcomeIsFinal(p, s, i);
    ReadyEval(p, n, s, i);
    UpdateSound(p, n, s, i, c);
  }

  lemma {:induction false} RetryIsAttempted(p: Program, s: State, i: nat, c: Cell)
    requires i < |s.cells| == |s.calls| && Started(p, s, i) && s.cells[i].state != RESOLVED
    requires p.Retried(s.calls[i].func, s.cells[i].resolvedKwargs, s.cells[i].retryCount)
    requires c == s.cells[i].(state := RETRYING, retryCount := s.cells[i].retryCount + 1)
    ensures SaneCell(p, SetCell(s, i, c), i) && PastOk(p, SetCell(s, i, c), i)
  {
    var t := SetCell(s, i, c);
    UpdateKnown(s, i, c, i);
    forall k: nat | k < c.retryCount ensures p.Retried(t.calls[i].func, c.resolvedKwargs, k) {
      assert k < s.cells[i].retryCount ==> Attempted(p, s, i);
    }
    assert Attempted(p, t, i);
  }

  lemma RetryKeepsSane(p: Program, s: State, i: nat)
    requires Sane(p, s) && Enabled(Unlimited, s, Settle(i)) && OutcomeOf(p, s, i).Raised?
    requires p.Retried(s.calls[i].func, s.cells[i].resolvedKwargs, s.cells[i].retryCount)
    ensures Sane(p, Apply(p, s, Settle(i)))
  {
    var n: nat :| Sound(p, n, s);
    var c := s.cells[i].(state := RETRYING, retryCount := s.cells[i].retryCount + 1);
    assert SaneCell(p, s, i) && ValueAgrees(p, n, s, i);
    RetryIsAttempted(p, s, i, c);
    UpdateSane(p, s, i, c);
    UpdateSound(p, n, s, i, c);
  }

  /** A failure that is not retried is the call's own. */
  lemma FailureIsFinal(p: Program, s: State, i: nat)
    requires Sane(p, s) && Live(s) && i < |s.cells| && s.cells[i].state == SCHEDULED && OutcomeOf(p, s, i).Raised?
    requires !p.Retried(s.calls[i].func, s.cells[i].resolvedKwargs, s.cells[i].retryCount)
    ensures FailsAtLast(p, s.calls, i)
  {
    var n: nat :| Sound(p, n, s);
    assert SaneCell(p, s, i);
    OutcomeIsFinal(p, s, i);
    ReadyEval(p, n, s, i);
  }

  /** A failure ends the run: values stay, even if a future above the failed one had one. */
  lemma SweepKeepsSane(p: Program, s: State, i: nat)
    requires Sane(p, s) && i < |s.cells| && FailsAtLast(p, s.calls, i)
    ensures Sane(p, Sweep(s, i))
  {
    var n: nat :| Sound(p, n, s);
    var t := Sweep(s, i);
    assert t.cells[i].state == FAILED;
    SweepSound(p, n, s, i);
    forall j: nat | j < |t.cells| ensures PastOk(p, t, j) {
      assert PastOk(p, s, j);
      assert t.cells[j].state in {SCHEDULED, RETRYING} ==> Attempted(p, s, j);
    }
  }

  lemma SweepSound(p: Program, n: nat, s: State, i: nat)
    requires |s.cells| == |s.calls| && Sound(p, n, s)
    ensures Sound(p, n, Sweep(s, i))
  {
    var t := Sweep(s, i);
    forall j: nat | j < |t.cells| ensures NestedAgrees(p, n, t, j) && ValueAgrees(p, n, t, j) {
      assert NestedAgrees(p, n, s, j) && ValueAgrees(p, n, s, j);
    }
  }

  lemma SpawnKeepsSane(p: Program, s: State, i: nat, layer: Layer)
    requires Sane(p, s) && Enabled(Unlimited, s, Settle(i))
    requires ValidLayer(layer.calls) && OutcomeOf(p, s, i) == ReturnedFuture(layer)
    ensures Sane(p, Spawn(s, i, layer))
  {
    var n: nat :| Sound(p, n, s);
    var t := Spawn(s, i, layer);
    assert SaneCell(p, s, i);
    SpawnCalls(s.calls, layer.calls);
    SpawnSound(p, n, s, i, layer);
    forall j: nat | j < |t.cells| ensures SaneCell(p, t, j) && PastOk(p, t, j) {
      if j < |s.cells| {
        assert SaneCell(p, s, j) && PastOk(p, s, j);
        if j != i && s.cells[j].state in {SCHEDULED, RETRYING} {
          SpawnKnown(s, i, layer, j);
          assert Attempted(p, s, j);
        }
      }
    }
  }

  lemma ActionKeepsSane(p: Program, limit: Limit, s: State, a: Action)
    requires p.Valid() && Sane(p, s) && Enabled(limit, s, a)
    ensures Sane(p, Apply(p, s, a)) && s.calls <= Apply(p, s, a).calls
  {
    var i := a.i;
    match a {
      case Prepare(_) => PrepareKeepsSane(p, s, i);
      case Begin(_) => BeginKeepsSane(p, s, i);
      case Bubble(_) => BubbleKeepsSane(p, s, i);
      case Settle(_) =>
        match OutcomeOf(p, s, i) {
          case Returned(_) => ResolveKeepsSane(p, s, i);
          case ReturnedFuture(layer) => SpawnKeepsSane(p, s, i, layer);
          case Raised(_, _, _) =>
            if p.Retried(s.calls[i].func, s.cells[i].resolvedKwargs, s.cells[i].retryCount) {
              RetryKeepsSane(p, s, i);
            } else {
              FailureIsFinal(p, s, i);
              SweepKeepsSane(p, s, i);
            }
        }
    }
  }

  /** From a sane state, in every run, the value of a RESOLVED future is what its call
      evaluates to. */
  lemma {:induction false} SaneRuns(p: Program, limit: Limit, s: State, actions: seq<Action>, t: State, i: nat)
    requires p.Valid() && Sane(p, s) && RunsTo(p, limit, s, actions, t)
    requires i < |s.cells| && i < |t.cells| && t.cells[i].state == RESOLVED
    ensures t.cells[i].value.Some? && EvaluatesTo(p, s.calls, i, t.cells[i].value.value)
    decreases |actions|
  {
    if actions == [] {
      var n: nat :| Sound(p, n, s);
      assert PastOk(p, s, i) && ValueAgrees(p, n, s, i);
    } else {
      var u := Apply(p, s, actions[0]);
      ActionKeepsSane(p, limit, s, actions[0]);
      SaneRuns(p, limit, u, actions[1..], t, i);
      var n: nat :| Eval(p, n, u.calls, i) == Val(t.cells[i].value.value);
      assert u.calls == s.calls + u.calls[|s.calls|..];
      EvalExtended(p, n, s.calls, u.calls[|s.calls|..], i);
      assert Eval(p, n, s.calls, i) == Val(t.cells[i].value.value);
    }
  }

  lemma {:induction false} RunKeepsSane(p: Program, limit: Limit, s: State, actions: seq<Action>, t: State)
    requires p.Valid() && Sane(p, s) && RunsTo(p, limit, s, actions, t)
    ensures Sane(p, t) && s.calls <= t.calls
    decreases |actions|
  {
    if actions != [] {
      ActionKeepsSane(p, limit, s, actions[0]);
      RunKeepsSane(p, limit, Apply(p, s, actions[0]), actions[1..], t);
    }
  }
}
