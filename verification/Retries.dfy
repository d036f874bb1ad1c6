/** Which attempt of a call is its last one, told from the exceptions that the retry settings list:
    the evaluator and the runner both stop there, and the runner starts the function that often. */
module Retries {
  import opened FutureStates
  import opened Semantics
  import opened RunnerState
  import opened RunnerInvariant
  import opened RunnerTheorems

  /** The class of the exception is listed, or one of its ancestors is. */
  ghost predicate Listed(settings: RetrySettings, e: Option<ExceptionMetadata>) {
    e.Some? && exists t | t in settings.exceptions ::
      e.value.self == t || t.modulePath + "." + t.name in e.value.ancestors
  }

  /** The attempt failed with a listed exception, raised by the function or by the infrastructure. */
  ghost predicate Retryable(p: Program, f: Func, o: Outcome) {
    && o.Raised? && p.retry(f).Some?
    && (Listed(p.retry(f).value, o.exception) || Listed(p.retry(f).value, o.external))
  }

  /** The first `k` attempts failed with listed exceptions, and there are as many retries. */
  ghost predicate FailsUpTo(p: Program, f: Func, args: map<string, Value>, k: nat) {
    && (forall m: nat | m < k :: Retryable(p, f, p.behave(f, args, m)))
    && (k > 0 ==> p.retry(f).Some? && k <= p.retry(f).value.retries)
  }

  /** Attempt `k` gives something, or fails with an exception that is not listed, or after the
      last retry. */
  ghost predicate Settles(p: Program, f: Func, args: map<string, Value>, k: nat) {
    var o := p.behave(f, args, k);
    o.Raised? && Retryable(p, f, o) ==> k >= p.retry(f).value.retries
  }

  /** Attempt `k` is made, and is the last one. */
  ghost predicate IsLast(p: Program, f: Func, args: map<string, Value>, k: nat) {
    FailsUpTo(p, f, args, k) && Settles(p, f, args, k)
  }

  lemma RetriedIff(p: Program, f: Func, args: map<string, Value>, k: nat)
    ensures p.Retried(f, args, k) <==> Retryable(p, f, p.behave(f, args, k)) && k < p.retry(f).value.retries
  {
    var o := p.behave(f, args, k);
    if o.Raised? && p.retry(f).Some? {
      MatchesIff(p.retry(f).value, o.exception);
      MatchesIff(p.retry(f).value, o.external);
      assert [o.exception, o.external][0] == o.exception && [o.exception, o.external][1] == o.external;
      assert o.exception in [o.exception, o.external] && o.external in [o.exception, o.external];
    }
  }

  lemma MatchesIff(settings: RetrySettings, e: Option<ExceptionMetadata>)
    ensures Listed(settings, e) <==> e.Some? && settings.MatchesExceptions(e.value)
  {
    if e.Some? {
      forall t | t in settings.exceptions
        ensures e.value.IsInstanceOf(t) <==> e.value.self == t || t.modulePath + "." + t.name in e.value.ancestors
      {
      }
    }
  }

  /** There is exactly one last attempt. */
  lemma LastAttempt(p: Program, f: Func, args: map<string, Value>, k: nat)
    ensures IsLast(p, f, args, k) <==> k == p.FinalAttempt(f, args, 0)
  {
    var l := p.FinalAttempt(f, args, 0);
    forall m: nat
      ensures p.Retried(f, args, m) <==> Retryable(p, f, p.behave(f, args, m)) && m < p.retry(f).value.retries
    {
      RetriedIff(p, f, args, m);
    }
    assert IsLast(p, f, args, l);
    assert k < l ==> p.Retried(f, args, k);
  }

  /** Every call has a last attempt, after at most as many retries as are granted. */
  lemma SomeAttemptIsLast(p: Program, f: Func, args: map<string, Value>) returns (k: nat)
    ensures IsLast(p, f, args, k) && forall l: nat | IsLast(p, f, args, l) :: l == k
  {
    k := p.FinalAttempt(f, args, 0);
    forall l: nat ensures IsLast(p, f, args, l) <==> l == k {
      LastAttempt(p, f, args, l);
    }
  }

  /** A call whose arguments have values is worth what its last attempt gives: attempts that fail
      with listed exceptions are made up for, as often as retries are granted and no more often. */
  lemma RetriedCall(p: Program, n: nat, calls: seq<Call>, i: nat, k: nat)
    requires ValidCalls(calls) && i < |calls| && AllVal(calls[i].kwargs, EvalAll(p, n, calls))
    requires IsLast(p, calls[i].func, Bind(calls[i].kwargs, EvalAll(p, n, calls)), k)
    ensures match p.behave(calls[i].func, Bind(calls[i].kwargs, EvalAll(p, n, calls)), k)
            case Returned(v) => Eval(p, n, calls, i) == Val(v)
            case Raised(_, _, _) => Eval(p, n, calls, i) == Fails
            case ReturnedFuture(layer) =>
              n > 0 && layer.calls != [] ==> Eval(p, n, calls, i) == Eval(p, n - 1, layer.calls, |layer.calls| - 1)
  {
    EvalUnfold(p, n, calls, i);
    LastAttempt(p, calls[i].func, Bind(calls[i].kwargs, EvalAll(p, n, calls)), k);
  }

  /** A call fails without being made if one of the calls it uses does, and nothing is known of it as
      long as nothing is known of one of them. */
  lemma FailedInput(p: Program, n: nat, calls: seq<Call>, i: nat, j: nat)
    requires ValidCalls(calls) && i < |calls| && Uses(calls[i], j)
    ensures j < i
    ensures Eval(p, n, calls, j) == Unknown ==> Eval(p, n, calls, i) == Unknown
    ensures Eval(p, n, calls, j) == Fails
            && (forall l: nat | l < i && Uses(calls[i], l) :: Eval(p, n, calls, l) != Unknown) ==>
              Eval(p, n, calls, i) == Fails
  {
    EvalUnfold(p, n, calls, i);
    var results, kwargs := EvalAll(p, n, calls), calls[i].kwargs;
    var k :| 0 <= k < |kwargs| && kwargs[k].arg == Upstream(j);
    assert Lookup(kwargs[k].arg, results) == results[j];
    forall l | 0 <= l < |kwargs| && kwargs[l].arg.Upstream? ensures Uses(calls[i], kwargs[l].arg.id) {}
  }

  // --------------------------------------------------------------------- runs

  /** How often a future of a run from scratch was started, and what its last attempt gave. */
  ghost predicate History(p: Program, s: State, i: nat)
    requires i < |s.cells| == |s.calls|
  {
    var c := s.cells[i];
    && c.executions == c.retryCount + (if c.state in {CREATED, RETRYING} then 0 else 1)
    && (c.state == RETRYING ==> c.retryCount >= 1)
    && (c.state in {RAN, RESOLVED, FAILED, NESTED_FAILED} ==>
          && c.retryCount == p.FinalAttempt(s.calls[i].func, c.resolvedKwargs, 0)
          && match OutcomeOf(p, s, i)
             case Returned(_) => c.state == RESOLVED && c.nested.None?
             case ReturnedFuture(_) => c.state != FAILED && c.nested.Some?
             case Raised(_, _, _) => c.state == FAILED && c.nested.None?)
  }

  ghost predicate Histories(p: Program, s: State)
    requires |s.cells| == |s.calls|
  {
    forall i: nat | i < |s.cells| :: History(p, s, i)
  }

  /** An action that updates one cell, and none that has had its last attempt otherwise. */
  lemma SettledHistory(p: Program, limit: Limit, s: State, i: nat)
    requires p.Valid() && Inv(p, s) && Histories(p, s) && Enabled(limit, s, Settle(i))
    ensures var t := Apply(p, s, Settle(i)); i < |t.cells| == |t.calls| && History(p, t, i)
  {
    assert CellOk(p, s, i) && History(p, s, i);
    if !p.Retried(s.calls[i].func, s.cells[i].resolvedKwargs, s.cells[i].retryCount) {
      OutcomeIsFinal(p, s, i);
    }
    ActionKeepsInv(p, limit, s, Settle(i));
  }

  lemma HistoryGoesOn(p: Program, limit: Limit, s: State, a: Action, j: nat)
    requires p.Valid() && Inv(p, s) && Histories(p, s) && Enabled(limit, s, a)
    requires j < |Apply(p, s, a).cells| == |Apply(p, s, a).calls|
    ensures History(p, Apply(p, s, a), j)
  {
    assert CellOk(p, s, a.i) && (j < |s.cells| ==> History(p, s, j));
    TransitionsAreLegal(p, limit, s, a);
    if a.Settle? && j == a.i {
      SettledHistory(p, limit, s, a.i);
    } else if a.Settle? && j in CallChain(s.cells, a.i) && j < |s.cells| {
      AncestorsRan(p, s, a.i, j);
    }
  }

  lemma ActionKeepsHistories(p: Program, limit: Limit, s: State, a: Action)
    requires p.Valid() && Inv(p, s) && Histories(p, s) && Enabled(limit, s, a)
    ensures var t := Apply(p, s, a); |t.cells| == |t.calls| && Histories(p, t)
  {
    ActionKeepsInv(p, limit, s, a);
    forall j: nat | j < |Apply(p, s, a).cells| ensures History(p, Apply(p, s, a), j) {
      HistoryGoesOn(p, limit, s, a, j);
    }
  }

  lemma {:induction false} RunKeepsHistories(p: Program, limit: Limit, s: State, actions: seq<Action>, t: State)
    requires p.Valid() && Inv(p, s) && Histories(p, s) && RunsTo(p, limit, s, actions, t)
    ensures Inv(p, t) && Histories(p, t)
    decreases |actions|
  {
    if actions != [] {
      ActionKeepsInv(p, limit, s, actions[0]);
      ActionKeepsHistories(p, limit, s, actions[0]);
      RunKeepsHistories(p, limit, Apply(p, s, actions[0]), actions[1..], t);
    }
  }

  lemma AttemptedFails(p: Program, f: Func, args: map<string, Value>, k: nat)
    requires forall m: nat | m < k :: p.Retried(f, args, m)
    ensures FailsUpTo(p, f, args, k)
  {
    forall m: nat | m < k
      ensures Retryable(p, f, p.behave(f, args, m)) && m < p.retry(f).value.retries
    {
      RetriedIff(p, f, args, m);
    }
    if k > 0 {
      RetriedIff(p, f, args, k - 1);
    }
  }

  /** In every state of every run of a root call, the function of a future was started once more
      than its attempts failed with listed exceptions; after the last attempt, which is then
      made exactly once, it is FAILED if and only if that one raised. */
  lemma RunRetries(p: Program, limit: Limit, root: Call, actions: seq<Action>, t: State, i: nat)
    requires p.Valid() && forall k | 0 <= k < |root.kwargs| :: root.kwargs[k].arg.Concrete?
    requires RunsTo(p, limit, Initial(root), actions, t) && i < |t.cells|
    ensures |t.cells| == |t.calls|
    ensures var c, f := t.cells[i], t.calls[i].func;
            match c.state
            case CREATED => c.executions == 0
            case SCHEDULED => c.executions >= 1 && FailsUpTo(p, f, c.resolvedKwargs, c.executions - 1)
            case RETRYING => c.executions >= 1 && FailsUpTo(p, f, c.resolvedKwargs, c.executions)
            case CANCELED => false
            case _ =>
              && c.executions >= 1 && IsLast(p, f, c.resolvedKwargs, c.executions - 1)
              && (p.behave(f, c.resolvedKwargs, c.executions - 1).Raised? <==> c.state == FAILED)
  {
    InitialInv(p, root);
    RunKeepsHistories(p, limit, Initial(root), actions, t);
    assert CellOk(p, t, i) && History(p, t, i);
    var c, f := t.cells[i], t.calls[i].func;
    if c.state in {SCHEDULED, RETRYING} {
      assert Attempted(p, t, i);
      AttemptedFails(p, f, c.resolvedKwargs, c.retryCount);
    } else if c.state != CREATED {
      LastAttempt(p, f, c.resolvedKwargs, c.retryCount);
    }
  }
}
