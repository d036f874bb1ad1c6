/** The meaning of a pipeline: a recursive evaluator of calls, independent of the runner.

    A call names a function and its arguments; an argument is a concrete value or the output
    of an earlier call of the same list. Executing a function yields a value, a layer of new
    calls whose last call stands for the result, or a failure, and may differ per attempt. */
module Semantics {
  import opened FutureStates

  type Value(==, !new)
  type Func(==, !new)

  datatype Arg = Concrete(value: Value) | Upstream(id: nat)

  datatype Kwarg = Kwarg(name: string, arg: Arg)

  predicate DistinctNames(kwargs: seq<Kwarg>) {
    forall k, l | 0 <= k < l < |kwargs| :: kwargs[k].name != kwargs[l].name
  }

  /** A dict of keyword arguments, in insertion order. */
  type Kwargs = kwargs: seq<Kwarg> | DistinctNames(kwargs) witness []

  datatype Call = Call(func: Func, kwargs: Kwargs, standalone: bool)

  ghost predicate Uses(call: Call, j: nat) {
    exists k | 0 <= k < |call.kwargs| :: call.kwargs[k].arg == Upstream(j)
  }

  /** Arguments refer to earlier calls only: a future exists before it is passed on. */
  ghost predicate ValidCalls(calls: seq<Call>) {
    forall i, j: nat | 0 <= i < |calls| && Uses(calls[i], j) :: j < i
  }

  /** Every call but the last is an input of a later one. */
  ghost predicate AllUsed(calls: seq<Call>) {
    forall i | 0 <= i < |calls| - 1 :: UsedLater(calls, i)
  }

  ghost predicate UsedLater(calls: seq<Call>, i: nat) {
    exists j | i < j < |calls| :: Uses(calls[j], i)
  }

  ghost predicate ValidLayer(calls: seq<Call>) {
    calls != [] && ValidCalls(calls) && AllUsed(calls)
  }

  /** What a function returns when it returns a future: that future comes last, after
      everything it depends on. Futures it does not depend on are not part of the layer. */
  datatype Layer = Layer(calls: seq<Call>)

  /** An attempt that fails raised, or gave back a value without the output type (`byCast`). */
  datatype Outcome =
    | Returned(value: Value)
    | ReturnedFuture(layer: Layer)
    | Raised(exception: Option<ExceptionMetadata>, external: Option<ExceptionMetadata>, byCast: bool)

  /** The user's functions: their behaviour on given arguments, per attempt, and the retry
      settings they are declared with. */
  datatype Program = Program(
    behave: (Func, map<string, Value>, nat) -> Outcome,
    retry: Func -> Option<RetrySettings>)
  {
    ghost predicate Valid() {
      forall f, args, k :: behave(f, args, k).ReturnedFuture? ==> ValidLayer(behave(f, args, k).layer.calls)
    }

    function Retries(f: Func): nat {
      match retry(f)
      case None => 0
      case Some(s) => if s.retries < 0 then 0 else s.retries
    }

    predicate Retried(f: Func, args: map<string, Value>, k: nat)
      ensures Retried(f, args, k) ==> k < Retries(f)
    {
      var o := behave(f, args, k);
      o.Raised? && retry(f).Some? && retry(f).value.ShouldRetry(k, [o.exception, o.external])
    }

    /** The first attempt from `k` on whose outcome is not retried. */
    function FinalAttempt(f: Func, args: map<string, Value>, k: nat): (l: nat)
      ensures k <= l && !Retried(f, args, l)
      ensures l <= k || l <= Retries(f)
      ensures forall m | k <= m < l :: Retried(f, args, m)
      decreases Retries(f) - k
    {
      if Retried(f, args, k) then FinalAttempt(f, args, k + 1) else k
    }

    function FinalOutcome(f: Func, args: map<string, Value>): Outcome {
      behave(f, args, FinalAttempt(f, args, 0))
    }
  }

  /** What is known of a call's result. `Unknown` is a computation not finished within the
      nesting depth explored so far. */
  datatype Result = Val(value: Value) | Fails | Unknown

  function Lookup(arg: Arg, results: seq<Result>): Result {
    match arg
    case Concrete(v) => Val(v)
    case Upstream(j) => if j < |results| then results[j] else Unknown
  }

  predicate AllVal(kwargs: seq<Kwarg>, results: seq<Result>) {
    forall k | 0 <= k < |kwargs| :: Lookup(kwargs[k].arg, results).Val?
  }

  predicate AnyUnknown(kwargs: seq<Kwarg>, results: seq<Result>) {
    exists k | 0 <= k < |kwargs| :: Lookup(kwargs[k].arg, results).Unknown?
  }

  /** The arguments that have a value, by name. */
  function Bind(kwargs: Kwargs, results: seq<Result>): map<string, Value> {
    map k | 0 <= k < |kwargs| && Lookup(kwargs[k].arg, results).Val?
      :: kwargs[k].name := Lookup(kwargs[k].arg, results).value
  }

  /** The result of a call given the results of the calls it depends on, exploring nested
      layers to depth `n`. */
  function EvalOne(p: Program, n: nat, call: Call, results: seq<Result>): Result
    decreases n, 0
  {
    if AnyUnknown(call.kwargs, results) then Unknown
    else if !AllVal(call.kwargs, results) then Fails
    else
      match p.FinalOutcome(call.func, Bind(call.kwargs, results))
      case Returned(v) => Val(v)
      case Raised(_, _, _) => Fails
      case ReturnedFuture(layer) =>
        if n == 0 || layer.calls == [] then Unknown
        else EvalAll(p, n - 1, layer.calls)[|layer.calls| - 1]
  }

  /** The results of all calls of a list, in order. */
  function EvalAll(p: Program, n: nat, calls: seq<Call>): (r: seq<Result>)
    ensures |r| == |calls|
    decreases n, |calls|
  {
    if calls == [] then []
    else
      var prev := EvalAll(p, n, calls[..|calls| - 1]);
      prev + [EvalOne(p, n, calls[|calls| - 1], prev)]
  }

  function Eval(p: Program, n: nat, calls: seq<Call>, i: nat): Result
    requires i < |calls|
  {
    EvalAll(p, n, calls)[i]
  }

  /** Call `i` has the value `v`: some nesting depth suffices to compute it. */
  ghost predicate EvaluatesTo(p: Program, calls: seq<Call>, i: nat, v: Value)
    requires i < |calls|
  {
    exists n: nat :: Eval(p, n, calls, i) == Val(v)
  }

  // ---------------------------------------------------------------- evaluation lemmas

  /** Two result lists agree on the arguments of a call. */
  predicate AgreeOn(kwargs: seq<Kwarg>, r: seq<Result>, s: seq<Result>) {
    forall k | 0 <= k < |kwargs| :: Lookup(kwargs[k].arg, r) == Lookup(kwargs[k].arg, s)
  }

  lemma AgreeingArguments(p: Program, n: nat, call: Call, r: seq<Result>, s: seq<Result>)
    requires AgreeOn(call.kwargs, r, s)
    ensures AllVal(call.kwargs, r) == AllVal(call.kwargs, s)
    ensures AnyUnknown(call.kwargs, r) == AnyUnknown(call.kwargs, s)
    ensures Bind(call.kwargs, r) == Bind(call.kwargs, s)
    ensures EvalOne(p, n, call, r) == EvalOne(p, n, call, s)
  {
    assert forall k | 0 <= k < |call.kwargs| :: Lookup(call.kwargs[k].arg, r) == Lookup(call.kwargs[k].arg, s);
  }

  lemma {:induction false} EvalPrefix(p: Program, n: nat, calls: seq<Call>, k: nat)
    requires k <= |calls|
    ensures EvalAll(p, n, calls)[..k] == EvalAll(p, n, calls[..k])
    decreases |calls|
  {
    if k == |calls| {
      assert calls[..k] == calls;
    } else {
      var init := calls[..|calls| - 1];
      EvalPrefix(p, n, init, k);
      assert init[..k] == calls[..k];
      assert EvalAll(p, n, calls)[..k] == EvalAll(p, n, init)[..k];
    }
  }

  /** Evaluation is the fixpoint its informal description suggests: every call's result is
      determined by the results of the calls it refers to. */
  lemma {:induction false} EvalUnfold(p: Program, n: nat, calls: seq<Call>, i: nat)
    requires ValidCalls(calls) && i < |calls|
    ensures Eval(p, n, calls, i) == EvalOne(p, n, calls[i], EvalAll(p, n, calls))
  {
    var all := EvalAll(p, n, calls);
    var upTo := calls[..i + 1];
    EvalPrefix(p, n, calls, i + 1);
    EvalPrefix(p, n, calls, i);
    assert upTo[..i] == calls[..i];
    assert all[i] == all[..i + 1][i] == EvalOne(p, n, calls[i], all[..i]);
    forall k | 0 <= k < |calls[i].kwargs|
      ensures Lookup(calls[i].kwargs[k].arg, all[..i]) == Lookup(calls[i].kwargs[k].arg, all)
    {
      if calls[i].kwargs[k].arg.Upstream? {
        assert Uses(calls[i], calls[i].kwargs[k].arg.id);
      }
    }
    AgreeingArguments(p, n, calls[i], all[..i], all);
  }

  /** Calls that are added later do not change earlier results. */
  lemma {:induction false} EvalExtended(p: Program, n: nat, calls: seq<Call>, more: seq<Call>, i: nat)
    requires i < |calls|
    ensures Eval(p, n, calls + more, i) == Eval(p, n, calls, i)
  {
    EvalPrefix(p, n, calls + more, |calls|);
    assert (calls + more)[..|calls|] == calls;
    assert EvalAll(p, n, calls + more)[i] == EvalAll(p, n, calls + more)[..|calls|][i];
  }

  lemma {:induction false} EvalLast(p: Program, n: nat, calls: seq<Call>)
    requires calls != []
    ensures Eval(p, n, calls, |calls| - 1)
         == EvalOne(p, n, calls[|calls| - 1], EvalAll(p, n, calls[..|calls| - 1]))
  {
  }

  /** Exploring one level deeper keeps every result already known. */
  lemma {:induction false} EvalDeeper(p: Program, n: nat, calls: seq<Call>, i: nat)
    requires i < |calls| && Eval(p, n, calls, i) != Unknown
    ensures Eval(p, n + 1, calls, i) == Eval(p, n, calls, i)
    decreases n, |calls|
  {
    var init, call := calls[..|calls| - 1], calls[|calls| - 1];
    var r, s := EvalAll(p, n, init), EvalAll(p, n + 1, init);
    EvalLast(p, n, calls);
    EvalLast(p, n + 1, calls);
    forall j | 0 <= j < |r| && r[j] != Unknown ensures s[j] == r[j] {
      assert r[j] == Eval(p, n, init, j);
      EvalDeeper(p, n, init, j);
    }
    if i == |init| {
      EvalOneDeeper(p, n, call, r, s);
    }
  }

  lemma {:induction false} EvalOneDeeper(p: Program, n: nat, call: Call, r: seq<Result>, s: seq<Result>)
    requires |r| == |s| && forall j | 0 <= j < |r| && r[j] != Unknown :: s[j] == r[j]
    requires EvalOne(p, n, call, r) != Unknown
    ensures EvalOne(p, n + 1, call, s) == EvalOne(p, n, call, r)
    decreases n, 0
  {
    assert AgreeOn(call.kwargs, r, s);
    AgreeingArguments(p, n + 1, call, r, s);
    if AllVal(call.kwargs, r) {
      var o := p.FinalOutcome(call.func, Bind(call.kwargs, r));
      if o.ReturnedFuture? {
        EvalDeeper(p, n - 1, o.layer.calls, |o.layer.calls| - 1);
      }
    }
  }

  lemma {:induction false} EvalStable(p: Program, n: nat, m: nat, calls: seq<Call>, i: nat)
    requires n <= m && i < |calls|
    requires Eval(p, n, calls, i) != Unknown
    ensures Eval(p, m, calls, i) == Eval(p, n, calls, i)
    decreases m - n
  {
    if n < m {
      EvalDeeper(p, n, calls, i);
      EvalStable(p, n + 1, m, calls, i);
    }
  }

  /** A call has at most one value. */
  lemma {:induction false} ValueUnique(p: Program, calls: seq<Call>, i: nat, v: Value, w: Value)
    requires i < |calls| && EvaluatesTo(p, calls, i, v) && EvaluatesTo(p, calls, i, w)
    ensures v == w
  {
    var n: nat :| Eval(p, n, calls, i) == Val(v);
    var m: nat :| Eval(p, m, calls, i) == Val(w);
    EvalStable(p, n, if n < m then m else n, calls, i);
    EvalStable(p, m, if n < m then m else n, calls, i);
  }

  // ------------------------------------------------------- renaming and layers

  function RenameArg(arg: Arg, rho: seq<nat>): Arg {
    match arg
    case Concrete(v) => arg
    case Upstream(j) => if j < |rho| then Upstream(rho[j]) else arg
  }

  predicate Matches(x: Kwarg, y: Kwarg, rho: seq<nat>) {
    x.name == y.name && RenameArg(x.arg, rho) == y.arg
  }

  predicate HasMatch(x: Kwarg, b: seq<Kwarg>, rho: seq<nat>) {
    exists l | 0 <= l < |b| :: Matches(x, b[l], rho)
  }

  predicate IsMatched(a: seq<Kwarg>, y: Kwarg, rho: seq<nat>) {
    exists k | 0 <= k < |a| :: Matches(a[k], y, rho)
  }

  /** Same function and, name by name, the same argument up to renaming. */
  predicate SameCall(a: Call, b: Call, rho: seq<nat>) {
    && a.func == b.func
    && (forall k | 0 <= k < |a.kwargs| :: HasMatch(a.kwargs[k], b.kwargs, rho))
    && (forall l | 0 <= l < |b.kwargs| :: IsMatched(a.kwargs, b.kwargs[l], rho))
  }

  /** `a` is a copy of part of `b`: call `i` of `a` is call `rho[i]` of `b`. */
  predicate Renames(a: seq<Call>, b: seq<Call>, rho: seq<nat>) {
    && |rho| == |a|
    && (forall i | 0 <= i < |a| :: rho[i] < |b| && SameCall(a[i], b[rho[i]], rho))
  }

  /** The arguments of two calls have the same results. */
  predicate SameLookups(a: Call, rho: seq<nat>, r: seq<Result>, s: seq<Result>) {
    forall k | 0 <= k < |a.kwargs| :: Lookup(a.kwargs[k].arg, r) == Lookup(RenameArg(a.kwargs[k].arg, rho), s)
  }

  lemma {:induction false} BindAt(kwargs: Kwargs, results: seq<Result>, k: nat)
    requires k < |kwargs|
    ensures kwargs[k].name in Bind(kwargs, results) <==> Lookup(kwargs[k].arg, results).Val?
    ensures Lookup(kwargs[k].arg, results).Val? ==>
              Bind(kwargs, results)[kwargs[k].name] == Lookup(kwargs[k].arg, results).value
  {
  }

  predicate SameResult(x: Kwarg, r: seq<Result>, y: Kwarg, s: seq<Result>) {
    x.name == y.name && Lookup(x.arg, r) == Lookup(y.arg, s)
  }

  predicate Mirrored(x: Kwarg, r: seq<Result>, b: seq<Kwarg>, s: seq<Result>) {
    exists l | 0 <= l < |b| :: SameResult(x, r, b[l], s)
  }

  lemma {:induction false} BindIncluded(a: Kwargs, r: seq<Result>, b: Kwargs, s: seq<Result>)
    requires forall k | 0 <= k < |a| :: Mirrored(a[k], r, b, s)
    ensures AllVal(b, s) ==> AllVal(a, r)
    ensures AnyUnknown(a, r) ==> AnyUnknown(b, s)
    ensures forall x | x in Bind(a, r) :: x in Bind(b, s) && Bind(b, s)[x] == Bind(a, r)[x]
  {
    forall x | x in Bind(a, r) ensures x in Bind(b, s) && Bind(b, s)[x] == Bind(a, r)[x] {
      var k :| 0 <= k < |a| && a[k].name == x && Lookup(a[k].arg, r).Val?;
      assert Mirrored(a[k], r, b, s);
      var l :| 0 <= l < |b| && SameResult(a[k], r, b[l], s);
      BindAt(a, r, k);
      BindAt(b, s, l);
    }
    if AnyUnknown(a, r) {
      var k :| 0 <= k < |a| && Lookup(a[k].arg, r).Unknown?;
      assert Mirrored(a[k], r, b, s);
    }
    if AllVal(b, s) {
      forall k | 0 <= k < |a| ensures Lookup(a[k].arg, r).Val? {
        assert Mirrored(a[k], r, b, s);
      }
    }
  }

  lemma {:induction false} SameCallBinds(a: Call, b: Call, rho: seq<nat>, r: seq<Result>, s: seq<Result>)
    requires SameCall(a, b, rho) && SameLookups(a, rho, r, s)
    ensures AllVal(a.kwargs, r) == AllVal(b.kwargs, s)
    ensures AnyUnknown(a.kwargs, r) == AnyUnknown(b.kwargs, s)
    ensures Bind(a.kwargs, r) == Bind(b.kwargs, s)
  {
    forall k | 0 <= k < |a.kwargs| ensures Mirrored(a.kwargs[k], r, b.kwargs, s) {
      assert HasMatch(a.kwargs[k], b.kwargs, rho);
      var l :| 0 <= l < |b.kwargs| && Matches(a.kwargs[k], b.kwargs[l], rho);
      assert SameResult(a.kwargs[k], r, b.kwargs[l], s);
    }
    forall l | 0 <= l < |b.kwargs| ensures Mirrored(b.kwargs[l], s, a.kwargs, r) {
      assert IsMatched(a.kwargs, b.kwargs[l], rho);
      var k :| 0 <= k < |a.kwargs| && Matches(a.kwargs[k], b.kwargs[l], rho);
      assert SameResult(b.kwargs[l], s, a.kwargs[k], r);
    }
    BindIncluded(a.kwargs, r, b.kwargs, s);
    BindIncluded(b.kwargs, s, a.kwargs, r);
    assert Bind(a.kwargs, r).Keys == Bind(b.kwargs, s).Keys;
  }

  /** A copy evaluates like the original, whatever the order of calls and of arguments. */
  lemma {:induction false} EvalRenamed(p: Program, n: nat, a: seq<Call>, b: seq<Call>, rho: seq<nat>, i: nat)
    requires ValidCalls(a) && ValidCalls(b) && Renames(a, b, rho) && i < |a|
    ensures Eval(p, n, a, i) == Eval(p, n, b, rho[i])
    decreases i, 1
  {
    RenamedLookups(p, n, a, b, rho, i);
    SameCallBinds(a[i], b[rho[i]], rho, EvalAll(p, n, a), EvalAll(p, n, b));
    EvalUnfold(p, n, a, i);
    EvalUnfold(p, n, b, rho[i]);
  }

  lemma {:induction false} RenamedLookups(p: Program, n: nat, a: seq<Call>, b: seq<Call>, rho: seq<nat>, i: nat)
    requires ValidCalls(a) && ValidCalls(b) && Renames(a, b, rho) && i < |a|
    ensures SameLookups(a[i], rho, EvalAll(p, n, a), EvalAll(p, n, b))
    decreases i, 0
  {
    var r, s := EvalAll(p, n, a), EvalAll(p, n, b);
    forall k | 0 <= k < |a[i].kwargs|
      ensures Lookup(a[i].kwargs[k].arg, r) == Lookup(RenameArg(a[i].kwargs[k].arg, rho), s)
    {
      if a[i].kwargs[k].arg.Upstream? {
        var j := a[i].kwargs[k].arg.id;
        assert Uses(a[i], j);
        EvalRenamed(p, n, a, b, rho, j);
      }
    }
  }

  /** An input without a result leaves the call without one; a failed input fails it. */
  lemma {:induction false} InputMatters(p: Program, n: nat, calls: seq<Call>, i: nat, j: nat)
    requires ValidCalls(calls) && i < |calls| && Uses(calls[i], j)
    ensures j < i
    ensures Eval(p, n, calls, j) == Unknown ==> Eval(p, n, calls, i) == Unknown
    ensures Eval(p, n, calls, j) == Fails ==> Eval(p, n, calls, i) in {Fails, Unknown}
  {
    EvalUnfold(p, n, calls, i);
    var k :| 0 <= k < |calls[i].kwargs| && calls[i].kwargs[k].arg == Upstream(j);
    assert Lookup(calls[i].kwargs[k].arg, EvalAll(p, n, calls)) == Eval(p, n, calls, j);
  }

  /** The result of a layer is known only if all of it is. */
  lemma {:induction false} LayerKnown(p: Program, n: nat, calls: seq<Call>, i: nat)
    requires ValidLayer(calls) && i < |calls|
    requires Eval(p, n, calls, |calls| - 1) != Unknown
    ensures Eval(p, n, calls, i) != Unknown
    decreases |calls| - i
  {
    if i < |calls| - 1 {
      assert UsedLater(calls, i);
      var j :| i < j < |calls| && Uses(calls[j], i);
      LayerKnown(p, n, calls, j);
      InputMatters(p, n, calls, j, i);
    }
  }
}
