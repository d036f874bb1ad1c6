/** The runner never waits on nothing, from any state in which the futures that the root depends
    on are listed: the states of a run from scratch, and the clones that reruns start from. */
module RunnerProgress {
  import opened FutureStates
  import opened Semantics
  import opened RunnerState
  import opened RunnerInvariant
  import opened RunnerTheorems
  import opened RunnerSoundness

  ghost predicate ParentBelow(s: State, i: nat)
    requires i < |s.cells|
  {
    s.cells[i].parent.Some? ==> s.cells[i].parent.value < i
  }

  /** A future that ran has a nested one, of which it is the parent. */
  ghost predicate RanNested(s: State, i: nat)
    requires i < |s.cells|
  {
    s.cells[i].state == RAN ==>
      && s.cells[i].nested.Some? && i < s.cells[i].nested.value < |s.cells|
      && s.cells[s.cells[i].nested.value].parent == Some(i)
  }

  ghost predicate Linked(s: State) {
    && |s.cells| == |s.calls| > 0 && ValidCalls(s.calls)
    && NoDuplicates(s.queue) && s.queue != [] && s.queue[0] == 0
    && (forall i | i in s.queue :: i < |s.calls|)
    && (forall i: nat | i < |s.cells| :: ParentBelow(s, i) && RanNested(s, i))
  }

  /** A listed future, with what it waits for among the futures `live`. */
  ghost predicate Carried(s: State, live: set<nat>, i: nat)
    requires |s.cells| == |s.calls|
  {
    && i < |s.cells| && i in s.queue
    && (s.cells[i].state == RAN && s.cells[i].nested.Some? ==> s.cells[i].nested.value in live)
    && forall j: nat | Uses(s.calls[i], j) :: SameHome(s, live, i, j)
  }

  ghost predicate SameHome(s: State, live: set<nat>, i: nat, j: nat)
    requires i < |s.cells|
  {
    j in live && j < |s.cells| && s.cells[j].parent == s.cells[i].parent
  }

  /** The futures `live` are what the root waits for. Others may be missing from the list. */
  ghost predicate Carries(s: State, live: set<nat>)
    requires |s.cells| == |s.calls|
  {
    0 in live && forall i | i in live :: Carried(s, live, i)
  }

  ghost predicate Woven(s: State) {
    Linked(s) && exists live: set<nat> :: Carries(s, live)
  }

  function Range(lo: nat, hi: nat): (r: set<nat>)
    ensures forall j: nat :: j in r <==> lo <= j < hi
  {
    if hi <= lo then {} else Range(lo, hi - 1) + {hi - 1}
  }

  lemma InvIsWoven(p: Program, s: State)
    requires Inv(p, s)
    ensures Woven(s)
  {
    forall i: nat | i < |s.cells| ensures ParentBelow(s, i) && RanNested(s, i) {
      assert CellOk(p, s, i) && NestedOk(s, i);
      assert i > 0 ==> HasParent(s, i);
    }
    var live := Range(0, |s.cells|);
    forall i | i in live ensures Carried(s, live, i) {
      assert CellOk(p, s, i) && NestedOk(s, i) && SameLayer(s, i);
      forall j: nat | Uses(s.calls[i], j) ensures SameHome(s, live, i, j) {
        assert j < i;
      }
    }
    assert Carries(s, live);
  }

  // ------------------------------------------------------------------ progress

  lemma {:induction false} NothingListedScheduled(s: State, queue: seq<nat>)
    requires forall i | i in queue && i < |s.cells| :: s.cells[i].state != SCHEDULED
    ensures ScheduledIn(s, queue) == 0
    decreases |queue|
  {
    if queue != [] {
      assert queue[|queue| - 1] in queue;
      NothingListedScheduled(s, queue[..|queue| - 1]);
    }
  }

  ghost predicate ListedWork(limit: Limit, s: State, j: nat)
    requires |s.cells| == |s.calls|
  {
    j < |s.cells| && j in s.queue && HasWork(limit, s, j)
  }

  /** Below any unresolved future that the root waits for there is work in the list. */
  lemma {:induction false} CarriedHasWork(p: Program, limit: Limit, s: State, live: set<nat>, i: nat)
    requires Linked(s) && Carries(s, live) && Sane(p, s) && Live(s) && i in live && i < |s.cells|
    requires s.cells[i].state != RESOLVED && (limit.AtMost? ==> limit.n >= 1)
    requires forall j | j in s.queue && j < |s.cells| :: s.cells[j].state != SCHEDULED
    ensures exists j: nat :: ListedWork(limit, s, j)
    decreases |s.cells| - LayerIndex(s, i), i
  {
    NothingListedScheduled(s, s.queue);
    assert CanSchedule(limit, s, i);
    assert Carried(s, live, i) && ParentBelow(s, i) && RanNested(s, i);
    if s.cells[i].state == RAN {
      var m := s.cells[i].nested.value;
      if s.cells[m].state == RESOLVED {
        assert ListedWork(limit, s, i);
      } else {
        CarriedHasWork(p, limit, s, live, m);
      }
    } else if s.cells[i].state == CREATED && !Ready(s, i) {
      var j := OpenInput(p, s, i);
      assert SameHome(s, live, i, j);
      CarriedHasWork(p, limit, s, live, j);
    } else {
      assert ListedWork(limit, s, i);
    }
  }

  /** A future that is not ready has an input that is not resolved. */
  lemma OpenInput(p: Program, s: State, i: nat) returns (j: nat)
    requires Sane(p, s) && i < |s.cells| && !Ready(s, i)
    ensures Uses(s.calls[i], j) && j < i && s.cells[j].state != RESOLVED
  {
    var k :| 0 <= k < |s.calls[i].kwargs| && !Lookup(s.calls[i].kwargs[k].arg, Known(s)).Val?;
    j := s.calls[i].kwargs[k].arg.id;
    assert Uses(s.calls[i], j);
    assert PastOk(p, s, j);
  }

  /** No deadlock: if the root is not resolved and no future of the list can be scheduled or
      resolved, a listed future is executing. */
  lemma NeverStuck(p: Program, limit: Limit, s: State)
    requires Woven(s) && Sane(p, s) && Live(s) && s.cells[0].state != RESOLVED
    requires limit.AtMost? ==> limit.n >= 1
    requires forall i: nat | ListedWork(limit, s, i) :: s.cells[i].state == SCHEDULED
    ensures exists i: nat :: i in s.queue && i < |s.cells| && s.cells[i].state == SCHEDULED
  {
    var live: set<nat> :| Carries(s, live);
    if forall i | i in s.queue && i < |s.cells| :: s.cells[i].state != SCHEDULED {
      CarriedHasWork(p, limit, s, live, 0);
    }
  }

  // ---------------------------------------------------------------- every action

  lemma UpdateWoven(s: State, i: nat, c: Cell)
    requires Woven(s) && i < |s.cells| && c.parent == s.cells[i].parent && c.nested == s.cells[i].nested
    requires c.state == RAN ==> s.cells[i].state == RAN
    ensures Woven(SetCell(s, i, c))
  {
    var t := SetCell(s, i, c);
    var live: set<nat> :| Carries(s, live);
    forall j: nat | j < |t.cells| ensures ParentBelow(t, j) && RanNested(t, j) {
      assert ParentBelow(s, j) && RanNested(s, j);
    }
    forall j | j in live ensures Carried(t, live, j) {
      assert Carried(s, live, j);
      forall k: nat | Uses(t.calls[j], k) ensures SameHome(t, live, j, k) {
        assert SameHome(s, live, j, k);
      }
    }
    assert Carries(t, live);
  }

  lemma SweepWoven(s: State, i: nat)
    requires Woven(s)
    ensures Woven(Sweep(s, i))
  {
    var t := Sweep(s, i);
    var live: set<nat> :| Carries(s, live);
    forall j: nat | j < |t.cells| ensures ParentBelow(t, j) && RanNested(t, j) {
      assert ParentBelow(s, j) && RanNested(s, j);
    }
    forall j | j in live ensures Carried(t, live, j) {
      assert Carried(s, live, j);
      forall k: nat | Uses(t.calls[j], k) ensures SameHome(t, live, j, k) {
        assert SameHome(s, live, j, k);
      }
    }
    assert Carries(t, live);
  }

  /** A new layer is listed in full, and its last future becomes what its parent waits for. */
  lemma SpawnLinked(s: State, i: nat, layer: Layer)
    requires Linked(s) && i < |s.cells| && ValidLayer(layer.calls)
    ensures Linked(Spawn(s, i, layer)) && s.queue <= Spawn(s, i, layer).queue
    ensures forall x: nat ::
              x in Spawn(s, i, layer).queue <==> x in s.queue || |s.calls| <= x < |s.calls| + |layer.calls|
  {
    var t := Spawn(s, i, layer);
    SpawnCalls(s.calls, layer.calls);
    EnqueueLayer(t.calls, s.queue, |s.calls|);
    forall j: nat | j < |t.cells| ensures ParentBelow(t, j) && RanNested(t, j) {
      if j < |s.cells| {
        assert ParentBelow(s, j) && RanNested(s, j);
      }
    }
  }

  lemma SpawnWoven(s: State, i: nat, layer: Layer)
    requires Woven(s) && i < |s.cells| && ValidLayer(layer.calls)
    ensures Woven(Spawn(s, i, layer))
  {
    var t, base := Spawn(s, i, layer), |s.calls|;
    var live: set<nat> :| Carries(s, live);
    var all := live + Range(base, |t.cells|);
    SpawnLinked(s, i, layer);
    SpawnCalls(s.calls, layer.calls);
    forall j | j in all ensures Carried(t, all, j) {
      if j < base {
        assert Carried(s, live, j) && RanNested(s, j);
      }
      forall k: nat | Uses(t.calls[j], k) ensures SameHome(t, all, j, k) {
        assert k < j;
        if j < base {
          assert SameHome(s, live, j, k);
        }
      }
    }
    assert Carries(t, all);
  }

  lemma ActionKeepsWoven(p: Program, limit: Limit, s: State, a: Action)
    requires p.Valid() && Woven(s) && Enabled(limit, s, a)
    ensures Woven(Apply(p, s, a)) && s.queue <= Apply(p, s, a).queue
  {
    var i, t := a.i, Apply(p, s, a);
    match a {
      case Prepare(_) => UpdateWoven(s, i, t.cells[i]);
      case Begin(_) => UpdateWoven(s, i, t.cells[i]);
      case Bubble(_) => UpdateWoven(s, i, t.cells[i]);
      case Settle(_) =>
        match OutcomeOf(p, s, i) {
          case Returned(_) => UpdateWoven(s, i, t.cells[i]);
          case ReturnedFuture(layer) =>
            SpawnLinked(s, i, layer);
            SpawnWoven(s, i, layer);
          case Raised(_, _, _) =>
            if p.Retried(s.calls[i].func, s.cells[i].resolvedKwargs, s.cells[i].retryCount) {
              UpdateWoven(s, i, t.cells[i]);
            } else {
              SweepWoven(s, i);
            }
        }
    }
  }

  /** A state that a runner can go on from. */
  ghost predicate Fit(p: Program, s: State) {
    Sane(p, s) && Woven(s)
  }

  lemma InvIsFit(p: Program, s: State)
    requires Inv(p, s)
    ensures Fit(p, s)
  {
    InvIsSane(p, s);
    InvIsWoven(p, s);
  }

  lemma ActionKeepsFit(p: Program, limit: Limit, s: State, a: Action)
    requires p.Valid() && Fit(p, s) && Enabled(limit, s, a)
    ensures var t := Apply(p, s, a);
            Fit(p, t) && s.calls <= t.calls && s.queue <= t.queue
  {
    ActionKeepsSane(p, limit, s, a);
    ActionKeepsWoven(p, limit, s, a);
  }

  /** Everything that a run can reach from such a state is such a state. */
  lemma {:induction false} RunKeepsFit(p: Program, limit: Limit, s: State, actions: seq<Action>, t: State)
    requires p.Valid() && Fit(p, s) && RunsTo(p, limit, s, actions, t)
    ensures Fit(p, t)
    decreases |actions|
  {
    if actions != [] {
      ActionKeepsFit(p, limit, s, actions[0]);
      RunKeepsFit(p, limit, Apply(p, s, actions[0]), actions[1..], t);
    }
  }
}
