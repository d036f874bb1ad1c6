/** Rerunning a pipeline from one of its runs: the clone is a valid runner state, and running
    it to the end gives what the original call evaluates to. */
module Rerun {
  import opened FutureStates
  import opened Semantics
  import opened RunnerState
  import opened RunnerInvariant
  import opened RunnerSoundness
  import opened RunnerTheorems
  import opened RunnerTermination
  import opened RunnerProgress
  import opened Runner
  import opened Algorithms
  import opened RunGraph
  import opened LayerOrder
  import opened Records
  import opened RerunFacts
  import opened Clone
  import opened CloneSeed
  import opened CloneContinue
  import opened CloneProgress
  import G = Graph

  /** The clone with the arguments that are concrete noted on every listed future. */
  function Seeded(c: State): State
    requires |c.calls| == |c.cells|
  {
    c.(cells := seq(|c.cells|, i requires 0 <= i < |c.cells| =>
      if i in c.queue then c.cells[i].(resolvedKwargs := Bind(c.calls[i].kwargs, Known(c))) else c.cells[i]))
  }

  /** `c` is the clone, for a rerun from `r`, of a graph recorded from the state `s`. */
  ghost predicate IsSeed(p: Program, s: State, g: GraphData, at: map<Id, nat>, r: Id, standalone: Func -> bool,
      c: State) {
    && Original(s, g, at, r) && Life(p, s) && Keepable(g, at, r)
    && IsClone(g, standalone, ResetSet(g, at, r), KeptIds(g, at, r), c)
  }

  /** The clone of the `i`-th kept run. */
  ghost predicate FitsAt(s: State, g: GraphData, at: map<Id, nat>, r: Id, c: State, i: nat)
    requires WellFormed(g, at) && r in at
  {
    var ids := KeptIds(g, at, r);
    && i < |ids| == |c.calls| == |c.cells| && ids[i] in at && at[ids[i]] < |s.cells| == |s.calls|
    && CloneFits(s, g, at, r, ids, ids[i], c.cells[i])
    && Position(ids, ids[i]) == i
  }

  lemma {:induction false} SeedAt(p: Program, s: State, g: GraphData, at: map<Id, nat>, r: Id,
      standalone: Func -> bool, c: State, i: nat)
    requires IsSeed(p, s, g, at, r, standalone, c) && i < |c.calls|
    ensures FitsAt(s, g, at, r, c, i) && KeptIds(g, at, r)[i] in KeptIds(g, at, r)
  {
    var ids := KeptIds(g, at, r);
    KeptMembers(s, g, at, r);
    PositionUnique(ids, i);
    assert ClonedAt(g, standalone, ResetSet(g, at, r), ids, c.calls, c.cells, i);
    CloneCellFits(p, s, g, at, r, ids[i]);
  }

  /** A kept run with a kept child is open or taken over, and has a nested future. */
  lemma {:induction false} SeedParent(p: Program, s: State, g: GraphData, at: map<Id, nat>, r: Id,
      standalone: Func -> bool, c: State, i: nat)
    requires IsSeed(p, s, g, at, r, standalone, c) && 0 < i < |c.calls|
    ensures var ids := KeptIds(g, at, r);
            && i < |ids| && ParentOf(g, ids[i]).Some? && ParentOf(g, ids[i]).value in ids
            && Position(ids, ParentOf(g, ids[i]).value) < i
            && FitsAt(s, g, at, r, c, Position(ids, ParentOf(g, ids[i]).value))
            && RoleOf(s, g, at, r, ParentOf(g, ids[i]).value) in {Ancestor, TakenOver}
  {
    var ids := KeptIds(g, at, r);
    SeedAt(p, s, g, at, r, standalone, c, i);
    KeptMembers(s, g, at, r);
    var root := RootFirst(s, g, at, r);
    PositionUnique(ids, 0);
    var x := ids[i];
    KeptParent(s, g, at, r, x);
    var q := ParentOf(g, x).value;
    SeedAt(p, s, g, at, r, standalone, c, Position(ids, q));
    SkippedByParent(g, at, r, x);
    ChildIs(g, at, Some(q), x);
    KeptParentRole(s, g, at, r, q, x);
  }

  /** A kept run that may not be open has no runs below it unless it is taken over or reset. */
  lemma {:induction false} KeptParentRole(s: State, g: GraphData, at: map<Id, nat>, r: Id, q: Id, x: Id)
    requires FromRecord(s, g, at, r) && Keepable(g, at, r) && q in at && at[q] < |s.cells|
    requires !Skipped(g, at, r, q) && x in Children(g.runs, Some(q))
    ensures !RoleOf(s, g, at, r, q).Pending?
  {
    RunOf(g, s, at, q);
    assert Reset(g, at, r, q) || KeepableRun(g, q);
  }

  lemma {:induction false} SeedHasParent(p: Program, s: State, g: GraphData, at: map<Id, nat>, r: Id,
      standalone: Func -> bool, c: State, i: nat)
    requires IsSeed(p, s, g, at, r, standalone, c) && 0 < i < |c.calls|
    ensures i < |c.cells| && HasParent(c, i)
  {
    SeedAt(p, s, g, at, r, standalone, c, i);
    SeedParent(p, s, g, at, r, standalone, c, i);
    var ids := KeptIds(g, at, r);
    var q := ParentOf(g, ids[i]).value;
    ParentNested(s, g, at, ids[i], q);
    ParentLinked(s, g, at, r, c, i, Position(ids, q));
  }

  /** The parent of a recorded run has a nested one. */
  lemma {:induction false} ParentNested(s: State, g: GraphData, at: map<Id, nat>, x: Id, q: Id)
    requires Shape(s) && RecordedAs(g, s, at) && WellFormed(g, at) && x in at && ParentOf(g, x) == Some(q) && q in at
    ensures at[q] < |s.cells| && s.cells[at[q]].nested.Some?
  {
    RunOf(g, s, at, x);
    assert at[x] > 0 ==> HasParent(s, at[x]);
  }

  lemma {:induction false} ParentLinked(s: State, g: GraphData, at: map<Id, nat>, r: Id, c: State, i: nat, j: nat)
    requires WellFormed(g, at) && r in at && FitsAt(s, g, at, r, c, i) && FitsAt(s, g, at, r, c, j) && j < i
    requires ParentOf(g, KeptIds(g, at, r)[i]) == Some(KeptIds(g, at, r)[j])
    requires RoleOf(s, g, at, r, KeptIds(g, at, r)[j]) in {Ancestor, TakenOver}
    requires s.cells[at[KeptIds(g, at, r)[j]]].nested.Some?
    ensures HasParent(c, i)
  {
  }

  /** Every seed is a clone. */
  lemma SeedCopies(s: State, g: GraphData, at: map<Id, nat>, r: Id, standalone: Func -> bool, c: State)
    requires FromRecord(s, g, at, r) && IsClone(g, standalone, ResetSet(g, at, r), KeptIds(g, at, r), c)
    ensures Copies(s, g, at, standalone, ResetSet(g, at, r), KeptIds(g, at, r), c)
    ensures ValidCalls(c.calls)
  {
    CloneValidCalls(s, g, at, standalone, ResetSet(g, at, r), KeptIds(g, at, r), c);
  }

  /** The last run of a kept layer is nested in its parent's clone. */
  lemma {:induction false} SeedNestedLink(p: Program, s: State, g: GraphData, at: map<Id, nat>, r: Id,
      standalone: Func -> bool, c: State, i: nat, q: Id)
    requires IsSeed(p, s, g, at, r, standalone, c) && 0 < i < |c.calls|
    requires FitsAt(s, g, at, r, c, i) && ParentOf(g, KeptIds(g, at, r)[i]) == Some(q) && q in at
    requires at[q] < |s.cells| && s.cells[at[q]].nested == Some(at[KeptIds(g, at, r)[i]])
    ensures Position(KeptIds(g, at, r), q) < |c.cells| && c.cells[Position(KeptIds(g, at, r), q)].nested == Some(i)
  {
    SeedParent(p, s, g, at, r, standalone, c, i);
    var ids := KeptIds(g, at, r);
    var y :| y in ids && y in at && at[y] == at[ids[i]] && c.cells[Position(ids, q)].nested == Some(Position(ids, y));
    assert SameIndex(at, y, ids[i]);
  }

  lemma {:induction false} SeedLinked(p: Program, s: State, g: GraphData, at: map<Id, nat>, r: Id,
      standalone: Func -> bool, c: State, i: nat)
    requires IsSeed(p, s, g, at, r, standalone, c) && 0 < i < |c.calls|
    ensures i < |c.cells| && HasParent(c, i) && LinkedUp(c, i)
  {
    SeedHasParent(p, s, g, at, r, standalone, c, i);
    SeedAt(p, s, g, at, r, standalone, c, i);
    var x := KeptIds(g, at, r)[i];
    RunOf(g, s, at, x);
    assert at[x] > 0 ==> HasParent(s, at[x]) && LinkedUp(s, at[x]);
    if UsedLater(s.calls, at[x]) {
      SeedCopies(s, g, at, r, standalone, c);
      SeedUsedLater(s, g, at, r, standalone, c, i);
    } else {
      SeedNestedLink(p, s, g, at, r, standalone, c, i, ParentOf(g, x).value);
    }
  }

  lemma {:induction false} SeedUsedLater(s: State, g: GraphData, at: map<Id, nat>, r: Id,
      standalone: Func -> bool, c: State, i: nat)
    requires Original(s, g, at, r) && IsClone(g, standalone, ResetSet(g, at, r), KeptIds(g, at, r), c)
             && ValidCalls(c.calls)
    requires i < |c.calls| && KeptIds(g, at, r)[i] in at && UsedLater(s.calls, at[KeptIds(g, at, r)[i]])
    ensures UsedLater(c.calls, i)
  {
    var ids := KeptIds(g, at, r);
    var x := ids[i];
    var j: nat :| at[x] < j < |s.calls| && Uses(s.calls[j], at[x]);
    assert HasName(at, j);
    var z :| z in at && at[z] == j;
    assert SameLayer(s, j);
    SameParent(g, s, at, x, z);
    KeptMembers(s, g, at, r);
    assert x in ids;
    SiblingsSkipped(g, at, r, x, z);
    UseIsCloned(s, g, at, r, standalone, c, i, Position(ids, z));
  }

  /** If both runs are kept, the clone of the one uses the clone of the other. */
  lemma {:induction false} UseIsCloned(s: State, g: GraphData, at: map<Id, nat>, r: Id,
      standalone: Func -> bool, c: State, i: nat, k: nat)
    requires Original(s, g, at, r) && IsClone(g, standalone, ResetSet(g, at, r), KeptIds(g, at, r), c)
             && ValidCalls(c.calls)
    requires i < |c.calls| && k < |c.calls| && KeptIds(g, at, r)[i] in at && KeptIds(g, at, r)[k] in at
    requires at[KeptIds(g, at, r)[k]] < |s.calls| && Uses(s.calls[at[KeptIds(g, at, r)[k]]], at[KeptIds(g, at, r)[i]])
    ensures Uses(c.calls[k], i) && i < k
  {
    CloneRenames(s, g, at, standalone, ResetSet(g, at, r), KeptIds(g, at, r), c);
    NamesDistinct(s, g, at, KeptIds(g, at, r));
    forall m: nat | Uses(c.calls[k], m) ensures m < |c.calls| {}
    CloneUses(c.calls, s.calls, Names(at, KeptIds(g, at, r)), k, i);
  }

  lemma {:induction false} SeedNestedOk(p: Program, s: State, g: GraphData, at: map<Id, nat>, r: Id,
      standalone: Func -> bool, c: State, i: nat)
    requires IsSeed(p, s, g, at, r, standalone, c) && i < |c.calls|
    ensures i < |c.cells| && NestedOk(c, i)
  {
    SeedAt(p, s, g, at, r, standalone, c, i);
    var ids := KeptIds(g, at, r);
    if c.cells[i].nested.Some? {
      var y :| y in ids && y in at && ParentOf(g, y) == Some(ids[i]) && c.cells[i].nested == Some(Position(ids, y));
      KeptParent(s, g, at, r, y);
      SeedAt(p, s, g, at, r, standalone, c, Position(ids, y));
    }
  }

  lemma {:induction false} SeedSameLayer(p: Program, s: State, g: GraphData, at: map<Id, nat>, r: Id,
      standalone: Func -> bool, c: State, i: nat)
    requires IsSeed(p, s, g, at, r, standalone, c) && i < |c.calls| == |c.cells|
    ensures SameLayer(c, i)
  {
    forall j: nat | j < |c.cells| && Uses(c.calls[i], j) ensures c.cells[j].parent == c.cells[i].parent {
      var e := CloneUsesEdge(s, g, at, standalone, ResetSet(g, at, r), KeptIds(g, at, r), c, i, j);
      EdgeParents(g, at, e);
      SeedAt(p, s, g, at, r, standalone, c, i);
      SeedAt(p, s, g, at, r, standalone, c, j);
    }
  }

  lemma EdgeParents(g: GraphData, at: map<Id, nat>, e: Edge)
    requires WellFormed(g, at) && e in g.edges && e.source.Some? && e.destination.Some?
    ensures ParentOf(g, e.source.value) == ParentOf(g, e.destination.value)
  {
    assert EdgeOk(g, at, e);
  }

  lemma {:induction false} SeedShape(p: Program, s: State, g: GraphData, at: map<Id, nat>, r: Id,
      standalone: Func -> bool, c: State)
    requires IsSeed(p, s, g, at, r, standalone, c)
    ensures Shape(c)
  {
    SeedCopies(s, g, at, r, standalone, c);
    CloneQueue(s, g, at, r, standalone, c);
    var root := RootFirst(s, g, at, r);
    SeedAt(p, s, g, at, r, standalone, c, 0);
    forall i: nat | 0 < i < |c.cells| ensures HasParent(c, i) && LinkedUp(c, i) {
      SeedLinked(p, s, g, at, r, standalone, c, i);
    }
    forall i: nat | i < |c.cells| ensures NestedOk(c, i) && SameLayer(c, i) {
      SeedNestedOk(p, s, g, at, r, standalone, c, i);
      SeedSameLayer(p, s, g, at, r, standalone, c, i);
    }
  }

  // ------------------------------------------------------------------- states

  lemma SeededCell(c: State, i: nat)
    requires i < |c.calls| == |c.cells|
    ensures |Seeded(c).cells| == |c.cells| && Seeded(c).calls == c.calls && Seeded(c).queue == c.queue
    ensures Seeded(c).cells[i] == c.cells[i].(resolvedKwargs := Seeded(c).cells[i].resolvedKwargs)
    ensures i in c.queue ==> Seeded(c).cells[i].resolvedKwargs == Bind(c.calls[i].kwargs, Known(c))
    ensures i !in c.queue ==> Seeded(c).cells[i] == c.cells[i]
    ensures Known(Seeded(c)) == Known(c)
  {
  }

  /** What an open or a taken-over run depends on is taken over. */
  lemma {:induction false} SeedInput(p: Program, s: State, g: GraphData, at: map<Id, nat>, r: Id,
      standalone: Func -> bool, c: State, i: nat, j: nat)
    requires IsSeed(p, s, g, at, r, standalone, c) && i < |c.calls| && FitsAt(s, g, at, r, c, i)
    requires RoleOf(s, g, at, r, KeptIds(g, at, r)[i]) in {Ancestor, TakenOver} && Uses(c.calls[i], j)
    ensures j < |c.cells| && c.cells[j].state == RESOLVED && c.cells[j].value.Some?
  {
    var ids := KeptIds(g, at, r);
    var e := CloneUsesEdge(s, g, at, standalone, ResetSet(g, at, r), KeptIds(g, at, r), c, i, j);
    SeedAt(p, s, g, at, r, standalone, c, j);
    var x, a := ids[i], ids[j];
    NotAffected(s, g, at, r, x);
    UpstreamNotReset(g, at, r, e);
    StartedBefore(p, s, g, at, r, x);
    EdgeUses(g, s, at, e);
    ReadyInput(s, at[x], at[a]);
    RunOf(g, s, at, a);
  }

  lemma NotAffected(s: State, g: GraphData, at: map<Id, nat>, r: Id, x: Id)
    requires WellFormed(g, at) && r in at && x in at && at[x] < |s.cells|
    requires RoleOf(s, g, at, r, x) in {Ancestor, TakenOver}
    ensures !Affected(g, at, r, x)
  {
    if Affected(g, at, r, x) {
      AffectedNotAbove(g, at, r, x);
    }
  }

  /** In the original, an open or a taken-over run had started, with its inputs resolved. */
  lemma StartedBefore(p: Program, s: State, g: GraphData, at: map<Id, nat>, r: Id, x: Id)
    requires Original(s, g, at, r) && Life(p, s) && x in at && at[x] < |s.cells|
    requires RoleOf(s, g, at, r, x) in {Ancestor, TakenOver}
    ensures Ready(s, at[x])
  {
    assert CellOk(p, s, at[x]);
    if Above(g, at, x, r) {
      AncestorNested(s, g, at, r, x);
    }
  }

  lemma {:induction false} SeedReady(p: Program, s: State, g: GraphData, at: map<Id, nat>, r: Id,
      standalone: Func -> bool, c: State, i: nat)
    requires IsSeed(p, s, g, at, r, standalone, c) && i < |c.calls| && FitsAt(s, g, at, r, c, i)
    requires RoleOf(s, g, at, r, KeptIds(g, at, r)[i]) in {Ancestor, TakenOver}
    ensures Ready(c, i)
  {
    forall j: nat | Uses(c.calls[i], j)
      ensures j < |c.cells| && c.cells[j].state == RESOLVED && c.cells[j].value.Some?
    {
      SeedInput(p, s, g, at, r, standalone, c, i, j);
    }
    InputsKnown(c, i);
  }

  lemma InputsKnown(c: State, i: nat)
    requires i < |c.calls|
    requires forall j: nat | Uses(c.calls[i], j) ::
               j < |c.cells| && c.cells[j].state == RESOLVED && c.cells[j].value.Some?
    ensures Ready(c, i)
  {
    forall k | 0 <= k < |c.calls[i].kwargs| ensures Lookup(c.calls[i].kwargs[k].arg, Known(c)).Val? {
      if c.calls[i].kwargs[k].arg.Upstream? {
        assert Uses(c.calls[i], c.calls[i].kwargs[k].arg.id);
      }
    }
  }

  /** The nested run of a run taken over is taken over, with the same value. */
  lemma {:induction false} SeedNestedValue(p: Program, s: State, g: GraphData, at: map<Id, nat>, r: Id,
      standalone: Func -> bool, c: State, i: nat)
    requires IsSeed(p, s, g, at, r, standalone, c) && i < |c.calls| && FitsAt(s, g, at, r, c, i)
    requires RoleOf(s, g, at, r, KeptIds(g, at, r)[i]).TakenOver? && c.cells[i].nested.Some?
    ensures c.cells[i].nested.value < |c.cells| && c.cells[c.cells[i].nested.value].value == c.cells[i].value
  {
    var ids := KeptIds(g, at, r);
    var x := ids[i];
    var y :| y in ids && y in at && ParentOf(g, y) == Some(x) && s.cells[at[x]].nested == Some(at[y])
             && c.cells[i].nested == Some(Position(ids, y));
    SeedAt(p, s, g, at, r, standalone, c, Position(ids, y));
    NestedTakenOver(p, s, g, at, r, x, y);
  }

  lemma NestedTakenOver(p: Program, s: State, g: GraphData, at: map<Id, nat>, r: Id, x: Id, y: Id)
    requires WellFormed(g, at) && r in at && |s.cells| == |s.calls| && Life(p, s) && x in at && y in at
    requires at[x] < |s.cells| && at[y] < |s.cells| && RoleOf(s, g, at, r, x).TakenOver?
    requires ParentOf(g, y) == Some(x) && s.cells[at[x]].nested == Some(at[y])
    ensures RoleOf(s, g, at, r, y).TakenOver? && s.cells[at[y]].value == s.cells[at[x]].value
  {
    assert CellOk(p, s, at[x]) && CellOk(p, s, at[y]);
    if Reset(g, at, r, y) {
      ResetParent(g, at, r, y);
    }
  }

  lemma {:induction false} SeedCellOk(p: Program, s: State, g: GraphData, at: map<Id, nat>, r: Id,
      standalone: Func -> bool, c: State, i: nat)
    requires IsSeed(p, s, g, at, r, standalone, c) && i < |c.calls|
    ensures |c.cells| == |c.calls| && CellOk(p, Seeded(c), i)
    ensures Seeded(c).cells[i].state in {CREATED, RAN, RESOLVED}
  {
    SeedAt(p, s, g, at, r, standalone, c, i);
    CloneQueue(s, g, at, r, standalone, c);
    SeededCell(c, i);
    var x := KeptIds(g, at, r)[i];
    assert CellOk(p, s, at[x]);
    var role := RoleOf(s, g, at, r, x);
    if role in {Ancestor, TakenOver} {
      SeedReady(p, s, g, at, r, standalone, c, i);
    }
    if role.Ancestor? {
      AncestorNested(s, g, at, r, x);
    }
    if role.TakenOver? && c.cells[i].nested.Some? {
      SeedNestedValue(p, s, g, at, r, standalone, c, i);
      SeededCell(c, c.cells[i].nested.value);
    }
  }

  // --------------------------------------------------------------- meaning

  /** The values and nested links of any clone are right. */
  lemma {:induction false} CloneIsSound(p: Program, n: nat, s: State, g: GraphData, at: map<Id, nat>,
      standalone: Func -> bool, reset: set<Id>, ids: seq<Id>, c: State)
    requires Copies(s, g, at, standalone, reset, ids, c) && |c.cells| == |c.calls|
    requires Life(p, s) && Sound(p, n, s)
    ensures Sound(p, n, Seeded(c))
  {
    forall i: nat | i < |c.cells| ensures NestedAgrees(p, n, Seeded(c), i) && ValueAgrees(p, n, Seeded(c), i) {
      SeededCell(c, i);
      CloneNestedAgrees(p, n, s, g, at, standalone, reset, ids, c, i);
      CloneValueAgrees(p, n, s, g, at, standalone, reset, ids, c, i);
    }
  }

  /** Every clone of a record can be run without computing a wrong value: a rerun from any run
      or a continuation, with runs missing or not, whatever the states of the runs kept. */
  lemma {:induction false} CloneIsSane(p: Program, s: State, g: GraphData, at: map<Id, nat>,
      standalone: Func -> bool, reset: set<Id>, ids: seq<Id>, c: State)
    requires Copies(s, g, at, standalone, reset, ids, c) && |c.cells| == |c.calls| && Inv(p, s)
    ensures Sane(p, Seeded(c))
  {
    var n: nat :| Sound(p, n, s);
    CloneValidCalls(s, g, at, standalone, reset, ids, c);
    CloneIsSound(p, n, s, g, at, standalone, reset, ids, c);
    forall i: nat | i < |c.cells|
      ensures SaneCell(p, Seeded(c), i) && PastOk(p, Seeded(c), i)
      ensures Seeded(c).cells[i].nested.Some? ==> Seeded(c).cells[i].nested.value < |c.cells|
    {
      SeededCell(c, i);
      CloneNestedAgrees(p, n, s, g, at, standalone, reset, ids, c, i);
      CloneValueAgrees(p, n, s, g, at, standalone, reset, ids, c, i);
    }
  }

  /** The clone for a rerun is a valid state for the runner: ancestors of the starting point
      are open with their nested futures set, everything affected starts over, what is taken
      over has all its inputs taken over, and the root comes first. */
  lemma {:induction false} CloneIsValidSeed(p: Program, s: State, g: GraphData, at: map<Id, nat>, r: Id,
      standalone: Func -> bool, c: State)
    requires IsSeed(p, s, g, at, r, standalone, c) && Inv(p, s)
    ensures |c.cells| == |c.calls| && Inv(p, Seeded(c)) && Live(Seeded(c))
    ensures forall i | 0 <= i < |c.cells| :: c.cells[i].state in {CREATED, RAN, RESOLVED}
    ensures forall n: nat :: Eval(p, n, c.calls, 0) == Eval(p, n, s.calls, 0)
    ensures forall n: nat | Total(p, n, s.calls) :: Total(p, n, c.calls)
  {
    SeedShape(p, s, g, at, r, standalone, c);
    forall i: nat | i < |c.cells|
      ensures CellOk(p, Seeded(c), i) && Seeded(c).cells[i].state in {CREATED, RAN, RESOLVED}
    {
      SeedCellOk(p, s, g, at, r, standalone, c, i);
    }
    forall i: nat | i < |c.cells| ensures c.cells[i].state in {CREATED, RAN, RESOLVED} {
      SeededCell(c, i);
    }
    SeededShape(c);
    var m: nat :| Sound(p, m, s);
    SeedCopies(s, g, at, r, standalone, c);
    CloneIsSound(p, m, s, g, at, standalone, ResetSet(g, at, r), KeptIds(g, at, r), c);
    var root := RootFirst(s, g, at, r);
    forall n: nat ensures Eval(p, n, c.calls, 0) == Eval(p, n, s.calls, 0) {
      CloneEval(p, n, s, g, at, standalone, ResetSet(g, at, r), KeptIds(g, at, r), c, 0);
    }
    forall n: nat | Total(p, n, s.calls) ensures Total(p, n, c.calls) {
      forall i: nat | i < |c.calls| ensures Eval(p, n, c.calls, i) != Unknown {
        CloneEval(p, n, s, g, at, standalone, ResetSet(g, at, r), KeptIds(g, at, r), c, i);
      }
    }
  }

  lemma SeededShape(c: State)
    requires Shape(c)
    ensures Shape(Seeded(c))
  {
    var t := Seeded(c);
    forall i: nat | 0 < i < |t.cells| ensures HasParent(t, i) && LinkedUp(t, i) {
      assert HasParent(c, i) && LinkedUp(c, i);
    }
    forall i: nat | i < |t.cells| ensures NestedOk(t, i) && SameLayer(t, i) {
      assert NestedOk(c, i) && SameLayer(c, i);
    }
  }

  /** Conversely, a kept run that was not resolved but has runs below it is cloned as a
      future that has not started and yet has a nested future. */
  lemma {:induction false} SeedNeedsKeepable(p: Program, s: State, g: GraphData, at: map<Id, nat>, r: Id,
      standalone: Func -> bool, c: State)
    requires Original(s, g, at, r) && IsClone(g, standalone, ResetSet(g, at, r), KeptIds(g, at, r), c)
    requires Inv(p, Seeded(c))
    ensures Keepable(g, at, r)
  {
    var ids := KeptIds(g, at, r);
    KeptMembers(s, g, at, r);
    forall x | x in at && !Skipped(g, at, r, x) && !Reset(g, at, r, x) ensures KeepableRun(g, x) {
      RunOf(g, s, at, x);
      if !KeepableRun(g, x) {
        var y := Children(g.runs, Some(x))[0];
        assert y in Children(g.runs, Some(x));
        ChildIs(g, at, Some(x), y);
        SkippedByParent(g, at, r, y);
        OpenClone(s, g, at, r, standalone, c, x, y);
        ParentStarted(p, Seeded(c), Position(ids, y));
        assert false;
      }
    }
  }

  lemma ParentStarted(p: Program, t: State, j: nat)
    requires Inv(p, t) && 0 < j < |t.cells|
    ensures t.cells[j].parent.Some? && t.cells[j].parent.value < |t.cells|
    ensures t.cells[t.cells[j].parent.value].state != CREATED
  {
    assert HasParent(t, j) && CellOk(p, t, t.cells[j].parent.value);
  }

  lemma {:induction false} OpenClone(s: State, g: GraphData, at: map<Id, nat>, r: Id, standalone: Func -> bool,
      c: State, x: Id, y: Id)
    requires Original(s, g, at, r) && IsClone(g, standalone, ResetSet(g, at, r), KeptIds(g, at, r), c)
    requires x in KeptIds(g, at, r) && y in KeptIds(g, at, r) && x in at && ParentOf(g, y) == Some(x)
             && !Reset(g, at, r, x)
    requires RunById(g.runs, x).Some? && RunById(g.runs, x).value.state != RESOLVED
    ensures var ids := KeptIds(g, at, r);
            && 0 < Position(ids, y) < |Seeded(c).cells| && Position(ids, x) < |Seeded(c).cells|
            && Seeded(c).cells[Position(ids, y)].parent == Some(Position(ids, x))
            && Seeded(c).cells[Position(ids, x)].state == CREATED
  {
    var ids := KeptIds(g, at, r);
    KeptMembers(s, g, at, r);
    var i, j := Position(ids, x), Position(ids, y);
    assert ClonedAt(g, standalone, ResetSet(g, at, r), ids, c.calls, c.cells, i);
    assert ClonedAt(g, standalone, ResetSet(g, at, r), ids, c.calls, c.cells, j);
    RunOf(g, s, at, y);
    SeededCell(c, i);
    SeededCell(c, j);
    var root := RootFirst(s, g, at, r);
    PositionUnique(ids, 0);
    NotReopened(g, at, r, ids, RunById(g.runs, x).value);
  }

  /** A run that was open and is not reset waits again: what is nested in it is not reset. */
  lemma NotReopened(g: GraphData, at: map<Id, nat>, r: Id, ids: seq<Id>, run: Run)
    requires WellFormed(g, at) && r in at && run.id in at && !Reset(g, at, r, run.id) && run.state != RESOLVED
    ensures CloneCell(g, ResetSet(g, at, r), ids, run).state == CREATED
  {
    var nested := NestedClone(g, ids, run);
    if nested.Some? && nested.value in ResetSet(g, at, r) {
      ResetParent(g, at, r, nested.value);
    }
  }

  // ------------------------------------------------------------------ end to end

  /** Cloning preserves meaning: record any state a pipeline run can reach, clone the record in
      any mode, skipping and resetting what that mode does, and run the clone under any limit
      and schedule: if the root resolves, its value is what the original root call evaluates to. */
  lemma {:induction false} ClonePreservesMeaning(p: Program, root: Call, limit: Limit, actions: seq<Action>, s: State,
      g: GraphData, at: map<Id, nat>, standalone: Func -> bool, skip: seq<Id>, reset: seq<Id>, complete: bool,
      result: CloneResult, limit': Limit, actions': seq<Action>, t: State)
    requires p.Valid() && forall k | 0 <= k < |root.kwargs| :: root.kwargs[k].arg.Concrete?
    requires RunsTo(p, limit, Initial(root), actions, s) && RecordedAs(g, s, at)
    requires CloneOf(g, standalone, skip, reset, complete, result) && result.Cloned?
    requires forall x | x in skip :: ParentOf(g, x).Some?
    requires |result.state.cells| == |result.state.calls|
    requires RunsTo(p, limit', Seeded(result.state), actions', t) && t.cells != [] && t.cells[0].state == RESOLVED
    ensures t.cells[0].value.Some? && EvaluatesTo(p, [root], 0, t.cells[0].value.value)
  {
    OriginalReached(p, root, limit, actions, s);
    var ids, c := result.ids, result.state;
    RecordsWellFormed(g, s, at);
    CloneIsSane(p, s, g, at, standalone, Elements(reset), ids, c);
    CloneStarts(s, g, at, skip);
    SaneRuns(p, limit', Seeded(c), actions', t, 0);
    var n: nat :| Eval(p, n, c.calls, 0) == Val(t.cells[0].value.value);
    CloneEval(p, n, s, g, at, standalone, Elements(reset), ids, c, 0);
    RootOfExtension(p, n, [root], s.calls);
    assert Eval(p, n, [root], 0) == Val(t.cells[0].value.value);
  }

  /** Unless the root is skipped, it is cloned first. */
  lemma CloneStarts(s: State, g: GraphData, at: map<Id, nat>, skip: seq<Id>)
    requires Shape(s) && RecordedAs(g, s, at) && WellFormed(g, at) && forall x | x in skip :: ParentOf(g, x).Some?
    ensures var ids := Kept(SortedByLayer(g, false), Elements(skip));
            ids != [] && ids[0] in at && at[ids[0]] == 0
  {
    var root := RootRun(g, s, at);
    OrderStarts(g, at, false, root);
    KeptStarts(SortedByLayer(g, false), Elements(skip));
  }

  /** Rerunning preserves meaning, from any run of any record, complete or not. */
  lemma {:induction false} RerunPreservesMeaning(p: Program, root: Call, limit: Limit, actions: seq<Action>, s: State,
      g: GraphData, at: map<Id, nat>, r: Id, standalone: Func -> bool, skip: seq<Id>, reset: seq<Id>,
      result: CloneResult, limit': Limit, actions': seq<Action>, t: State)
    requires p.Valid() && forall k | 0 <= k < |root.kwargs| :: root.kwargs[k].arg.Concrete?
    requires RunsTo(p, limit, Initial(root), actions, s) && FromRecord(s, g, at, r)
    requires Elements(skip) == SkippedSet(g, at, r) && Elements(reset) == ResetSet(g, at, r)
    requires CloneOf(g, standalone, skip, reset, false, result)
    ensures result.Cloned?
    ensures RunsTo(p, limit', Seeded(result.state), actions', t) && t.cells != [] && t.cells[0].state == RESOLVED ==>
              t.cells[0].value.Some? && EvaluatesTo(p, [root], 0, t.cells[0].value.value)
  {
    CloningSucceeds(s, g, at, r);
    forall x | x in skip ensures ParentOf(g, x).Some? {
      assert x in Elements(skip);
      SkippedByParent(g, at, r, x);
    }
    if RunsTo(p, limit', Seeded(result.state), actions', t) && t.cells != [] && t.cells[0].state == RESOLVED {
      ClonePreservesMeaning(p, root, limit, actions, s, g, at, standalone, skip, reset, false, result,
                            limit', actions', t);
    }
  }

  lemma OriginalReached(p: Program, root: Call, limit: Limit, actions: seq<Action>, s: State)
    requires p.Valid() && forall k | 0 <= k < |root.kwargs| :: root.kwargs[k].arg.Concrete?
    requires RunsTo(p, limit, Initial(root), actions, s)
    ensures Inv(p, s) && [root] <= s.calls
  {
    InitialInv(p, root);
    RunKeepsInv(p, limit, Initial(root), actions, s);
    RunEvolves(p, limit, Initial(root), actions, s);
  }

  lemma RootOfExtension(p: Program, n: nat, calls: seq<Call>, all: seq<Call>)
    requires calls != [] && calls <= all
    ensures Eval(p, n, all, 0) == Eval(p, n, calls, 0)
  {
    assert all == calls + all[|calls|..];
    EvalExtended(p, n, calls, all[|calls|..], 0);
  }

  lemma {:induction false} ListsAre(g: GraphData, at: map<Id, nat>, r: Id, skip: seq<Id>, reset: seq<Id>)
    requires WellFormed(g, at) && r in at
    requires Elements(skip) == G.RelationsOf(g, at).skip[r] && G.ResetList(G.RelationsOf(g, at), r, reset)
    ensures Elements(skip) == SkippedSet(g, at, r) && Elements(reset) == ResetSet(g, at, r)
  {
    var rel := G.RelationsOf(g, at);
    G.AncestorListIs(g, at, r);
    forall y ensures y in reset <==> y in at && Reset(g, at, r, y) {
      if y in at {
        G.AffectedInIs(g, at, r, y);
      } else if y in [r] + rel.above[r] {
        AboveRank(g, at, y, r);
      }
    }
  }

  // ---------------------------------------------------------------- end to end

  lemma SeededIsWoven(c: State)
    requires |c.calls| == |c.cells| && Woven(c)
    ensures Woven(Seeded(c))
  {
    var t := Seeded(c);
    var live: set<nat> :| Carries(c, live);
    forall i: nat | i < |t.cells| ensures ParentBelow(t, i) && RanNested(t, i) {
      SeededCell(c, i);
      assert ParentBelow(c, i) && RanNested(c, i);
      if c.cells[i].state == RAN {
        SeededCell(c, c.cells[i].nested.value);
      }
    }
    forall i | i in live ensures Carried(t, live, i) {
      assert Carried(c, live, i);
      SeededCell(c, i);
      forall j: nat | Uses(t.calls[i], j) ensures SameHome(t, live, i, j) {
        assert SameHome(c, live, i, j);
        SeededCell(c, j);
      }
    }
    assert Carries(t, live);
  }

  /** A run can start from `t`, and its root evaluates to what the root of `s` does. */
  ghost predicate SeedsRunFrom(p: Program, s: State, t: State)
    requires s.calls != []
  {
    && Fit(p, t) && Live(t) && t.calls != []
    && (forall n: nat :: Eval(p, n, t.calls, 0) == Eval(p, n, s.calls, 0))
    && (forall n: nat | Total(p, n, s.calls) :: Bounded(p, n, t.calls))
  }

  /** `c` can be taken over by a runner, and no future of it is executing. */
  ghost predicate ReadySeed(p: Program, s: State, c: State)
    requires s.calls != []
  {
    && |c.calls| == |c.cells| && (forall i: nat | i in c.queue :: i < |c.calls|)
    && (forall i | 0 <= i < |c.cells| :: c.cells[i].state != SCHEDULED)
    && SeedsRunFrom(p, s, Seeded(c))
  }

  lemma {:induction false} CloneStates(p: Program, s: State, g: GraphData, at: map<Id, nat>,
      standalone: Func -> bool, reset: set<Id>, ids: seq<Id>, c: State)
    requires Copies(s, g, at, standalone, reset, ids, c) && |c.cells| == |c.calls| && Inv(p, s)
    ensures forall i | 0 <= i < |c.cells| :: c.cells[i].state in {CREATED, RAN, RESOLVED}
    ensures Live(Seeded(c))
  {
    var n: nat :| Sound(p, n, s);
    forall i: nat | i < |c.cells|
      ensures c.cells[i].state in {CREATED, RAN, RESOLVED} && Seeded(c).cells[i].state == c.cells[i].state
    {
      CloneValueAgrees(p, n, s, g, at, standalone, reset, ids, c, i);
      SeededCell(c, i);
    }
  }

  lemma {:induction false} CloneIsFit(p: Program, s: State, g: GraphData, at: map<Id, nat>, standalone: Func -> bool,
      skip: set<Id>, reset: set<Id>, c: State)
    requires ClonedFrom(s, g, at, standalone, skip, reset, c) && Inv(p, s)
    ensures |c.calls| == |c.cells| && Fit(p, Seeded(c)) && Live(Seeded(c))
    ensures forall i | 0 <= i < |c.cells| :: c.cells[i].state in {CREATED, RAN, RESOLVED}
  {
    var ids := Kept(SortedByLayer(g, false), skip);
    CloneCopies(s, g, at, standalone, skip, reset, c);
    CloneIsSane(p, s, g, at, standalone, reset, ids, c);
    CloneStates(p, s, g, at, standalone, reset, ids, c);
    CloneIsWoven(s, g, at, standalone, skip, reset, c);
    SeededIsWoven(c);
  }

  lemma {:induction false} CloneEvaluates(p: Program, s: State, g: GraphData, at: map<Id, nat>,
      standalone: Func -> bool, skip: set<Id>, reset: set<Id>, c: State)
    requires ClonedFrom(s, g, at, standalone, skip, reset, c) && Inv(p, s) && c.calls != []
    ensures forall n: nat :: Eval(p, n, c.calls, 0) == Eval(p, n, s.calls, 0)
    ensures forall n: nat | Total(p, n, s.calls) :: Bounded(p, n, c.calls)
  {
    forall n: nat ensures Eval(p, n, c.calls, 0) == Eval(p, n, s.calls, 0) {
      CloneRoot(p, n, s, g, at, standalone, skip, reset, c);
    }
    forall n: nat | Total(p, n, s.calls) ensures Bounded(p, n, c.calls) {
      CloneIsBounded(p, n, s, g, at, standalone, skip, reset, c);
    }
  }

  /** A runner can go on from every clone of the record of a reachable state, in any mode. */
  lemma {:induction false} CloneIsReady(p: Program, s: State, g: GraphData, at: map<Id, nat>, standalone: Func -> bool,
      skip: set<Id>, reset: set<Id>, c: State)
    requires ClonedFrom(s, g, at, standalone, skip, reset, c) && Inv(p, s)
    ensures ReadySeed(p, s, c)
  {
    CloneQueueStarts(s, g, at, standalone, skip, reset, c);
    CloneIsFit(p, s, g, at, standalone, skip, reset, c);
    CloneEvaluates(p, s, g, at, standalone, skip, reset, c);
    FitSeed(p, s, c);
  }

  lemma {:induction false} FitSeed(p: Program, s: State, c: State)
    requires |c.calls| == |c.cells| && c.calls != [] && s.calls != [] && forall i: nat | i in c.queue :: i < |c.calls|
    requires forall i | 0 <= i < |c.cells| :: c.cells[i].state in {CREATED, RAN, RESOLVED}
    requires Fit(p, Seeded(c)) && Live(Seeded(c))
    requires forall n: nat :: Eval(p, n, c.calls, 0) == Eval(p, n, s.calls, 0)
    requires forall n: nat | Total(p, n, s.calls) :: Bounded(p, n, c.calls)
    ensures ReadySeed(p, s, c)
  {
    assert Seeded(c).calls == c.calls;
  }

  /** A run of a clone that a failure ends: the root call fails. */
  lemma {:induction false} CloneFailsWithRoot(p: Program, n: nat, s: State, c: State, limit: Limit,
      actions: seq<Action>, t: State, i: nat)
    requires p.Valid() && s.calls != [] && Total(p, n, s.calls) && ReadySeed(p, s, c)
    requires RunsTo(p, limit, Seeded(c), actions, t) && i < |t.cells| && t.cells[i].state == FAILED
    ensures Eval(p, n, s.calls, 0) == Fails
  {
    RunKeepsBounded(p, n, limit, Seeded(c), actions, t);
    RunKeepsSane(p, limit, Seeded(c), actions, t);
    FailureIsTheRoots(p, n, t, i);
    RootOfExtension(p, n, c.calls, t.calls);
  }

  /** Whether the upstream runs of a run have all resolved. */
  predicate InputArtifactsReady(g: GraphData, x: Id) {
    forall e | e in InputEdges(g.edges, x) :: e.artifact.Some?
  }

  /** The inputs of a recorded run are there exactly if all futures it uses have resolved. */
  lemma ArtifactsReadyIff(p: Program, s: State, g: GraphData, at: map<Id, nat>, x: Id)
    requires Shape(s) && Life(p, s) && RecordedAs(g, s, at) && WellFormed(g, at) && x in at
    ensures InputArtifactsReady(g, x) <==> InputsResolved(s, at[x])
  {
    RunOf(g, s, at, x);
    assert KwargsRecorded(g, s, at, x);
    var call := s.calls[at[x]];
    if InputArtifactsReady(g, x) {
      forall j: nat | Uses(call, j) ensures j < |s.cells| && s.cells[j].state == RESOLVED {
        var k :| 0 <= k < |call.kwargs| && call.kwargs[k].arg == Upstream(j);
        assert KwargRecorded(g, at, x, call.kwargs[k]);
        var e :| e in InputEdges(g.edges, x) && ArgRecords(at, call.kwargs[k], e);
        assert EdgeRecords(s, at, e) && CellOk(p, s, j);
      }
    }
    if InputsResolved(s, at[x]) {
      forall e | e in InputEdges(g.edges, x) ensures e.artifact.Some? {
        assert EdgeRecords(s, at, e);
        var k: nat :| k < |call.kwargs| && ArgRecords(at, call.kwargs[k], e);
        if e.source.Some? {
          assert Uses(call, at[e.source.value]) && CellOk(p, s, at[e.source.value]);
        }
      }
    }
  }

  ghost predicate InputsResolved(s: State, i: nat) {
    i < |s.calls| && forall j: nat | Uses(s.calls[i], j) :: j < |s.cells| && s.cells[j].state == RESOLVED
  }

  lemma ResetSkips(g: GraphData, at: map<Id, nat>, r: Id)
    requires WellFormed(g, at) && r in at
    ensures WholeLayers(g, at, at.Keys - SkippedSet(g, at, r))
    ensures forall x | x in SkippedSet(g, at, r) :: ParentOf(g, x).Some?
  {
    KeptIsWhole(g, at, r);
    assert at.Keys - SkippedSet(g, at, r) == KeptSet(g, at, r);
    forall x | x in SkippedSet(g, at, r) ensures ParentOf(g, x).Some? {
      SkippedByParent(g, at, r, x);
    }
  }

  lemma {:induction false} CloneFromRun(s: State, g: GraphData, at: map<Id, nat>, standalone: Func -> bool, r: Id,
      skip: seq<Id>, reset: seq<Id>, result: CloneResult)
    requires Shape(s) && RecordedAs(g, s, at) && WellFormed(g, at) && r in at
    requires Elements(skip) == G.RelationsOf(g, at).skip[r] && G.ResetList(G.RelationsOf(g, at), r, reset)
    requires CloneOf(g, standalone, skip, reset, false, result)
    ensures Elements(skip) == SkippedSet(g, at, r) && Elements(reset) == ResetSet(g, at, r)
    ensures result.Cloned? && ClonedFrom(s, g, at, standalone, Elements(skip), Elements(reset), result.state)
  {
    ListsAre(g, at, r, skip, reset);
    CloningSucceeds(s, g, at, r);
    ResetSkips(g, at, r);
  }

  lemma {:induction false} CloneToContinue(s: State, g: GraphData, at: map<Id, nat>, standalone: Func -> bool,
      reset: seq<Id>, result: CloneResult)
    requires Shape(s) && RecordedAs(g, s, at) && WellFormed(g, at)
    requires CloneOf(g, standalone, [], reset, true, result)
    ensures result.Cloned? <==> NoPairTwice(g)
    ensures result.Cloned? ==> ClonedFrom(s, g, at, standalone, Elements([]), Elements(reset), result.state)
  {
    ContinueSucceedsIff(s, g, at, standalone, reset, result);
    assert Elements<Id>([]) == {};
  }

  lemma {:induction false} AllCloned(s: State, g: GraphData, at: map<Id, nat>, reset: seq<Id>, ids: seq<Id>)
    requires Shape(s) && RecordedAs(g, s, at) && WellFormed(g, at) && NoPairTwice(g)
    requires ids == Kept(SortedByLayer(g, false), Elements([]))
    requires forall x :: x in reset <==> x in SortedByLayer(g, false) && NeedsRerun(g, x)
    ensures ClonesAll(g, at, Elements(reset), ids)
  {
    var root := RootRun(g, s, at);
    OrderIsCompleteIff(g, at, false);
    assert Elements<Id>([]) == {};
    NothingSkipped(SortedByLayer(g, false));
    OrderStructure(g, at, false);
  }

  /** All runs are cloned, and those reset that need it. */
  ghost predicate ClonesAll(g: GraphData, at: map<Id, nat>, reset: set<Id>, ids: seq<Id>) {
    && (forall x :: x in ids <==> x in at)
    && (forall x :: x in reset <==> x in at && NeedsRerun(g, x))
  }

  /** Clones a record. From a run this never fails, even if runs are missing from the order; to
      continue it fails exactly if one run uses another one twice. */
  method CloneForRerun(graph: G.Graph, standalone: Func -> bool, resetFrom: Option<Id>,
      ghost s: State, ghost at: map<Id, nat>)
    returns (result: CloneResult, ghost skip: set<Id>, ghost reset: set<Id>)
    requires graph.Valid() && Shape(s) && RecordedAs(graph.data, s, at) && WellFormed(graph.data, at)
    requires graph.rel == G.RelationsOf(graph.data, at) && (resetFrom.Some? ==> resetFrom.value in at)
    modifies graph
    ensures graph.Valid() && (result.Cloned? <==> resetFrom.Some? || NoPairTwice(graph.data))
    ensures resetFrom.Some? ==>
              skip == SkippedSet(graph.data, at, resetFrom.value) && reset == ResetSet(graph.data, at, resetFrom.value)
    ensures result.Cloned? ==> ClonedFrom(s, graph.data, at, standalone, skip, reset, result.state)
    ensures result.Cloned? ==> result.ids == Kept(SortedByLayer(graph.data, false), skip)
    ensures result.Cloned? && resetFrom.None? ==> ClonesAll(graph.data, at, reset, result.ids)
  {
    var skipIds, resetIds;
    result, skipIds, resetIds := CloneFutures(graph, standalone, resetFrom);
    skip, reset := Elements(skipIds), Elements(resetIds);
    if resetFrom.Some? {
      CloneFromRun(s, graph.data, at, standalone, resetFrom.value, skipIds, resetIds, result);
    } else {
      CloneToContinue(s, graph.data, at, standalone, resetIds, result);
      if result.Cloned? {
        AllCloned(s, graph.data, at, resetIds, result.ids);
      }
    }
  }

  /** The concrete arguments are noted on the futures in `done`. */
  ghost predicate Noted(c: State, done: seq<nat>, cells: seq<Cell>)
    requires |c.calls| == |c.cells|
  {
    && |cells| == |c.cells|
    && forall i | 0 <= i < |cells| :: cells[i] == if i in done then Seeded(c).cells[i] else c.cells[i]
  }

  lemma NoteOne(c: State, done: seq<nat>, cells: seq<Cell>, i: nat)
    requires i < |c.calls| == |c.cells| && i in c.queue && Noted(c, done, cells)
    ensures Noted(c, done + [i], cells[i := cells[i].(resolvedKwargs := Bind(c.calls[i].kwargs, Known(c)))])
  {
    SeededCell(c, i);
  }

  lemma NotedKnown(c: State, done: seq<nat>, cells: seq<Cell>)
    requires |c.calls| == |c.cells| && Noted(c, done, cells)
    ensures Known(State(c.calls, cells, c.queue)) == Known(c)
  {
    forall i | 0 <= i < |cells| ensures cells[i].state == c.cells[i].state && cells[i].value == c.cells[i].value {
      SeededCell(c, i);
    }
  }

  lemma AllNoted(c: State, cells: seq<Cell>)
    requires |c.calls| == |c.cells| && Noted(c, c.queue, cells)
    ensures State(c.calls, cells, c.queue) == Seeded(c)
  {
    forall i | 0 <= i < |cells| ensures cells[i] == Seeded(c).cells[i] {
      SeededCell(c, i);
    }
    assert cells == Seeded(c).cells;
  }

  /** Takes over a clone: sets the list of futures and notes their concrete arguments. */
  method SeedRunner(runner: StateMachineRunner, c: State)
    requires |c.calls| == |c.cells| && forall i: nat | i in c.queue :: i < |c.calls|
    modifies runner`calls, runner`cells, runner`futures, runner`peak
    ensures runner.S() == Seeded(c) && runner.peak == 0
  {
    runner.calls, runner.cells, runner.futures, runner.peak := c.calls, c.cells, c.queue, 0;
    for k := 0 to |c.queue|
      invariant runner.calls == c.calls && runner.futures == c.queue && runner.peak == 0
      invariant Noted(c, c.queue[..k], runner.cells)
    {
      var i := c.queue[k];
      assert i in c.queue;
      assert c.queue[..k + 1] == c.queue[..k] + [i];
      NotedKnown(c, c.queue[..k], runner.cells);
      var concrete := runner.GetConcreteKwargs(i);
      NoteOne(c, c.queue[..k], runner.cells, i);
      runner.cells := runner.cells[i := runner.cells[i].(resolvedKwargs := concrete)];
    }
    assert c.queue[..|c.queue|] == c.queue;
    AllNoted(c, runner.cells);
  }

  method TakeOver(runner: StateMachineRunner, c: State, ghost s: State)
    requires s.calls != [] && ReadySeed(runner.program, s, c)
    modifies runner`calls, runner`cells, runner`futures, runner`peak
    ensures SeedsRunFrom(runner.program, s, runner.S()) && runner.cells == Seeded(c).cells
    ensures |runner.calls| == |runner.cells| && runner.AtRest()
    ensures WithinParallelism(runner.kind, runner.S(), runner.peak)
  {
    SeedRunner(runner, c);
    RestingSeed(runner, c);
  }

  /** No future of a seed is executing. */
  lemma RestingSeed(runner: StateMachineRunner, c: State)
    requires |c.calls| == |c.cells| && runner.S() == Seeded(c)
    requires forall i | 0 <= i < |c.cells| :: c.cells[i].state != SCHEDULED
    ensures runner.AtRest() && WithinParallelism(runner.kind, runner.S(), 0)
  {
    forall i: nat | i < |c.cells| ensures runner.cells[i].state != SCHEDULED {
      SeededCell(c, i);
    }
    NothingIsScheduled(runner.kind, runner.S());
  }

  datatype RerunMode = SpecificRun | Continue

  datatype RerunResult = NonRootContinue | UpstreamNotReady | NotAllCloned | Ran(result: RunResult)

  /** The record of a state that a pipeline can be in, as a graph object. */
  ghost predicate Holds(graph: G.Graph, p: Program, s: State, at: map<Id, nat>)
    reads graph
  {
    && graph.Valid() && Inv(p, s) && RecordedAs(graph.data, s, at) && WellFormed(graph.data, at)
    && graph.rel == G.RelationsOf(graph.data, at)
  }

  /** What keeps a record from being rerun from `r`. */
  ghost function Obstacle(g: GraphData, r: Id, mode: RerunMode): Option<RerunResult> {
    if mode.Continue? && ParentOf(g, r).Some? then Some(NonRootContinue)
    else if !InputArtifactsReady(g, r) then Some(UpstreamNotReady)
    else if mode.Continue? && !NoPairTwice(g) then Some(NotAllCloned)
    else None
  }

  /** The root is the first future. */
  lemma RootIsFirst(s: State, g: GraphData, at: map<Id, nat>, r: Id)
    requires Shape(s) && RecordedAs(g, s, at) && WellFormed(g, at) && r in at
    ensures ParentOf(g, r).None? <==> at[r] == 0
  {
    var root := RootRun(g, s, at);
    assert at[r] == at[root] ==> SameIndex(at, r, root);
  }

  lemma {:induction false} SeededAsContinued(p: Program, s: State, g: GraphData, at: map<Id, nat>,
      standalone: Func -> bool, skip: set<Id>, reset: set<Id>, ids: seq<Id>, c: State, cells: seq<Cell>)
    requires ClonedFrom(s, g, at, standalone, skip, reset, c) && Inv(p, s) && ids == Kept(SortedByLayer(g, false), skip)
    requires ClonesAll(g, at, reset, ids) && |c.calls| == |c.cells| && cells == Seeded(c).cells
    ensures forall x | x in at :: Continued(s, g, at, ids, cells, x)
  {
    CloneCopies(s, g, at, standalone, skip, reset, c);
    forall x | x in at ensures Continued(s, g, at, ids, cells, x) {
      ContinuedClone(p, s, g, at, standalone, reset, ids, c, x);
      SeededCell(c, Position(ids, x));
    }
  }

  /** `_seed_from_existing`: the runner takes over a clone of the recorded graph. */
  method SeedFromExisting(runner: StateMachineRunner, graph: G.Graph, standalone: Func -> bool, r: Id, mode: RerunMode,
      ghost s: State, ghost at: map<Id, nat>) returns (obstacle: Option<RerunResult>, ghost ids: seq<Id>)
    requires Holds(graph, runner.program, s, at) && r in at
    modifies runner, graph
    ensures obstacle == Obstacle(graph.data, r, mode)
    ensures obstacle.None? ==>
              && SeedsRunFrom(runner.program, s, runner.S()) && |runner.calls| == |runner.cells| && runner.AtRest()
              && WithinParallelism(runner.kind, runner.S(), runner.peak)
    ensures obstacle.None? && mode.Continue? ==>
              forall x | x in at :: Continued(s, graph.data, at, ids, runner.cells, x)
  {
    ids := [];
    if mode.Continue? && ParentOf(graph.data, r).Some? {
      obstacle := Some(NonRootContinue);
      return;
    }
    if !InputArtifactsReady(graph.data, r) {
      obstacle := Some(UpstreamNotReady);
      return;
    }
    var cloned, skip, reset :=
      CloneForRerun(graph, standalone, if mode.Continue? then None else Some(r), s, at);
    if cloned.CloneError? {
      obstacle := Some(NotAllCloned);
      return;
    }
    ids := cloned.ids;
    CloneIsReady(runner.program, s, graph.data, at, standalone, skip, reset, cloned.state);
    TakeOver(runner, cloned.state, s);
    if mode.Continue? {
      SeededAsContinued(runner.program, s, graph.data, at, standalone, skip, reset, ids, cloned.state, runner.cells);
    }
    obstacle := None;
  }

  /** The result of a root call that evaluates as the root of `s` does. */
  ghost predicate RightResult(p: Program, n: nat, s: State, r: RunResult) {
    && s.calls != [] && !r.NotConcrete?
    && (r.Success? ==> Eval(p, n, s.calls, 0) == Val(r.value))
    && (r.Failure? ==> Eval(p, n, s.calls, 0) == Fails)
  }

  method RunSeed(runner: StateMachineRunner, ghost s: State, ghost n: nat) returns (result: RunResult)
    requires runner.program.Valid() && runner.Fair() && |runner.calls| == |runner.cells| && runner.AtRest()
    requires s.calls != [] && Total(runner.program, n, s.calls) && SeedsRunFrom(runner.program, s, runner.S())
    modifies runner
    ensures RightResult(runner.program, n, s, result)
    ensures old(WithinParallelism(runner.kind, runner.S(), runner.peak)) ==>
              WithinParallelism(runner.kind, runner.S(), runner.peak)
  {
    assert Bounded(runner.program, n, runner.calls);
    result := runner.PipelineRunLoop(n);
  }

  /** The obstacles, told from the recorded state. */
  lemma ObstaclesAre(p: Program, s: State, g: GraphData, at: map<Id, nat>, r: Id, mode: RerunMode)
    requires Inv(p, s) && RecordedAs(g, s, at) && WellFormed(g, at) && r in at
    ensures Obstacle(g, r, mode) == Some(NonRootContinue) <==> mode.Continue? && at[r] != 0
    ensures Obstacle(g, r, mode) == Some(UpstreamNotReady) <==>
            !(mode.Continue? && at[r] != 0) && !InputsResolved(s, at[r])
    ensures Obstacle(g, r, mode).Some? ==> !Obstacle(g, r, mode).value.Ran?
  {
    RootIsFirst(s, g, at, r);
    ArtifactsReadyIff(p, s, g, at, r);
  }

  /** `run` with a run to start from, or a pipeline to continue: clones the recorded graph and
      runs what is left. From every run of the record of every state a pipeline can be in, failed
      or unfinished, complete or not, the rerun ends, and with the right result. */
  method RerunFrom(runner: StateMachineRunner, graph: G.Graph, standalone: Func -> bool, r: Id, mode: RerunMode,
      ghost s: State, ghost at: map<Id, nat>, ghost n: nat) returns (result: RerunResult)
    requires runner.program.Valid() && runner.Fair() && Holds(graph, runner.program, s, at) && r in at
    requires Total(runner.program, n, s.calls)
    modifies runner, graph
    ensures Obstacle(graph.data, r, mode).Some? ==> result == Obstacle(graph.data, r, mode).value
    ensures Obstacle(graph.data, r, mode).None? ==> result.Ran? && RightResult(runner.program, n, s, result.result)
    ensures result.Ran? ==> WithinParallelism(runner.kind, runner.S(), runner.peak)
    ensures result == NonRootContinue <==> mode.Continue? && at[r] != 0
    ensures result == UpstreamNotReady <==> !(mode.Continue? && at[r] != 0) && !InputsResolved(s, at[r])
  {
    ObstaclesAre(runner.program, s, graph.data, at, r, mode);
    ghost var ids;
    var obstacle;
    obstacle, ids := SeedFromExisting(runner, graph, standalone, r, mode, s, at);
    if obstacle.Some? {
      return obstacle.value;
    }
    var ran := RunSeed(runner, s, n);
    result := Ran(ran);
  }
}
