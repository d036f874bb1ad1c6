/** Breadth-first search and topological sorting (sematic/utils/algorithms.py). */
module Algorithms {
  import opened FutureStates

  // ------------------------------------------------------- breadth-first search

  function Elements<T>(s: seq<T>): set<T> {
    set x | x in s
  }

  /** A finite set of elements that the search cannot leave. */
  ghost predicate ClosedUnder<T(!new)>(universe: set<T>, next: T -> seq<T>) {
    forall x, y | x in universe && y in next(x) :: y in universe
  }

  /** The visits of a search, given what waits in the queue and what was visited before. */
  ghost function BfsOrder<T(!new)>(universe: set<T>, next: T -> seq<T>, queue: seq<T>, visited: seq<T>): seq<T>
    requires ClosedUnder(universe, next) && Elements(queue) <= universe
    decreases |universe - Elements(visited)|, |queue|
  {
    if queue == [] then visited
    else if queue[0] in visited then BfsOrder(universe, next, queue[1..], visited)
    else
      assert queue[0] in universe - Elements(visited);
      assert universe - Elements(visited + [queue[0]]) == universe - Elements(visited) - {queue[0]};
      assert Elements(queue[1..] + next(queue[0])) <= universe;
      BfsOrder(universe, next, queue[1..] + next(queue[0]), visited + [queue[0]])
  }

  method BreadthFirstSearch<T(==, !new)>(start: seq<T>, next: T -> seq<T>, ghost universe: set<T>)
    returns (visited: seq<T>)
    requires ClosedUnder(universe, next) && Elements(start) <= universe
    ensures visited == BfsOrder(universe, next, start, [])
  {
    visited := [];
    var toVisit := start;
    while toVisit != []
      invariant Elements(toVisit) <= universe
      invariant BfsOrder(universe, next, toVisit, visited) == BfsOrder(universe, next, start, [])
      decreases |universe - Elements(visited)|, |toVisit|
    {
      var visiting := toVisit[0];
      toVisit := toVisit[1..];
      if visiting !in visited {
        assert universe - Elements(visited + [visiting]) == universe - Elements(visited) - {visiting};
        visited := visited + [visiting];
        assert Elements(toVisit + next(visiting)) <= universe;
        toVisit := toVisit + next(visiting);
      }
    }
  }

  ghost predicate NoRepeats<T>(s: seq<T>) {
    forall i, j | 0 <= i < j < |s| :: s[i] != s[j]
  }

  /** The elements at most `d` steps away from the start. */
  ghost function Within<T(!new)>(universe: set<T>, next: T -> seq<T>, start: seq<T>, d: nat): set<T> {
    if d == 0 then Elements(start)
    else
      var before := Within(universe, next, start, d - 1);
      before + set y | y in universe && exists x :: x in before && y in next(x)
  }

  /** Elements come in the order of their distance from the start. */
  ghost predicate ByDistance<T(!new)>(universe: set<T>, next: T -> seq<T>, start: seq<T>, order: seq<T>) {
    forall i, j, d: nat | 0 <= i <= j < |order| && order[j] in Within(universe, next, start, d) ::
      order[i] in Within(universe, next, start, d)
  }

  /** What is reachable from a part of a closed set is in the set. */
  lemma {:induction false} WithinStays<T(!new)>(universe: set<T>, next: T -> seq<T>, start: seq<T>, d: nat)
    requires Elements(start) <= universe
    ensures Within(universe, next, start, d) <= universe
    decreases d
  {
    if d > 0 {
      WithinStays(universe, next, start, d - 1);
    }
  }

  lemma {:induction false} WithinGrows<T(!new)>(universe: set<T>, next: T -> seq<T>, start: seq<T>, d: nat, e: nat)
    requires d <= e
    ensures Within(universe, next, start, d) <= Within(universe, next, start, e)
    decreases e
  {
    if d < e {
      WithinGrows(universe, next, start, d, e - 1);
    }
  }

  /** While the queue holds `a` at distance `d` and then `b` one step further. */
  ghost predicate Frontier<T(!new)>(universe: set<T>, next: T -> seq<T>, start: seq<T>, d: nat, a: seq<T>,
      b: seq<T>, visited: seq<T>) {
    && Elements(a) <= Within(universe, next, start, d)
    && Elements(b) <= Within(universe, next, start, d + 1)
    && Elements(visited) <= Within(universe, next, start, d)
    && Within(universe, next, start, d) <= Elements(visited) + Elements(a)
    && (d > 0 ==> Within(universe, next, start, d - 1) <= Elements(visited))
    && (forall x, y | x in visited && y in next(x) :: y in visited || y in a || y in b)
    && NoRepeats(visited) && ByDistance(universe, next, start, visited)
  }

  /** Taking one element off the queue. */
  lemma {:induction false} BfsStep<T(!new)>(universe: set<T>, next: T -> seq<T>, x: T, rest: seq<T>, visited: seq<T>)
    requires ClosedUnder(universe, next) && Elements([x] + rest) <= universe
    ensures x in universe && Elements(rest) <= universe && Elements(rest + next(x)) <= universe
    ensures |universe - Elements(visited + [x])| <= |universe - Elements(visited)|
    ensures x !in visited ==> |universe - Elements(visited + [x])| < |universe - Elements(visited)|
    ensures BfsOrder(universe, next, [x] + rest, visited) ==
              if x in visited then BfsOrder(universe, next, rest, visited)
              else BfsOrder(universe, next, rest + next(x), visited + [x])
  {
    assert ([x] + rest)[1..] == rest && ([x] + rest)[0] == x;
    assert x in [x] + rest;
    forall y | y in rest ensures y in universe {
      assert y in [x] + rest;
    }
    assert universe - Elements(visited + [x]) == universe - Elements(visited) - {x};
  }

  /** What a search has found out when it ends. */
  ghost predicate Explored<T(!new)>(universe: set<T>, next: T -> seq<T>, start: seq<T>, queue: seq<T>,
      visited: seq<T>, order: seq<T>) {
    && NoRepeats(order) && ByDistance(universe, next, start, order) && visited <= order
    && (forall x | x in queue :: x in order)
    && (forall x, y | x in order && y in next(x) :: y in order)
    && (forall x | x in order :: Reachable(universe, next, start, x))
  }

  ghost predicate Reachable<T(!new)>(universe: set<T>, next: T -> seq<T>, start: seq<T>, x: T) {
    exists d: nat :: x in Within(universe, next, start, d)
  }

  lemma {:induction false} BfsLevels<T(!new)>(universe: set<T>, next: T -> seq<T>, start: seq<T>, d: nat,
      a: seq<T>, b: seq<T>, visited: seq<T>)
    requires ClosedUnder(universe, next) && Elements(a + b) <= universe
    requires Frontier(universe, next, start, d, a, b, visited)
    ensures Explored(universe, next, start, a + b, visited, BfsOrder(universe, next, a + b, visited))
    decreases |universe - Elements(visited)|, |a| + |b|, if a == [] then 1 else 0, 1
  {
    if a + b == [] {
      forall x | x in visited ensures Reachable(universe, next, start, x) {
        assert x in Elements(visited);
      }
    } else if a == [] {
      assert a + b == b + [];
      NextLevel(universe, next, start, d, b, visited);
      BfsLevels(universe, next, start, d + 1, b, [], visited);
    } else {
      BfsLevelsStep(universe, next, start, d, a[0], a[1..], b, visited);
      assert [a[0]] + a[1..] == a;
    }
  }

  lemma {:induction false} BfsLevelsStep<T(!new)>(universe: set<T>, next: T -> seq<T>, start: seq<T>, d: nat,
      x: T, rest: seq<T>, b: seq<T>, visited: seq<T>)
    requires ClosedUnder(universe, next) && Elements([x] + rest + b) <= universe
    requires Frontier(universe, next, start, d, [x] + rest, b, visited)
    ensures Explored(universe, next, start, [x] + rest + b, visited, BfsOrder(universe, next, [x] + rest + b, visited))
    decreases |universe - Elements(visited)|, 1 + |rest| + |b|, 0, 0
  {
    assert [x] + rest + b == [x] + (rest + b);
    BfsStep(universe, next, x, rest + b, visited);
    if x in visited {
      BfsLevelsSkip(universe, next, start, d, x, rest, b, visited);
    } else {
      BfsLevelsVisit(universe, next, start, d, x, rest, b, visited);
    }
  }

  lemma {:induction false} BfsLevelsSkip<T(!new)>(universe: set<T>, next: T -> seq<T>, start: seq<T>, d: nat,
      x: T, rest: seq<T>, b: seq<T>, visited: seq<T>)
    requires ClosedUnder(universe, next) && Elements(rest + b) <= universe
    requires Frontier(universe, next, start, d, [x] + rest, b, visited) && x in visited
    ensures Explored(universe, next, start, [x] + (rest + b), visited, BfsOrder(universe, next, rest + b, visited))
    decreases |universe - Elements(visited)|, |rest| + |b|, 2, 0
  {
    var order := BfsOrder(universe, next, rest + b, visited);
    SkipOne(universe, next, start, d, x, rest, b, visited);
    BfsLevels(universe, next, start, d, rest, b, visited);
    assert rest + b + [] == rest + b;
    ExploredMore(universe, next, start, x, rest + b, [], visited, visited, order);
  }

  lemma {:induction false} BfsLevelsVisit<T(!new)>(universe: set<T>, next: T -> seq<T>, start: seq<T>, d: nat,
      x: T, rest: seq<T>, b: seq<T>, visited: seq<T>)
    requires ClosedUnder(universe, next) && x in universe && Elements(rest + b + next(x)) <= universe
    requires Frontier(universe, next, start, d, [x] + rest, b, visited) && x !in visited
    requires |universe - Elements(visited + [x])| < |universe - Elements(visited)|
    ensures Explored(universe, next, start, [x] + (rest + b), visited,
            BfsOrder(universe, next, rest + b + next(x), visited + [x]))
    decreases |universe - Elements(visited)|, 0, 0, 0
  {
    var order := BfsOrder(universe, next, rest + b + next(x), visited + [x]);
    VisitOne(universe, next, start, d, x, rest, b, visited);
    assert rest + b + next(x) == rest + (b + next(x));
    BfsLevels(universe, next, start, d, rest, b + next(x), visited + [x]);
    ExploredMore(universe, next, start, x, rest + b, next(x), visited, visited + [x], order);
  }

  lemma ExploredMore<T(!new)>(universe: set<T>, next: T -> seq<T>, start: seq<T>, x: T, rest: seq<T>, more: seq<T>,
      visited: seq<T>, visited': seq<T>, order: seq<T>)
    requires visited <= visited' && x in visited'
    requires Explored(universe, next, start, rest + more, visited', order)
    ensures Explored(universe, next, start, [x] + rest, visited, order)
  {
    forall y | y in [x] + rest ensures y in order {
      if y in rest {
        assert y in rest + more;
      } else {
        assert y in visited';
      }
    }
  }

  lemma SkipOne<T(!new)>(universe: set<T>, next: T -> seq<T>, start: seq<T>, d: nat, x: T, rest: seq<T>,
      b: seq<T>, visited: seq<T>)
    requires Frontier(universe, next, start, d, [x] + rest, b, visited) && x in visited
    ensures Frontier(universe, next, start, d, rest, b, visited)
  {
  }

  lemma NextLevel<T(!new)>(universe: set<T>, next: T -> seq<T>, start: seq<T>, d: nat, b: seq<T>, visited: seq<T>)
    requires Frontier(universe, next, start, d, [], b, visited)
    ensures Frontier(universe, next, start, d + 1, b, [], visited)
  {
    WithinGrows(universe, next, start, d, d + 1);
    WithinGrows(universe, next, start, d + 1, d + 2);
  }

  lemma VisitOne<T(!new)>(universe: set<T>, next: T -> seq<T>, start: seq<T>, d: nat, x: T, rest: seq<T>,
      b: seq<T>, visited: seq<T>)
    requires ClosedUnder(universe, next) && x in universe
    requires Frontier(universe, next, start, d, [x] + rest, b, visited) && x !in visited
    ensures Frontier(universe, next, start, d, rest, b + next(x), visited + [x])
  {
    assert x in Elements([x] + rest);
    forall i, j, e: nat | 0 <= i <= j < |visited + [x]| && (visited + [x])[j] in Within(universe, next, start, e)
      ensures (visited + [x])[i] in Within(universe, next, start, e)
    {
      if j == |visited| && i < j {
        VisitedIsNearer(universe, next, start, d, x, visited, i, e);
      }
    }
  }

  /** What was visited before the element `x` of the frontier is not farther than `x`. */
  lemma VisitedIsNearer<T(!new)>(universe: set<T>, next: T -> seq<T>, start: seq<T>, d: nat, x: T,
      visited: seq<T>, i: nat, e: nat)
    requires Elements(visited) <= Within(universe, next, start, d) && i < |visited| && x !in visited
    requires d > 0 ==> Within(universe, next, start, d - 1) <= Elements(visited)
    requires x in Within(universe, next, start, e)
    ensures visited[i] in Within(universe, next, start, e)
  {
    if e >= d {
      WithinGrows(universe, next, start, d, e);
      assert visited[i] in Elements(visited);
    } else {
      WithinGrows(universe, next, start, e, d - 1);
    }
  }

  /** A search visits exactly what can be reached from the start, each element once, nearer
      elements first. */
  lemma BreadthFirstSearchIsExact<T(!new)>(universe: set<T>, next: T -> seq<T>, start: seq<T>)
    requires ClosedUnder(universe, next) && Elements(start) <= universe
    ensures var order := BfsOrder(universe, next, start, []);
            && NoRepeats(order) && ByDistance(universe, next, start, order)
            && forall x :: x in order <==> Reachable(universe, next, start, x)
  {
    var order := BfsOrder(universe, next, start, []);
    assert start + [] == start;
    BfsLevels(universe, next, start, 0, start, [], []);
    forall x | Reachable(universe, next, start, x) ensures x in order {
      var d: nat :| x in Within(universe, next, start, d);
      ReachedIsVisited(universe, next, start, order, d);
    }
  }

  lemma {:induction false} ReachedIsVisited<T(!new)>(universe: set<T>, next: T -> seq<T>, start: seq<T>,
      order: seq<T>, d: nat)
    requires forall x | x in start :: x in order
    requires forall x, y | x in order && y in next(x) :: y in order
    ensures forall x | x in Within(universe, next, start, d) :: x in order
    decreases d
  {
    if d > 0 {
      ReachedIsVisited(universe, next, start, order, d - 1);
    }
  }

  // ------------------------------------------------------------- forests

  /** Every element has one parent, which lists it once; only start elements have none. */
  ghost predicate Forest<T(!new)>(universe: set<T>, next: T -> seq<T>, parent: T -> Option<T>) {
    && ClosedUnder(universe, next)
    && (forall x | x in universe :: NoRepeats(next(x)))
    && (forall x, y | x in universe && y in next(x) :: parent(y) == Some(x))
  }

  /** The successors of the element at `i` come in one stretch, in their own order, later. */
  ghost predicate Stretch<T(!new)>(order: seq<T>, next: T -> seq<T>, i: nat, o: nat) {
    i < o && i < |order| && o + |next(order[i])| <= |order| && order[o..o + |next(order[i])|] == next(order[i])
  }

  ghost predicate HasStretch<T(!new)>(order: seq<T>, next: T -> seq<T>, i: nat) {
    exists o: nat :: Stretch(order, next, i, o)
  }

  ghost predicate ByStretches<T(!new)>(order: seq<T>, next: T -> seq<T>, from: nat) {
    forall i: nat | from <= i < |order| :: HasStretch(order, next, i)
  }

  /** Every element waiting or visited is a start element or has a visited parent. */
  ghost predicate Descended<T(!new)>(parent: T -> Option<T>, seen: seq<T>, visited: seq<T>) {
    forall y | y in seen && parent(y).Some? :: parent(y).value in visited
  }

  lemma {:induction false} ForestOrder<T(!new)>(universe: set<T>, next: T -> seq<T>, parent: T -> Option<T>,
      queue: seq<T>, visited: seq<T>)
    requires Forest(universe, next, parent) && Elements(queue) <= universe
    requires NoRepeats(visited + queue) && Descended(parent, visited + queue, visited)
    ensures var order := BfsOrder(universe, next, queue, visited);
            NoRepeats(order) && visited + queue <= order && ByStretches(order, next, |visited|)
    decreases |universe - Elements(visited)|, |queue|
  {
    if queue == [] {
      assert visited + queue == visited;
    } else {
      var x, rest := queue[0], queue[1..];
      assert queue == [x] + rest;
      BfsStep(universe, next, x, rest, visited);
      HeadIsNew(visited, queue);
      VisitForest(universe, next, parent, x, rest, visited);
      ForestOrder(universe, next, parent, rest + next(x), visited + [x]);
      assert visited + [x] + (rest + next(x)) == visited + queue + next(x);
      FirstStretch(BfsOrder(universe, next, queue, visited), next, visited, queue);
    }
  }

  lemma {:induction false} HeadIsNew<T>(visited: seq<T>, queue: seq<T>)
    requires queue != [] && NoRepeats(visited + queue)
    ensures queue[0] !in visited
  {
    assert (visited + queue)[|visited|] == queue[0];
    forall i | 0 <= i < |visited| ensures visited[i] != queue[0] {
      assert (visited + queue)[i] == visited[i];
    }
  }

  /** What `queue[0]` leads to was appended to the queue. */
  lemma {:induction false} FirstStretch<T(!new)>(order: seq<T>, next: T -> seq<T>, visited: seq<T>, queue: seq<T>)
    requires queue != [] && visited + queue + next(queue[0]) <= order && ByStretches(order, next, |visited| + 1)
    ensures visited + queue <= order && ByStretches(order, next, |visited|)
  {
    var o := |visited + queue|;
    assert (visited + queue + next(queue[0]))[|visited|] == queue[0];
    assert (visited + queue + next(queue[0]))[o..] == next(queue[0]);
    assert order[o..o + |next(queue[0])|] == next(queue[0]);
    assert Stretch(order, next, |visited|, o);
    forall i: nat | |visited| <= i < |order| ensures HasStretch(order, next, i) {
      assert i == |visited| || |visited| + 1 <= i;
    }
  }

  lemma VisitForest<T(!new)>(universe: set<T>, next: T -> seq<T>, parent: T -> Option<T>, x: T, rest: seq<T>,
      visited: seq<T>)
    requires Forest(universe, next, parent) && x in universe
    requires NoRepeats(visited + ([x] + rest)) && Descended(parent, visited + ([x] + rest), visited) && x !in visited
    ensures NoRepeats(visited + [x] + (rest + next(x)))
    ensures Descended(parent, visited + [x] + (rest + next(x)), visited + [x])
  {
    var seen := visited + ([x] + rest);
    assert visited + [x] + (rest + next(x)) == seen + next(x);
    forall y | y in next(x) ensures y !in seen {
      assert parent(y) == Some(x);
    }
    forall i, j | 0 <= i < j < |seen + next(x)| ensures (seen + next(x))[i] != (seen + next(x))[j] {
      if i < |seen| <= j {
        assert (seen + next(x))[j] in next(x) && (seen + next(x))[i] in seen;
      }
    }
    forall y | y in seen + next(x) && parent(y).Some? ensures parent(y).value in visited + [x] {
      assert y in seen || y in next(x);
    }
  }

  // ------------------------------------------------------------ topological sort

  type Id = string

  /** The order of Python strings. */
  predicate LessEq(a: Id, b: Id) {
    if a == "" then true
    else if b == "" then false
    else if a[0] != b[0] then a[0] < b[0]
    else LessEq(a[1..], b[1..])
  }

  lemma {:induction false} LessEqTotal(a: Id, b: Id)
    ensures LessEq(a, b) || LessEq(b, a)
    decreases a
  {
    if a != "" && b != "" && a[0] == b[0] {
      LessEqTotal(a[1..], b[1..]);
    }
  }

  predicate Ascending(s: seq<Id>) {
    forall i | 0 < i < |s| :: LessEq(s[i - 1], s[i])
  }

  function Insert(x: Id, s: seq<Id>): (r: seq<Id>)
    requires Ascending(s)
    ensures Ascending(r) && multiset(r) == multiset([x] + s)
    ensures r != [] && (r[0] == x || (s != [] && r[0] == s[0]))
  {
    if s == [] then [x]
    else if LessEq(x, s[0]) then [x] + s
    else
      LessEqTotal(x, s[0]);
      assert s == [s[0]] + s[1..];
      [s[0]] + Insert(x, s[1..])
  }

  /** `sorted`. */
  function Sort(s: seq<Id>): (r: seq<Id>)
    ensures Ascending(r) && multiset(r) == multiset(s)
    ensures forall x :: x in r <==> x in s
  {
    if s == [] then []
    else
      assert s == [s[0]] + s[1..];
      var r := Insert(s[0], Sort(s[1..]));
      assert forall x :: x in r <==> x in multiset(r);
      r
  }

  type Dependencies = map<Id, seq<Option<Id>>>

  /** `list.remove`: drops the first occurrence, if there is one. */
  function RemoveFirst(x: Id, deps: seq<Option<Id>>): (r: seq<Option<Id>>)
    ensures multiset(r) == multiset(deps) - multiset{Some(x)}
  {
    if deps == [] then []
    else
      assert deps == [deps[0]] + deps[1..];
      if deps[0] == Some(x) then deps[1..] else [deps[0]] + RemoveFirst(x, deps[1..])
  }

  /** Nobody depends on `x` any more. */
  function Forget(x: Id, deps: Dependencies): Dependencies {
    map k | k in deps :: RemoveFirst(x, deps[k])
  }

  predicate Free(deps: Dependencies, k: Id) {
    k in deps && forall i | 0 <= i < |deps[k]| :: deps[k][i].None?
  }

  /** The keys without dependencies, in the order of the dict. */
  function FreeKeys(keys: seq<Id>, deps: Dependencies): (r: seq<Id>)
    ensures forall k :: k in r <==> k in keys && Free(deps, k)
  {
    if keys == [] then []
    else (if Free(deps, keys[0]) then [keys[0]] else []) + FreeKeys(keys[1..], deps)
  }

  /** The order computed from a queue, what was emitted, and the dependencies that remain. */
  function TopologicalOrder(keys: seq<Id>, deps: Dependencies, queue: seq<Id>, emitted: seq<Id>): seq<Id>
    requires Elements(queue) <= Elements(keys)
    decreases |Elements(keys) - Elements(emitted)|, |queue|
  {
    if queue == [] then emitted
    else
      assert queue == [queue[0]] + queue[1..];
      if queue[0] in emitted then TopologicalOrder(keys, deps, queue[1..], emitted)
      else
        var x, rest := queue[0], Forget(queue[0], deps);
        assert x in queue && x in Elements(keys) - Elements(emitted);
        assert Elements(keys) - Elements(emitted + [x]) == Elements(keys) - Elements(emitted) - {x};
        TopologicalOrder(keys, rest, queue[1..] + Sort(FreeKeys(keys, rest)), emitted + [x])
  }

  function TopoSort(keys: seq<Id>, deps: Dependencies): seq<Id> {
    TopologicalOrder(keys, deps, FreeKeys(keys, deps), [])
  }

  /** Taking one id off the queue. */
  lemma {:induction false} TopologicalStep(keys: seq<Id>, deps: Dependencies, x: Id, rest: seq<Id>, emitted: seq<Id>)
    requires Elements([x] + rest) <= Elements(keys)
    ensures x in Elements(keys) && Elements(rest) <= Elements(keys)
    ensures Elements(rest + Sort(FreeKeys(keys, Forget(x, deps)))) <= Elements(keys)
    ensures x !in emitted ==> |Elements(keys) - Elements(emitted + [x])| < |Elements(keys) - Elements(emitted)|
    ensures TopologicalOrder(keys, deps, [x] + rest, emitted) ==
              if x in emitted then TopologicalOrder(keys, deps, rest, emitted)
              else TopologicalOrder(keys, Forget(x, deps), rest + Sort(FreeKeys(keys, Forget(x, deps))), emitted + [x])
  {
    assert ([x] + rest)[0] == x && ([x] + rest)[1..] == rest;
    assert x in [x] + rest;
    forall y | y in rest ensures y in Elements(keys) {
      assert y in [x] + rest;
    }
    assert Elements(keys) - Elements(emitted + [x]) == Elements(keys) - Elements(emitted) - {x};
  }

  /** `topological_sort`: it shortens the lists of the dict it is given. */
  method TopologicalSort(keys: seq<Id>, dependencies: Dependencies) returns (sorted: seq<Id>, left: Dependencies)
    requires Elements(keys) == dependencies.Keys
    ensures sorted == TopoSort(keys, dependencies)
    ensures Remaining(dependencies, left, sorted)
    ensures InFreedOrder(keys, dependencies, sorted)
  {
    SortedByFreeing(keys, dependencies);
    left, sorted := dependencies, [];
    var toVisit := FreeKeys(keys, left);
    StartSorting(keys, dependencies);
    while toVisit != []
      invariant Sorting(keys, dependencies, left, toVisit, sorted)
      decreases |Elements(keys) - Elements(sorted)|, |toVisit|
    {
      var visiting := toVisit[0];
      HeadAndRest(toVisit);
      toVisit := toVisit[1..];
      Dequeue(keys, dependencies, left, visiting, toVisit, sorted);
      if visiting !in sorted {
        sorted := sorted + [visiting];
        left := Forget(visiting, left);
        toVisit := toVisit + Sort(FreeKeys(keys, left));
      }
    }
  }

  lemma HeadAndRest<T>(s: seq<T>)
    requires s != []
    ensures s == [s[0]] + s[1..]
  {
  }

  /** What remains to be done gives the whole order. */
  ghost predicate Sorting(keys: seq<Id>, deps0: Dependencies, deps: Dependencies, queue: seq<Id>, emitted: seq<Id>) {
    && Elements(queue) <= Elements(keys) && Remaining(deps0, deps, emitted)
    && TopologicalOrder(keys, deps, queue, emitted) == TopoSort(keys, deps0)
  }

  lemma StartSorting(keys: seq<Id>, deps: Dependencies)
    ensures Sorting(keys, deps, deps, FreeKeys(keys, deps), [])
  {
    forall k, d | k in deps ensures RemainsOf(deps[k], deps[k], [], d) {}
  }

  lemma Dequeue(keys: seq<Id>, deps0: Dependencies, deps: Dependencies, x: Id, rest: seq<Id>, emitted: seq<Id>)
    requires Sorting(keys, deps0, deps, [x] + rest, emitted)
    ensures x in emitted ==> Sorting(keys, deps0, deps, rest, emitted)
    ensures x !in emitted ==>
              && Sorting(keys, deps0, Forget(x, deps), rest + Sort(FreeKeys(keys, Forget(x, deps))), emitted + [x])
              && |Elements(keys) - Elements(emitted + [x])| < |Elements(keys) - Elements(emitted)|
  {
    TopologicalStep(keys, deps, x, rest, emitted);
    if x !in emitted {
      ForgetRemaining(deps0, deps, emitted, x);
    }
  }

  /** Of every emitted id, one occurrence was removed from every list that had one. */
  ghost predicate Remaining(deps0: Dependencies, deps: Dependencies, emitted: seq<Id>) {
    deps.Keys == deps0.Keys && forall k, d | k in deps0 :: RemainsOf(deps0[k], deps[k], emitted, d)
  }

  ghost predicate RemainsOf(list0: seq<Option<Id>>, list: seq<Option<Id>>, emitted: seq<Id>, d: Id) {
    var n := multiset(list0)[Some(d)];
    multiset(list)[Some(d)] == if d in emitted && n > 0 then n - 1 else n
  }

  lemma ForgetRemaining(deps0: Dependencies, deps: Dependencies, emitted: seq<Id>, x: Id)
    requires Remaining(deps0, deps, emitted) && x !in emitted
    ensures Remaining(deps0, Forget(x, deps), emitted + [x])
  {
    forall k, d | k in deps0 ensures RemainsOf(deps0[k], Forget(x, deps)[k], emitted + [x], d) {
      assert RemainsOf(deps0[k], deps[k], emitted, d);
      ForgetOne(deps0[k], deps[k], emitted, x, d);
    }
  }

  lemma ForgetOne(list0: seq<Option<Id>>, list: seq<Option<Id>>, emitted: seq<Id>, x: Id, d: Id)
    requires RemainsOf(list0, list, emitted, d) && x !in emitted
    ensures RemainsOf(list0, RemoveFirst(x, list), emitted + [x], d)
  {
  }

  /** Everything `k` depends on is in `done`, and it lists each dependency only once. */
  ghost predicate Satisfied(deps: Dependencies, done: set<Id>, k: Id) {
    k in deps && forall d | Some(d) in deps[k] :: d in done && multiset(deps[k])[Some(d)] == 1
  }

  lemma FreeIsSatisfied(deps0: Dependencies, deps: Dependencies, emitted: seq<Id>, k: Id)
    requires Remaining(deps0, deps, emitted) && k in deps0
    ensures Free(deps, k) <==> Satisfied(deps0, Elements(emitted), k)
  {
    forall d ensures Some(d) in deps[k] <==> multiset(deps[k])[Some(d)] > 0 {}
    forall d ensures Some(d) in deps0[k] <==> multiset(deps0[k])[Some(d)] > 0 {}
    if Free(deps, k) {
      forall d | Some(d) in deps0[k] ensures d in emitted && multiset(deps0[k])[Some(d)] == 1 {
        assert RemainsOf(deps0[k], deps[k], emitted, d) && Some(d) !in deps[k];
      }
    }
    if Satisfied(deps0, Elements(emitted), k) {
      forall d ensures Some(d) !in deps[k] {
        assert RemainsOf(deps0[k], deps[k], emitted, d);
      }
      forall i | 0 <= i < |deps[k]| ensures deps[k][i].None? {
        assert deps[k][i] in deps[k];
      }
    }
  }

  /** The loop invariant of the sort. */
  ghost predicate SortState(keys: seq<Id>, deps0: Dependencies, deps: Dependencies, queue: seq<Id>, emitted: seq<Id>) {
    && Elements(keys) == deps0.Keys && Elements(queue) <= Elements(keys) && Elements(emitted) <= Elements(keys)
    && Remaining(deps0, deps, emitted)
    && Emittable(deps0, emitted)
    && (forall q | q in queue :: Satisfied(deps0, Elements(emitted), q))
    && (forall k | Satisfied(deps0, Elements(emitted), k) :: k in queue || k in emitted)
  }

  /** Every id comes once, after all its dependencies, which it lists once. */
  ghost predicate Emittable(deps: Dependencies, order: seq<Id>) {
    NoRepeats(order) && forall i | 0 <= i < |order| :: Satisfied(deps, Elements(order[..i]), order[i])
  }

  ghost predicate ExactOrder(deps: Dependencies, order: seq<Id>) {
    Emittable(deps, order) && forall k :: k in order <==> Satisfied(deps, Elements(order), k)
  }

  lemma {:induction false} OrderIsExact(keys: seq<Id>, deps0: Dependencies, deps: Dependencies, queue: seq<Id>,
      emitted: seq<Id>)
    requires SortState(keys, deps0, deps, queue, emitted)
    ensures ExactOrder(deps0, TopologicalOrder(keys, deps, queue, emitted))
    decreases |Elements(keys) - Elements(emitted)|, |queue|
  {
    if queue == [] {
      AllEmitted(keys, deps0, deps, emitted);
    } else {
      var x, rest := queue[0], queue[1..];
      assert queue == [x] + rest;
      TopologicalStep(keys, deps, x, rest, emitted);
      if x in emitted {
        SkipEmitted(keys, deps0, deps, x, rest, emitted);
        OrderIsExact(keys, deps0, deps, rest, emitted);
      } else {
        EmitOne(keys, deps0, deps, x, rest, emitted);
        OrderIsExact(keys, deps0, Forget(x, deps), rest + Sort(FreeKeys(keys, Forget(x, deps))), emitted + [x]);
      }
    }
  }

  lemma AllEmitted(keys: seq<Id>, deps0: Dependencies, deps: Dependencies, emitted: seq<Id>)
    requires SortState(keys, deps0, deps, [], emitted)
    ensures ExactOrder(deps0, emitted)
  {
    forall k | k in emitted ensures Satisfied(deps0, Elements(emitted), k) {
      var i :| 0 <= i < |emitted| && emitted[i] == k;
      assert Satisfied(deps0, Elements(emitted[..i]), emitted[i]);
    }
  }

  lemma SkipEmitted(keys: seq<Id>, deps0: Dependencies, deps: Dependencies, x: Id, rest: seq<Id>, emitted: seq<Id>)
    requires SortState(keys, deps0, deps, [x] + rest, emitted) && x in emitted
    ensures SortState(keys, deps0, deps, rest, emitted)
  {
    assert Elements(rest) <= Elements([x] + rest);
  }

  lemma EmittableGrows(deps: Dependencies, emitted: seq<Id>, x: Id)
    requires Emittable(deps, emitted) && x !in emitted && Satisfied(deps, Elements(emitted), x)
    ensures Emittable(deps, emitted + [x])
  {
    var emitted' := emitted + [x];
    forall i | 0 <= i < |emitted'| ensures Satisfied(deps, Elements(emitted'[..i]), emitted'[i]) {
      if i < |emitted| {
        assert emitted'[..i] == emitted[..i];
      } else {
        assert emitted'[..i] == emitted;
      }
    }
  }

  lemma {:induction false} EmitOne(keys: seq<Id>, deps0: Dependencies, deps: Dependencies, x: Id,
      rest: seq<Id>, emitted: seq<Id>)
    requires SortState(keys, deps0, deps, [x] + rest, emitted) && x !in emitted
    ensures SortState(keys, deps0, Forget(x, deps), rest + Sort(FreeKeys(keys, Forget(x, deps))), emitted + [x])
  {
    assert x in [x] + rest;
    TopologicalStep(keys, deps, x, rest, emitted);
    ForgetRemaining(deps0, deps, emitted, x);
    EmittableGrows(deps0, emitted, x);
    EmitQueue(keys, deps0, deps, x, rest, emitted);
  }

  lemma {:induction false} EmitQueue(keys: seq<Id>, deps0: Dependencies, deps: Dependencies, x: Id,
      rest: seq<Id>, emitted: seq<Id>)
    requires Elements(keys) == deps0.Keys
    requires forall q | q in [x] + rest :: q in deps0 && Satisfied(deps0, Elements(emitted), q)
    requires Remaining(deps0, Forget(x, deps), emitted + [x])
    ensures var queue' := rest + Sort(FreeKeys(keys, Forget(x, deps)));
            && (forall q | q in queue' :: Satisfied(deps0, Elements(emitted + [x]), q))
            && (forall k | Satisfied(deps0, Elements(emitted + [x]), k) :: k in queue')
  {
    var deps', emitted' := Forget(x, deps), emitted + [x];
    var added := Sort(FreeKeys(keys, deps'));
    forall k | k in deps0 ensures k in added <==> Satisfied(deps0, Elements(emitted'), k) {
      FreeIsSatisfied(deps0, deps', emitted', k);
      assert k in Elements(keys);
    }
    forall q | q in rest + added ensures Satisfied(deps0, Elements(emitted'), q) {
      if q in rest {
        assert q in [x] + rest;
      } else {
        assert q in Elements(keys);
      }
    }
  }

  /** The sort emits each id at most once, after everything it depends on, and emits exactly
      the ids that list each dependency once and depend on emitted ids only. */
  lemma {:induction false} TopologicalSortIsExact(keys: seq<Id>, deps: Dependencies)
    requires Elements(keys) == deps.Keys
    ensures ExactOrder(deps, TopoSort(keys, deps))
  {
    StartState(keys, deps);
    OrderIsExact(keys, deps, deps, FreeKeys(keys, deps), []);
  }

  lemma {:induction false} StartState(keys: seq<Id>, deps: Dependencies)
    requires Elements(keys) == deps.Keys
    ensures SortState(keys, deps, deps, FreeKeys(keys, deps), [])
  {
    forall k | k in deps ensures Free(deps, k) <==> Satisfied(deps, {}, k) {
      assert Remaining(deps, deps, []);
      FreeIsSatisfied(deps, deps, [], k);
      assert Elements<Id>([]) == {};
    }
    assert Elements<Id>([]) == {};
  }

  /** That set of ids is the least one closed under emitting. */
  lemma {:induction false} EmittedIsLeast(keys: seq<Id>, deps: Dependencies, closed: set<Id>)
    requires Elements(keys) == deps.Keys
    requires forall k | Satisfied(deps, closed, k) :: k in closed
    ensures Elements(TopoSort(keys, deps)) <= closed
  {
    TopologicalSortIsExact(keys, deps);
    var order := TopoSort(keys, deps);
    PrefixInClosed(deps, order, closed, |order|);
    assert order[..|order|] == order;
  }

  lemma {:induction false} PrefixInClosed(deps: Dependencies, order: seq<Id>, closed: set<Id>, i: nat)
    requires Emittable(deps, order) && i <= |order|
    requires forall k | Satisfied(deps, closed, k) :: k in closed
    ensures Elements(order[..i]) <= closed
    decreases i
  {
    if i > 0 {
      PrefixInClosed(deps, order, closed, i - 1);
      assert order[..i] == order[..i - 1] + [order[i - 1]];
      assert Satisfied(deps, Elements(order[..i - 1]), order[i - 1]);
      assert Satisfied(deps, closed, order[i - 1]);
    }
  }

  /** Dependencies can be ranked below the ids that depend on them. */
  ghost predicate Acyclic(deps: Dependencies, rank: map<Id, nat>) {
    deps.Keys <= rank.Keys && forall k, d :: RankedBelow(deps, rank, k, d)
  }

  ghost predicate RankedBelow(deps: Dependencies, rank: map<Id, nat>, k: Id, d: Id)
    requires deps.Keys <= rank.Keys
  {
    k in deps && Some(d) in deps[k] ==> d in deps && rank[d] < rank[k]
  }

  ghost predicate ListsOnce(deps: Dependencies) {
    forall k, d :: Once(deps, k, d)
  }

  ghost predicate Once(deps: Dependencies, k: Id, d: Id) {
    k in deps && Some(d) in deps[k] ==> multiset(deps[k])[Some(d)] == 1
  }

  /** Where `x` comes in a list. */
  function Position<T(==)>(s: seq<T>, x: T): (i: nat)
    ensures x in s ==> i < |s| && s[i] == x
    ensures x in s ==> forall j | 0 <= j < i :: s[j] != x
    ensures x !in s ==> i == |s|
  {
    if s == [] then 0 else if s[0] == x then 0 else 1 + Position(s[1..], x)
  }

  // ------------------------------------------------- the order of what is free

  /** The order of strings: a beginning of a string comes before it, and otherwise the first
      character that differs decides. */
  ghost predicate Lexicographic(a: Id, b: Id) {
    a <= b || exists k: nat :: k < |a| && k < |b| && a[..k] == b[..k] && a[k] < b[k]
  }

  lemma {:induction false} LessEqIff(a: Id, b: Id)
    ensures LessEq(a, b) <==> Lexicographic(a, b)
    decreases |a|
  {
    if a != "" && b != "" {
      FirstDecides(a, b);
      if a[0] == b[0] {
        LessEqIff(a[1..], b[1..]);
      }
    }
  }

  lemma {:induction false} FirstDecides(a: Id, b: Id)
    requires a != "" && b != ""
    ensures Lexicographic(a, b) <==> a[0] < b[0] || (a[0] == b[0] && Lexicographic(a[1..], b[1..]))
  {
    assert a == [a[0]] + a[1..] && b == [b[0]] + b[1..];
    if a[0] < b[0] {
      assert a[..0] == b[..0];
    } else if a[0] == b[0] && Lexicographic(a[1..], b[1..]) && !(a[1..] <= b[1..]) {
      var k: nat :| k < |a[1..]| && k < |b[1..]| && a[1..][..k] == b[1..][..k] && a[1..][k] < b[1..][k];
      assert a[..k + 1] == [a[0]] + a[1..][..k] && b[..k + 1] == [b[0]] + b[1..][..k];
      assert a[k + 1] < b[k + 1];
    }
    if Lexicographic(a, b) && !(a <= b) {
      var k: nat :| k < |a| && k < |b| && a[..k] == b[..k] && a[k] < b[k];
      if k > 0 {
        assert a[0] == a[..k][0] == b[..k][0] == b[0];
        assert a[1..][..k - 1] == a[..k][1..] && b[1..][..k - 1] == b[..k][1..];
        assert a[1..][k - 1] < b[1..][k - 1];
      }
    }
  }

  lemma {:induction false} LessEqTransitive(a: Id, b: Id, c: Id)
    requires LessEq(a, b) && LessEq(b, c)
    ensures LessEq(a, c)
    decreases |a|
  {
    if a != "" && b != "" && c != "" && a[0] == b[0] == c[0] {
      LessEqTransitive(a[1..], b[1..], c[1..]);
    }
  }

  lemma {:induction false} AscendingAll(s: seq<Id>, i: nat, j: nat)
    requires Ascending(s) && i < j < |s|
    ensures LessEq(s[i], s[j])
    decreases j
  {
    if i < j - 1 {
      AscendingAll(s, i, j - 1);
      LessEqTransitive(s[i], s[j - 1], s[j]);
    }
  }

  /** The visit that frees an id with these dependencies: that of the last of them, counted from
      one, or none. */
  function FreedBy(list: seq<Option<Id>>, order: seq<Id>): nat {
    if list == [] then 0
    else
      var before, d := FreedBy(list[..|list| - 1], order), list[|list| - 1];
      if d.Some? && Position(order, d.value) + 1 > before then Position(order, d.value) + 1 else before
  }

  /** `a` comes before `b`: it was freed by an earlier visit, or by the same one and comes first in
      lexicographic order. Ids without dependencies come in the order of the dict. */
  ghost predicate Precedes(keys: seq<Id>, deps: Dependencies, order: seq<Id>, a: Id, b: Id) {
    && a in deps && b in deps
    && var m, n := FreedBy(deps[a], order), FreedBy(deps[b], order);
       m < n || (m == n && if m == 0 then Position(keys, a) < Position(keys, b) else Lexicographic(a, b))
  }

  ghost predicate InFreedOrder(keys: seq<Id>, deps: Dependencies, order: seq<Id>) {
    forall i, j | 0 <= i < j < |order| :: Precedes(keys, deps, order, order[i], order[j])
  }

  predicate IsFirst<T(==)>(s: seq<T>, i: nat) {
    i < |s| && s[i] !in s[..i]
  }

  /** Among what was emitted and what waits, by first mentions. */
  ghost predicate WaitingInOrder(keys: seq<Id>, deps: Dependencies, emitted: seq<Id>, waiting: seq<Id>) {
    forall i, j | 0 <= i < j < |waiting| && IsFirst(waiting, i) && IsFirst(waiting, j) ::
      Precedes(keys, deps, emitted, waiting[i], waiting[j])
  }

  lemma {:induction false} PositionStays(s: seq<Id>, t: seq<Id>, x: Id)
    requires s <= t && x in s
    ensures Position(t, x) == Position(s, x) < |s|
  {
    assert t[Position(s, x)] == x;
    assert forall j | 0 <= j < Position(s, x) :: t[j] == s[j];
  }

  lemma {:induction false} FreedStays(list: seq<Option<Id>>, s: seq<Id>, t: seq<Id>)
    requires s <= t && forall d | Some(d) in list :: d in s
    ensures FreedBy(list, t) == FreedBy(list, s) <= |s|
    decreases |list|
  {
    if list != [] {
      FreedStays(list[..|list| - 1], s, t);
      if list[|list| - 1].Some? {
        assert Some(list[|list| - 1].value) in list;
        PositionStays(s, t, list[|list| - 1].value);
      }
    }
  }

  /** What the last visit freed. */
  lemma {:induction false} FreedLast(list: seq<Option<Id>>, emitted: seq<Id>, x: Id)
    requires x !in emitted && (forall d | Some(d) in list :: d in emitted + [x])
    ensures FreedBy(list, emitted + [x]) == if Some(x) in list then |emitted| + 1 else FreedBy(list, emitted)
    ensures FreedBy(list, emitted + [x]) <= |emitted| + 1
    decreases |list|
  {
    if list != [] {
      var init, d := list[..|list| - 1], list[|list| - 1];
      assert list == init + [d];
      FreedLast(init, emitted, x);
      if Some(x) !in init {
        FreedStays(init, emitted, emitted + [x]);
      }
      if d.Some? {
        assert (emitted + [x])[|emitted|] == x;
        if d.value != x {
          PositionStays(emitted, emitted + [x], d.value);
        }
      }
    }
  }

  lemma {:induction false} FreedNever(list: seq<Option<Id>>, order: seq<Id>)
    requires forall i | 0 <= i < |list| :: list[i].None?
    ensures FreedBy(list, order) == 0
    decreases |list|
  {
    if list != [] {
      FreedNever(list[..|list| - 1], order);
    }
  }

  lemma FirstInRest(x: Id, rest: seq<Id>, i: nat)
    requires 0 < i && IsFirst([x] + rest, i)
    ensures IsFirst(rest, i - 1) && rest[i - 1] == ([x] + rest)[i] != x
  {
    var s := [x] + rest;
    assert s[0] in s[..i];
    forall k | 0 <= k < i - 1 ensures rest[k] != s[i] {
      assert s[k + 1] in s[..i];
    }
  }

  lemma PositionNext(x: Id, keys: seq<Id>, y: Id)
    ensures Position([x] + keys, y) == if y == x then 0 else 1 + Position(keys, y)
  {
    assert ([x] + keys)[1..] == keys;
  }

  lemma FirstsInOrder(x: Id, keys: seq<Id>, free: seq<Id>, i: nat, j: nat)
    requires i < j <= |free| && IsFirst([x] + free, i) && IsFirst([x] + free, j)
    requires i > 0 ==> Position(keys, free[i - 1]) < Position(keys, free[j - 1])
    ensures Position([x] + keys, ([x] + free)[i]) < Position([x] + keys, ([x] + free)[j])
  {
    FirstInRest(x, free, j);
    PositionNext(x, keys, free[j - 1]);
    if i > 0 {
      FirstInRest(x, free, i);
      PositionNext(x, keys, free[i - 1]);
    }
  }

  lemma {:induction false} FreeKeysInOrder(keys: seq<Id>, deps: Dependencies, i: nat, j: nat)
    requires i < j < |FreeKeys(keys, deps)| && IsFirst(FreeKeys(keys, deps), i) && IsFirst(FreeKeys(keys, deps), j)
    ensures Position(keys, FreeKeys(keys, deps)[i]) < Position(keys, FreeKeys(keys, deps)[j])
    decreases |keys|
  {
    var free, x, rest := FreeKeys(keys, deps), keys[0], FreeKeys(keys[1..], deps);
    assert keys == [x] + keys[1..];
    if Free(deps, x) {
      assert free == [x] + rest;
      if i > 0 {
        FirstInRest(x, rest, i);
        FirstInRest(x, rest, j);
        FreeKeysInOrder(keys[1..], deps, i - 1, j - 1);
      }
      FirstsInOrder(x, keys[1..], rest, i, j);
    } else {
      assert free == rest && free[i] in free && free[j] in free;
      FreeKeysInOrder(keys[1..], deps, i, j);
      PositionNext(x, keys[1..], free[i]);
      PositionNext(x, keys[1..], free[j]);
    }
  }

  /** All that waits depends on what was emitted. */
  lemma {:induction false} WaitingSatisfied(keys: seq<Id>, deps0: Dependencies, deps: Dependencies, queue: seq<Id>,
      emitted: seq<Id>, y: Id)
    requires SortState(keys, deps0, deps, queue, emitted) && y in emitted + queue
    ensures Satisfied(deps0, Elements(emitted), y)
  {
    if y in emitted {
      var i :| 0 <= i < |emitted| && emitted[i] == y;
      assert Satisfied(deps0, Elements(emitted[..i]), emitted[i]);
    }
  }

  /** What the visit of `x` freed: ids that were not waiting before. */
  lemma {:induction false} FreedByVisit(keys: seq<Id>, deps0: Dependencies, deps: Dependencies, x: Id,
      rest: seq<Id>, emitted: seq<Id>, y: Id)
    requires SortState(keys, deps0, deps, [x] + rest, emitted) && x !in emitted
    requires y in Sort(FreeKeys(keys, Forget(x, deps))) && y !in emitted + ([x] + rest)
    ensures y in deps0 && FreedBy(deps0[y], emitted + [x]) == |emitted| + 1
  {
    EmitOne(keys, deps0, deps, x, rest, emitted);
    assert y in rest + Sort(FreeKeys(keys, Forget(x, deps)));
    assert Satisfied(deps0, Elements(emitted + [x]), y) && !Satisfied(deps0, Elements(emitted), y);
    FreedLast(deps0[y], emitted, x);
  }

  /** What waited before the visit of `x` was freed before it. */
  lemma {:induction false} FreedBefore(keys: seq<Id>, deps0: Dependencies, deps: Dependencies, x: Id,
      rest: seq<Id>, emitted: seq<Id>, y: Id)
    requires SortState(keys, deps0, deps, [x] + rest, emitted) && y in emitted + ([x] + rest)
    ensures y in deps0 && FreedBy(deps0[y], emitted + [x]) == FreedBy(deps0[y], emitted) <= |emitted|
  {
    WaitingSatisfied(keys, deps0, deps, [x] + rest, emitted, y);
    FreedStays(deps0[y], emitted, emitted + [x]);
  }

  lemma {:induction false} FirstIsNew(before: seq<Id>, freed: seq<Id>, j: nat)
    requires |before| <= j && IsFirst(before + freed, j)
    ensures freed[j - |before|] in freed && freed[j - |before|] !in before
  {
    var after := before + freed;
    forall l | 0 <= l < |before| ensures before[l] != after[j] {
      assert after[l] in after[..j];
    }
  }

  /** `before` waited before the visit of `x`, which freed the others of `freed`. */
  ghost predicate FreedNow(deps: Dependencies, emitted: seq<Id>, x: Id, before: seq<Id>, freed: seq<Id>) {
    && (forall y | y in before ::
          y in deps && FreedBy(deps[y], emitted + [x]) == FreedBy(deps[y], emitted) <= |emitted|)
    && (forall y | y in freed && y !in before :: y in deps && FreedBy(deps[y], emitted + [x]) == |emitted| + 1)
  }

  lemma {:induction false} WaitsStill(keys: seq<Id>, deps: Dependencies, emitted: seq<Id>, x: Id, before: seq<Id>,
      freed: seq<Id>, i: nat, j: nat)
    requires WaitingInOrder(keys, deps, emitted, before) && FreedNow(deps, emitted, x, before, freed)
    requires i < j < |before| && IsFirst(before + freed, i) && IsFirst(before + freed, j)
    ensures Precedes(keys, deps, emitted + [x], before[i], before[j])
  {
    assert (before + freed)[..i] == before[..i] && (before + freed)[..j] == before[..j];
    assert Precedes(keys, deps, emitted, before[i], before[j]);
    assert before[i] in before && before[j] in before;
  }

  lemma {:induction false} WaitsNow(keys: seq<Id>, deps: Dependencies, emitted: seq<Id>, x: Id, before: seq<Id>,
      freed: seq<Id>, i: nat, j: nat)
    requires FreedNow(deps, emitted, x, before, freed) && Ascending(freed)
    requires |before| <= j < |before| + |freed| && i < j
    requires IsFirst(before + freed, i) && IsFirst(before + freed, j)
    ensures Precedes(keys, deps, emitted + [x], (before + freed)[i], (before + freed)[j])
  {
    FirstIsNew(before, freed, j);
    if i >= |before| {
      var k, l := i - |before|, j - |before|;
      FirstIsNew(before, freed, i);
      AscendingAll(freed, k, l);
      LessEqIff(freed[k], freed[l]);
    } else {
      assert before[i] in before;
    }
  }

  /** What was freed comes after what waited, in lexicographic order. */
  lemma {:induction false} WaitingMore(keys: seq<Id>, deps: Dependencies, emitted: seq<Id>, x: Id, before: seq<Id>,
      freed: seq<Id>)
    requires WaitingInOrder(keys, deps, emitted, before) && Ascending(freed)
    requires FreedNow(deps, emitted, x, before, freed)
    ensures WaitingInOrder(keys, deps, emitted + [x], before + freed)
  {
    var after := before + freed;
    forall i, j | 0 <= i < j < |after| && IsFirst(after, i) && IsFirst(after, j)
      ensures Precedes(keys, deps, emitted + [x], after[i], after[j])
    {
      if j < |before| {
        WaitsStill(keys, deps, emitted, x, before, freed, i, j);
      } else {
        WaitsNow(keys, deps, emitted, x, before, freed, i, j);
      }
    }
  }

  lemma {:induction false} MoreWaiting(keys: seq<Id>, deps0: Dependencies, deps: Dependencies, x: Id,
      rest: seq<Id>, emitted: seq<Id>)
    requires SortState(keys, deps0, deps, [x] + rest, emitted) && x !in emitted
    requires WaitingInOrder(keys, deps0, emitted, emitted + ([x] + rest))
    ensures WaitingInOrder(keys, deps0, emitted + [x],
                           emitted + ([x] + rest) + Sort(FreeKeys(keys, Forget(x, deps))))
  {
    var before, freed := emitted + ([x] + rest), Sort(FreeKeys(keys, Forget(x, deps)));
    forall y | y in before
      ensures y in deps0 && FreedBy(deps0[y], emitted + [x]) == FreedBy(deps0[y], emitted) <= |emitted|
    {
      FreedBefore(keys, deps0, deps, x, rest, emitted, y);
    }
    forall y | y in freed && y !in before
      ensures y in deps0 && FreedBy(deps0[y], emitted + [x]) == |emitted| + 1
    {
      FreedByVisit(keys, deps0, deps, x, rest, emitted, y);
    }
    WaitingMore(keys, deps0, emitted, x, before, freed);
  }

  /** Forgetting a repeated mention changes no order of first mentions. */
  lemma {:induction false} RepeatedDropped(keys: seq<Id>, deps: Dependencies, emitted: seq<Id>, x: Id, rest: seq<Id>)
    requires x in emitted && WaitingInOrder(keys, deps, emitted, emitted + ([x] + rest))
    ensures WaitingInOrder(keys, deps, emitted, emitted + rest)
  {
    var before, after := emitted + ([x] + rest), emitted + rest;
    forall i, j | 0 <= i < j < |after| && IsFirst(after, i) && IsFirst(after, j)
      ensures Precedes(keys, deps, emitted, after[i], after[j])
    {
      var k := if i < |emitted| then i else i + 1;
      var l := if j < |emitted| then j else j + 1;
      StillFirst(emitted, x, rest, i);
      StillFirst(emitted, x, rest, j);
      assert Precedes(keys, deps, emitted, before[k], before[l]);
    }
  }

  lemma {:induction false} StillFirst(emitted: seq<Id>, x: Id, rest: seq<Id>, i: nat)
    requires x in emitted && IsFirst(emitted + rest, i)
    ensures var k := if i < |emitted| then i else i + 1;
            IsFirst(emitted + ([x] + rest), k) && (emitted + ([x] + rest))[k] == (emitted + rest)[i]
  {
    var before, after := emitted + ([x] + rest), emitted + rest;
    if i < |emitted| {
      assert before[..i] == after[..i];
    } else {
      assert before[..i + 1] == emitted + ([x] + rest[..i - |emitted|]);
      assert after[..i] == emitted + rest[..i - |emitted|];
    }
  }

  lemma {:induction false} EmitInOrder(keys: seq<Id>, deps0: Dependencies, deps: Dependencies, x: Id,
      rest: seq<Id>, emitted: seq<Id>)
    requires SortState(keys, deps0, deps, [x] + rest, emitted) && x !in emitted
    requires WaitingInOrder(keys, deps0, emitted, emitted + ([x] + rest))
    ensures var queue := rest + Sort(FreeKeys(keys, Forget(x, deps)));
            && SortState(keys, deps0, Forget(x, deps), queue, emitted + [x])
            && WaitingInOrder(keys, deps0, emitted + [x], emitted + [x] + queue)
  {
    EmitOne(keys, deps0, deps, x, rest, emitted);
    MoreWaiting(keys, deps0, deps, x, rest, emitted);
    Regroup(emitted, x, rest, Sort(FreeKeys(keys, Forget(x, deps))));
  }

  lemma Regroup<T>(a: seq<T>, x: T, b: seq<T>, c: seq<T>)
    ensures a + ([x] + b) + c == a + [x] + (b + c)
  {
  }

  lemma {:induction false} NoRepeatsInOrder(keys: seq<Id>, deps: Dependencies, order: seq<Id>)
    requires NoRepeats(order) && WaitingInOrder(keys, deps, order, order)
    ensures InFreedOrder(keys, deps, order)
  {
    forall i | 0 <= i < |order| ensures IsFirst(order, i) {}
  }

  lemma {:induction false} OrderIsFreed(keys: seq<Id>, deps0: Dependencies, deps: Dependencies, queue: seq<Id>,
      emitted: seq<Id>)
    requires SortState(keys, deps0, deps, queue, emitted)
    requires WaitingInOrder(keys, deps0, emitted, emitted + queue)
    ensures InFreedOrder(keys, deps0, TopologicalOrder(keys, deps, queue, emitted))
    decreases |Elements(keys) - Elements(emitted)|, |queue|
  {
    if queue == [] {
      assert emitted + queue == emitted;
      NoRepeatsInOrder(keys, deps0, emitted);
    } else {
      var x, rest := queue[0], queue[1..];
      assert queue == [x] + rest;
      TopologicalStep(keys, deps, x, rest, emitted);
      if x in emitted {
        SkipEmitted(keys, deps0, deps, x, rest, emitted);
        RepeatedDropped(keys, deps0, emitted, x, rest);
        OrderIsFreed(keys, deps0, deps, rest, emitted);
      } else {
        EmitInOrder(keys, deps0, deps, x, rest, emitted);
        OrderIsFreed(keys, deps0, Forget(x, deps), rest + Sort(FreeKeys(keys, Forget(x, deps))), emitted + [x]);
      }
    }
  }

  /** The exact order of the sort: an id comes before another one if it was freed by an earlier
      visit. Those freed by the same visit come in lexicographic order, and those that depend on
      nothing in the order of the dict. */
  lemma {:induction false} SortedByFreeing(keys: seq<Id>, deps: Dependencies)
    requires Elements(keys) == deps.Keys
    ensures InFreedOrder(keys, deps, TopoSort(keys, deps))
  {
    var free := FreeKeys(keys, deps);
    StartState(keys, deps);
    assert [] + free == free;
    forall i, j | 0 <= i < j < |free| && IsFirst(free, i) && IsFirst(free, j)
      ensures Precedes(keys, deps, [], free[i], free[j])
    {
      FreeKeysInOrder(keys, deps, i, j);
      assert free[i] in free && free[j] in free;
      FreedNever(deps[free[i]], []);
      FreedNever(deps[free[j]], []);
    }
    OrderIsFreed(keys, deps, deps, free, []);
  }

  lemma {:induction false} RankedIsEmitted(keys: seq<Id>, deps: Dependencies, rank: map<Id, nat>, k: Id)
    requires Elements(keys) == deps.Keys && Acyclic(deps, rank) && ListsOnce(deps) && k in deps
    ensures k in TopoSort(keys, deps)
    decreases rank[k]
  {
    TopologicalSortIsExact(keys, deps);
    var order := TopoSort(keys, deps);
    forall d | Some(d) in deps[k] ensures d in Elements(order) && multiset(deps[k])[Some(d)] == 1 {
      assert RankedBelow(deps, rank, k, d) && Once(deps, k, d);
      RankedIsEmitted(keys, deps, rank, d);
    }
    assert Satisfied(deps, Elements(order), k);
  }

  /** The place of an id in a complete order ranks it above its dependencies. */
  lemma OrderRanks(deps: Dependencies, order: seq<Id>, k: Id, d: Id)
    requires ExactOrder(deps, order) && k in deps && k in order && Some(d) in deps[k]
    ensures multiset(deps[k])[Some(d)] == 1 && d in order && d in deps && Position(order, d) < Position(order, k)
  {
    var i := Position(order, k);
    assert Satisfied(deps, Elements(order[..i]), order[i]);
    var j :| 0 <= j < i && order[j] == d;
    assert Satisfied(deps, Elements(order), d);
  }

  /** All ids are emitted if and only if dependencies are acyclic, within the dict, and none
      is listed twice by the same id. */
  lemma {:induction false} SortIsCompleteIff(keys: seq<Id>, deps: Dependencies)
    requires Elements(keys) == deps.Keys
    ensures (forall k | k in deps :: k in TopoSort(keys, deps)) <==>
            ListsOnce(deps) && exists rank :: Acyclic(deps, rank)
  {
    TopologicalSortIsExact(keys, deps);
    var order := TopoSort(keys, deps);
    if ListsOnce(deps) && exists rank :: Acyclic(deps, rank) {
      var rank :| Acyclic(deps, rank);
      forall k | k in deps ensures k in order {
        RankedIsEmitted(keys, deps, rank, k);
      }
    }
    if forall k | k in deps :: k in order {
      var rank := map k | k in deps :: Position(order, k);
      forall k, d ensures Once(deps, k, d) && RankedBelow(deps, rank, k, d) {
        if k in deps && Some(d) in deps[k] {
          OrderRanks(deps, order, k, d);
        }
      }
      assert Acyclic(deps, rank);
    }
  }

  /** An id that lists another one twice is never emitted, not even after that one: only one
      of the two mentions is taken off its list. */
  lemma {:induction false} RepeatedDependencyIsDropped(keys: seq<Id>, deps: Dependencies, k: Id, d: Id)
    requires Elements(keys) == deps.Keys && k in deps && multiset(deps[k])[Some(d)] >= 2
    ensures k !in TopoSort(keys, deps)
  {
    TopologicalSortIsExact(keys, deps);
    assert Some(d) in multiset(deps[k]);
  }
}
