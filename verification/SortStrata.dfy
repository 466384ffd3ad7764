/** Sorting the strata: a depth-first search over the components, then the strata are moved
    to their places in the array by rotating the cycles of the permutation. */
module SortStrata {
  import opened Datalog
  import opened Graph
  import opened Stratify

  // ----- The graph of components -----

  ghost predicate Linked(dep: DepGraph, strata: seq<set<Pred>>, i: nat, j: nat) {
    i < |strata| && j < |strata| && exists a, b :: a in strata[i] && b in strata[j] && Edge(Flat(dep), a, b)
  }

  function Indexes(n: nat): (r: set<nat>)
    ensures forall k: nat :: k in r <==> k < n
  {
    if n == 0 then {} else Indexes(n - 1) + {n - 1}
  }

  ghost function Condensed(dep: DepGraph, strata: seq<set<Pred>>): Graph<nat> {
    map i | i in Indexes(|strata|) :: set j | j in Indexes(|strata|) && Linked(dep, strata, i, j)
  }

  lemma {:induction false} SameComponent(dep: DepGraph, strata: seq<set<Pred>>, i: nat, a: Pred, b: Pred)
    requires Components(dep, strata) && i < |strata| && a in strata[i] && b in strata[i]
    ensures Reach(Flat(dep), a, b)
  {
    assert Mutual(Flat(dep), a, b);
  }

  /** A path over components gives a path between any of their members. */
  lemma {:induction false} CondensedPath(dep: DepGraph, strata: seq<set<Pred>>, p: seq<nat>, a: Pred, b: Pred)
    requires Components(dep, strata) && Path(Condensed(dep, strata), p)
    requires p[0] < |strata| && p[|p| - 1] < |strata| && a in strata[p[0]] && b in strata[p[|p| - 1]]
    ensures Reach(Flat(dep), a, b)
    decreases |p|
  {
    var g, c := Flat(dep), Condensed(dep, strata);
    if |p| == 1 {
      SameComponent(dep, strata, p[0], a, b);
    } else {
      assert Edge(c, p[0], p[1]);
      var x, y :| x in strata[p[0]] && y in strata[p[1]] && Edge(g, x, y);
      SameComponent(dep, strata, p[0], a, x);
      ReachEdge(g, x, y);
      ReachTrans(g, a, x, y);
      var q := p[1..];
      assert Path(c, q) by {
        forall i | 0 <= i < |q| - 1 ensures Edge(c, q[i], q[i + 1]) { assert Edge(c, p[i + 1], p[i + 2]); }
      }
      CondensedPath(dep, strata, q, y, b);
      ReachTrans(g, a, y, b);
    }
  }

  /** Components have no cycle among them. */
  lemma {:induction false} CondensedAcyclic(dep: DepGraph, strata: seq<set<Pred>>, i: nat, j: nat)
    requires Components(dep, strata) && i < |strata| && j < |strata| && Mutual(Condensed(dep, strata), i, j)
    ensures i == j
  {
    var c := Condensed(dep, strata);
    var a :| a in strata[i];
    var b :| b in strata[j];
    var p :| PathFrom(c, p, i, j);
    var q :| PathFrom(c, q, j, i);
    CondensedPath(dep, strata, p, a, b);
    CondensedPath(dep, strata, q, b, a);
    assert Mutual(Flat(dep), a, b);
  }

  // ----- The search -----

  method VisitStratum(index: nat, dep: DepGraph, strata: seq<set<Pred>>, at: map<Pred, nat>, seen: set<nat>,
      sorted: seq<nat>)
    returns (seen': set<nat>, sorted': seq<nat>)
    requires Components(dep, strata) && Locates(strata, |strata|, at) && index < |strata|
    requires Elems(sorted) <= seen <= Indexes(|strata|)
    requires Searching(Condensed(dep, strata), sorted, seen - Elems(sorted))
    requires forall w :: w in seen - Elems(sorted) ==> Reach(Condensed(dep, strata), w, index)
    ensures Elems(sorted') <= seen' <= Indexes(|strata|)
    ensures seen + {index} <= seen' && seen' - Elems(sorted') == seen - Elems(sorted)
    ensures Searching(Condensed(dep, strata), sorted', seen - Elems(sorted))
    decreases Indexes(|strata|) - seen
  {
    if index in seen { return seen, sorted; }
    ghost var c, open := Condensed(dep, strata), seen - Elems(sorted) + {index};
    Enter(c, sorted, seen - Elems(sorted), index);
    seen', sorted' := seen + {index}, sorted;
    assert seen' - Elems(sorted') == open;
    ReachSelf(c, index);
    var syms := strata[index];
    while syms != {}
      invariant syms <= strata[index] && seen + {index} <= seen'
      invariant Elems(sorted') <= seen' <= Indexes(|strata|)
      invariant seen' - Elems(sorted') == open && Searching(c, sorted', open)
      invariant forall a, d :: a in strata[index] - syms && Edge(Flat(dep), a, d) ==> d in at && at[d] in seen'
    {
      var sym :| sym in syms;
      if sym in dep {
        var dests := dep[sym].Keys;
        while dests != {}
          invariant dests <= dep[sym].Keys && seen + {index} <= seen'
          invariant Elems(sorted') <= seen' <= Indexes(|strata|)
          invariant seen' - Elems(sorted') == open && Searching(c, sorted', open)
          invariant forall a, d :: a in strata[index] - syms && Edge(Flat(dep), a, d) ==> d in at && at[d] in seen'
          invariant forall d :: d in dep[sym].Keys - dests ==> d in at && at[d] in seen'
        {
          var d :| d in dests;
          Placed(dep, strata, at, sym, d);
          if d in at {
            StepTo(dep, strata, at, index, sym, d, open);
            seen', sorted' := VisitStratum(at[d], dep, strata, at, seen', sorted');
          }
          dests := dests - {d};
        }
      }
      syms := syms - {sym};
    }
    AllEntered(dep, strata, at, index, seen');
    Finish(c, sorted', open, index);
    sorted' := sorted' + [index];
    assert open - {index} == seen - Elems(sorted);
    assert seen' - Elems(sorted') == seen - Elems(sorted);
  }

  lemma {:induction false} Placed(dep: DepGraph, strata: seq<set<Pred>>, at: map<Pred, nat>, a: Pred, d: Pred)
    requires Components(dep, strata) && Locates(strata, |strata|, at) && Edge(Flat(dep), a, d)
    ensures d in at
  {
    assert d in AllNodes(dep);
  }

  lemma {:induction false} StepTo(dep: DepGraph, strata: seq<set<Pred>>, at: map<Pred, nat>, index: nat, sym: Pred,
      d: Pred, open: set<nat>)
    requires Locates(strata, |strata|, at) && index < |strata| && sym in strata[index] && Edge(Flat(dep), sym, d) &&
             d in at
    requires forall w :: w in open ==> Reach(Condensed(dep, strata), w, index)
    ensures forall w :: w in open ==> Reach(Condensed(dep, strata), w, at[d])
  {
    var c := Condensed(dep, strata);
    assert Linked(dep, strata, index, at[d]);
    assert Edge(c, index, at[d]);
    ReachEdge(c, index, at[d]);
    forall w | w in open ensures Reach(c, w, at[d]) { ReachTrans(c, w, index, at[d]); }
  }

  lemma {:induction false} AllEntered(dep: DepGraph, strata: seq<set<Pred>>, at: map<Pred, nat>, index: nat,
      seen: set<nat>)
    requires Components(dep, strata) && Locates(strata, |strata|, at) && index < |strata|
    requires forall a, d :: a in strata[index] && Edge(Flat(dep), a, d) ==> d in at && at[d] in seen
    ensures forall j: nat :: Edge(Condensed(dep, strata), index, j) ==> j in seen
  {
    forall j: nat | Edge(Condensed(dep, strata), index, j) ensures j in seen {
      var a, d :| a in strata[index] && d in strata[j] && Edge(Flat(dep), a, d);
      ReachSelf(Flat(dep), d);
      assert d in strata[at[d]] && Mutual(Flat(dep), d, d);
      assert at[d] == j;
    }
  }

  /** The order lists every index once, and links go to earlier places. */
  ghost predicate Topological(dep: DepGraph, strata: seq<set<Pred>>, order: seq<nat>) {
    && Distinct(order)
    && Elems(order) == Indexes(|strata|)
    && (forall x, y :: 0 <= x < |order| && 0 <= y < |order| && Linked(dep, strata, order[x], order[y]) ==> y <= x)
  }

  method SortedIndices(dep: DepGraph, strata: seq<set<Pred>>, at: map<Pred, nat>) returns (order: seq<nat>)
    requires Components(dep, strata) && Locates(strata, |strata|, at)
    ensures Topological(dep, strata, order)
  {
    var seen: set<nat> := {};
    order := [];
    for i := 0 to |strata|
      invariant Elems(order) == seen <= Indexes(|strata|)
      invariant forall k: nat :: k < i ==> k in seen
      invariant Searching(Condensed(dep, strata), order, {})
    {
      assert seen - Elems(order) == {};
      seen, order := VisitStratum(i, dep, strata, at, seen, order);
      assert seen - Elems(order) == {};
    }
    SearchComplete(Condensed(dep, strata), order);
    FinishedIsTopological(dep, strata, order);
  }

  ghost predicate Acyclic(c: Graph<nat>, n: nat) {
    forall i: nat, j: nat :: i < n && j < n && Mutual(c, i, j) ==> i == j
  }

  lemma {:induction false} FinishedIsTopological(dep: DepGraph, strata: seq<set<Pred>>, order: seq<nat>)
    requires Components(dep, strata) && FinishOrder(Condensed(dep, strata), order)
    requires Elems(order) == Indexes(|strata|)
    ensures Topological(dep, strata, order)
  {
    var c, n := Condensed(dep, strata), |strata|;
    forall i: nat, j: nat | i < n && j < n && Mutual(c, i, j) ensures i == j {
      CondensedAcyclic(dep, strata, i, j);
    }
    forall x, y | 0 <= x < |order| && 0 <= y < |order| && Linked(dep, strata, order[x], order[y]) ensures y <= x {
      assert Edge(c, order[x], order[y]);
      EdgeEarlier(c, n, order, x, y);
    }
  }

  lemma {:induction false} EdgeEarlier(c: Graph<nat>, n: nat, order: seq<nat>, x: nat, y: nat)
    requires Acyclic(c, n) && FinishOrder(c, order) && Elems(order) == Indexes(n)
    requires x < |order| && y < |order| && Edge(c, order[x], order[y])
    ensures y <= x
  {
    forall v | v in order && Mutual(c, order[x], v) ensures v == order[x] {
      assert v in Elems(order) && order[x] in Elems(order);
    }
    SuccessorEarlier(c, order, x, y);
  }

  // ----- Moving the strata -----

  ghost predicate IsPermutation(perm: seq<nat>) {
    && (forall i :: 0 <= i < |perm| ==> perm[i] < |perm|)
    && Distinct(perm)
    && (forall k: nat :: k < |perm| ==> k in perm)
  }

  /** The marked elements are at their new places, the others where they were. */
  ghost predicate Moved<T(!new)>(now: seq<T>, was: seq<T>, perm: seq<nat>, visited: seq<bool>) {
    && |now| == |was| == |perm| == |visited| && IsPermutation(perm)
    && (forall y {:trigger perm[y]} :: 0 <= y < |perm| ==> now[perm[y]] == if visited[y] then was[y] else was[perm[y]])
  }

  /** A cycle of the permutation is marked as a whole or not at all. */
  ghost predicate WholeCycles(perm: seq<nat>, visited: seq<bool>) {
    && |perm| == |visited| && IsPermutation(perm)
    && (forall y {:trigger perm[y]} :: 0 <= y < |perm| ==> (visited[perm[y]] <==> visited[y]))
  }

  /** Rotate each cycle in place: the element at `i` moves to `perm[i]`.  A cycle starts by
      taking its first element out and leaving `hole` behind. */
  method RotateCycles<T(!new)>(a: array<T>, perm: seq<nat>, hole: T)
    requires |perm| == a.Length && IsPermutation(perm)
    modifies a
    ensures forall i :: 0 <= i < a.Length ==> a[perm[i]] == old(a[i])
  {
    ghost var was := a[..];
    var visited := seq(a.Length, _ => false);
    for i := 0 to a.Length
      invariant WholeCycles(perm, visited) && Moved(a[..], was, perm, visited)
      invariant forall y :: 0 <= y < i ==> visited[y]
    {
      if !visited[i] {
        if perm[i] == i {
          visited := visited[i := true];
        } else {
          visited := RotateCycle(a, perm, hole, i, visited, was);
        }
      }
    }
    forall i | 0 <= i < a.Length ensures a[perm[i]] == was[i] {
      assert a[..][perm[i]] == was[i];
    }
  }

  /** Inside a cycle: the elements before `current` are at their new places, and the place of
      the first is free for the last. */
  ghost predicate Rotating<T(!new)>(now: seq<T>, was: seq<T>, perm: seq<nat>, visited: seq<bool>, first: nat,
      current: nat) {
    && |now| == |was| == |perm| == |visited| && IsPermutation(perm) && first < |perm| && current < |perm|
    && !visited[current] && (current != first ==> visited[first])
    && (forall y {:trigger perm[y]} :: 0 <= y < |perm| && visited[perm[y]] && perm[y] != first ==> visited[y])
    && (forall y {:trigger perm[y]} :: 0 <= y < |perm| && perm[y] == current && current != first ==> visited[y])
    && (forall y {:trigger perm[y]} :: 0 <= y < |perm| && visited[y] ==> visited[perm[y]] || perm[y] == current)
    && (forall y {:trigger perm[y]} :: 0 <= y < |perm| && visited[y] ==> now[perm[y]] == was[y])
    && (forall y {:trigger perm[y]} ::
        0 <= y < |perm| && !visited[y] && perm[y] != first ==> now[perm[y]] == was[perm[y]])
  }

  lemma {:induction false} RotateStep<T(!new)>(now: seq<T>, was: seq<T>, perm: seq<nat>, visited: seq<bool>,
      first: nat, current: nat)
    requires Rotating(now, was, perm, visited, first, current)
    ensures var target := perm[current];
            var now', visited' := now[target := was[current]], visited[current := true];
            && (target != first ==> now[target] == was[target] && Rotating(now', was, perm, visited', first, target))
            && (target == first ==> WholeCycles(perm, visited') && Moved(now', was, perm, visited') && visited'[first])
  {
    var target := perm[current];
    var now', visited' := now[target := was[current]], visited[current := true];
    assert forall y :: 0 <= y < |perm| && perm[y] == target ==> y == current;
    if target != first {
      assert !visited[target];
    }
  }

  lemma {:induction false} RotateStart<T(!new)>(now: seq<T>, was: seq<T>, perm: seq<nat>, visited: seq<bool>,
      first: nat, hole: T)
    requires Moved(now, was, perm, visited) && WholeCycles(perm, visited) && first < |perm| && !visited[first]
    ensures now[first] == was[first] && Rotating(now[first := hole], was, perm, visited, first, first)
  {
    assert first in perm;
    var y :| 0 <= y < |perm| && perm[y] == first;
    assert !visited[y];
  }

  /** Put the carried element at its place and take up the one that was there. */
  method RotateOne<T(!new)>(a: array<T>, perm: seq<nat>, value: T, ghost visited: seq<bool>, ghost first: nat,
      current: nat, ghost was: seq<T>)
    returns (value': T)
    requires Rotating(a[..], was, perm, visited, first, current) && value == was[current]
    modifies a
    ensures var target, visited' := perm[current], visited[current := true];
            && a.Length == |perm|
            && (target != first ==> value' == was[target] && Rotating(a[..], was, perm, visited', first, target))
            && (target == first ==> WholeCycles(perm, visited') && Moved(a[..], was, perm, visited') && visited'[first])
  {
    var target := perm[current];
    RotateStep(a[..], was, perm, visited, first, current);
    ghost var before := a[..];
    value' := a[target];
    a[target] := value;
    assert a[..] == before[target := was[current]];
  }

  method RotateCycle<T(!new)>(a: array<T>, perm: seq<nat>, hole: T, i: nat, visited: seq<bool>, ghost was: seq<T>)
      returns (visited': seq<bool>)
    requires i < a.Length && Moved(a[..], was, perm, visited) && WholeCycles(perm, visited) && !visited[i]
    modifies a
    ensures WholeCycles(perm, visited') && Moved(a[..], was, perm, visited') && visited'[i]
    ensures forall y :: 0 <= y < |perm| && visited[y] ==> visited'[y]
  {
    var current: nat := i;
    var value := TakeFirst(a, perm, hole, i, visited, was);
    visited' := visited;
    var rotating := true;
    while rotating
      invariant |visited'| == |visited| == |perm| == |was| == a.Length && current < |perm|
      invariant rotating ==> Rotating(a[..], was, perm, visited', i, current) && value == was[current]
      invariant !rotating ==> WholeCycles(perm, visited') && Moved(a[..], was, perm, visited') && visited'[i]
      invariant forall y :: 0 <= y < |perm| && visited[y] ==> visited'[y]
      decreases rotating, Unvisited(visited')
    {
      UnvisitedShrinks(visited', current);
      value := RotateOne(a, perm, value, visited', i, current, was);
      visited' := visited'[current := true];
      current := perm[current];
      rotating := current != i;
    }
  }

  method TakeFirst<T(!new)>(a: array<T>, perm: seq<nat>, hole: T, i: nat, ghost visited: seq<bool>, ghost was: seq<T>)
      returns (value: T)
    requires i < a.Length && Moved(a[..], was, perm, visited) && WholeCycles(perm, visited) && !visited[i]
    modifies a
    ensures Rotating(a[..], was, perm, visited, i, i) && value == was[i]
  {
    RotateStart(a[..], was, perm, visited, i, hole);
    ghost var start := a[..];
    value := a[i];
    a[i] := hole;
    assert a[..] == start[i := hole];
  }

  ghost function Unvisited(visited: seq<bool>): nat {
    if visited == [] then 0 else (if visited[0] then 0 else 1) + Unvisited(visited[1..])
  }

  lemma {:induction false} UnvisitedShrinks(visited: seq<bool>, i: nat)
    requires i < |visited| && !visited[i]
    ensures Unvisited(visited[i := true]) < Unvisited(visited)
    decreases |visited|
  {
    if i == 0 {
      assert visited[0 := true][1..] == visited[1..];
    } else {
      UnvisitedShrinks(visited[1..], i - 1);
      assert visited[i := true][1..] == visited[1..][i - 1 := true];
    }
  }

  // ----- The sorted strata -----

  /** Links go to the same or an earlier stratum. */
  ghost predicate Sorted(dep: DepGraph, strata: seq<set<Pred>>) {
    forall i, j :: 0 <= i < |strata| && 0 <= j < |strata| && Linked(dep, strata, i, j) ==> j <= i
  }

  /** The place of each old index in the order. */
  method Inverse(order: seq<nat>) returns (perm: seq<nat>)
    requires Distinct(order) && Elems(order) == Indexes(|order|)
    ensures |perm| == |order| && IsPermutation(perm)
    ensures forall k :: 0 <= k < |order| ==> order[k] < |order| && perm[order[k]] == k
  {
    var n := |order|;
    perm := seq(n, _ => 0);
    for k := 0 to n
      invariant |perm| == n
      invariant forall i :: 0 <= i < k ==> order[i] < n && perm[order[i]] == i
    {
      assert order[k] in Elems(order);
      perm := perm[order[k] := k];
    }
    InverseIsPermutation(order, perm);
  }

  lemma {:induction false} InverseIsPermutation(order: seq<nat>, perm: seq<nat>)
    requires Distinct(order) && Elems(order) == Indexes(|order|) && |perm| == |order|
    requires forall i :: 0 <= i < |order| ==> order[i] < |order| && perm[order[i]] == i
    ensures IsPermutation(perm)
  {
    forall i | 0 <= i < |perm| ensures exists k :: 0 <= k < |order| && order[k] == i && perm[i] == k {
      assert i in Elems(order);
      var k :| 0 <= k < |order| && order[k] == i;
      assert perm[order[k]] == k;
    }
    forall k: nat | k < |perm| ensures k in perm { assert perm[order[k]] == k; }
  }

  lemma {:induction false} OrderLength(order: seq<nat>, n: nat)
    requires Distinct(order) && Elems(order) == Indexes(n)
    ensures |order| == n
  {
    ElemsSize(order);
    IndexesSize(n);
  }

  lemma {:induction false} ElemsSize(s: seq<nat>)
    requires Distinct(s)
    ensures |Elems(s)| == |s|
    decreases |s|
  {
    if s != [] {
      var n := |s| - 1;
      ElemsSize(s[..n]);
      assert Elems(s) == Elems(s[..n]) + {s[n]};
    } else {
      assert Elems(s) == {};
    }
  }

  lemma {:induction false} IndexesSize(n: nat)
    ensures |Indexes(n)| == n
  {
    if n > 0 { IndexesSize(n - 1); }
  }

  /** Components stay components, and become sorted, when they are put in topological order. */
  lemma {:induction false} Reordered(dep: DepGraph, was: seq<set<Pred>>, now: seq<set<Pred>>, order: seq<nat>)
    requires Components(dep, was) && Topological(dep, was, order) && |now| == |was| == |order|
    requires forall k :: 0 <= k < |order| ==> order[k] < |was| && now[k] == was[order[k]]
    ensures Components(dep, now) && Sorted(dep, now)
  {
    forall i, j | 0 <= i < |now| && 0 <= j < |now| && Linked(dep, now, i, j) ensures j <= i {
      assert Linked(dep, was, order[i], order[j]);
    }
    forall a | a in AllNodes(dep) ensures exists k :: 0 <= k < |now| && a in now[k] {
      var i :| 0 <= i < |was| && a in was[i];
      assert i in Elems(order);
      var k :| 0 <= k < |order| && order[k] == i;
      assert a in now[k];
    }
    forall k, a | 0 <= k < |now| && a in now[k] ensures a in AllNodes(dep) {
      assert a in was[order[k]];
    }
    forall i, j, a, b | 0 <= i < |now| && 0 <= j < |now| && a in now[i] && b in now[j]
      ensures i == j <==> Mutual(Flat(dep), a, b)
    {
      assert a in was[order[i]] && b in was[order[j]];
    }
  }

  method SortResult(strata: array<set<Pred>>, dep: DepGraph, at: map<Pred, nat>)
    requires Components(dep, strata[..]) && Locates(strata[..], strata.Length, at)
    modifies strata
    ensures Components(dep, strata[..]) && Sorted(dep, strata[..])
  {
    ghost var was := strata[..];
    var order := SortedIndices(dep, strata[..], at);
    OrderLength(order, strata.Length);
    var perm := Inverse(order);
    RotateCycles(strata, perm, {});
    ghost var now := strata[..];
    forall k | 0 <= k < |order| ensures now[k] == was[order[k]] {
      assert now[perm[order[k]]] == was[order[k]];
    }
    Reordered(dep, was, now, order);
  }

  /** A stratification: components in dependency order, with negations strictly downwards. */
  ghost predicate Stratified(dep: DepGraph, strata: seq<set<Pred>>) {
    && Components(dep, strata)
    && (forall i, j, a, b ::
        0 <= i < |strata| && 0 <= j < |strata| && a in strata[i] && b in strata[j] && Edge(Flat(dep), a, b) ==>
          j <= i && (Negative(dep, a, b) ==> j < i))
  }

  lemma {:induction false} SortedIsStratified(dep: DepGraph, strata: seq<set<Pred>>)
    requires Components(dep, strata) && Sorted(dep, strata) && !NegativeCycle(dep)
    ensures Stratified(dep, strata)
  {
    forall i, j, a, b | 0 <= i < |strata| && 0 <= j < |strata| && a in strata[i] && b in strata[j] &&
    Edge(Flat(dep), a, b)
      ensures j <= i && (Negative(dep, a, b) ==> j < i)
    {
      assert Linked(dep, strata, i, j);
      if Negative(dep, a, b) { NegativeInside(dep, strata, i, a, b); }
    }
  }

  /** Succeeds with a stratification exactly when no cycle runs through a negation. */
  method StratifyGraph(dep: DepGraph) returns (r: Result<seq<set<Pred>>>)
    ensures r.Err? <==> NegativeCycle(dep)
    ensures r.Ok? ==> Stratified(dep, r.value)
  {
    var sccs := Sccs(dep);
    var found, at := FindNegation(dep, sccs);
    if found { return Err; }
    var strata := new set<Pred>[|sccs|](i requires 0 <= i < |sccs| => sccs[i]);
    assert strata[..] == sccs;
    SortResult(strata, dep, at);
    SortedIsStratified(dep, strata[..]);
    r := Ok(strata[..]);
  }
}
