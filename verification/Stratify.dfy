/** Stratification: the strongly connected components of the dependency graph, checked for
    negation inside a component and sorted so that dependencies come first. */
module Stratify {
  import opened Datalog
  import opened Graph

  /** For each predicate what it depends on, and whether through a negation. */
  type DepGraph = map<Pred, map<Pred, bool>>

  function Flat(dep: DepGraph): Graph<Pred> {
    map a | a in dep :: dep[a].Keys
  }

  predicate Negative(dep: DepGraph, a: Pred, b: Pred) {
    a in dep && b in dep[a] && dep[a][b]
  }

  function AllNodes(dep: DepGraph): set<Pred> {
    dep.Keys + set a, b | a in dep && b in dep[a] :: b
  }

  function Elems<N(==)>(s: seq<N>): set<N> {
    set x | x in s
  }

  // ----- Building the graph -----

  function AddEdge(dep: DepGraph, src: Pred, dest: Pred, negated: bool): DepGraph {
    var edges := if src in dep then dep[src] else map[];
    if negated then dep[src := edges[dest := true]]
    else if dest !in edges || !edges[dest] then dep[src := edges[dest := false]]
    else dep[src := edges]
  }

  function InitNode(dep: DepGraph, src: Pred): DepGraph {
    if src in dep then dep else dep[src := map[]]
  }

  /** An edge stays negative once some premise has made it so. */
  lemma {:induction false} AddEdgeMeans(dep: DepGraph, src: Pred, dest: Pred, negated: bool, a: Pred, b: Pred)
    ensures var dep' := AddEdge(dep, src, dest, negated);
            && dep'.Keys == dep.Keys + {src}
            && (Edge(Flat(dep'), a, b) <==> Edge(Flat(dep), a, b) || (a == src && b == dest))
            && (Negative(dep', a, b) <==> Negative(dep, a, b) || (a == src && b == dest && negated))
  {
    hide Flat;
    var dep' := AddEdge(dep, src, dest, negated);
    FlatEdge(dep, a, b);
    FlatEdge(dep', a, b);
    if a != src {
      assert a in dep' <==> a in dep;
    }
  }

  lemma {:induction false} InitMeans(dep: DepGraph, src: Pred, a: Pred, b: Pred)
    ensures Edge(Flat(InitNode(dep, src)), a, b) <==> Edge(Flat(dep), a, b)
    ensures Negative(InitNode(dep, src), a, b) <==> Negative(dep, a, b)
  {
  }

  lemma {:induction false} FlatEdge(dep: DepGraph, a: Pred, b: Pred)
    ensures Edge(Flat(dep), a, b) <==> a in dep && b in dep[a]
  {
  }

  predicate Mentions(p: Premise, b: Pred) {
    (p.Atom? || p.NegAtom?) && p.pred == b
  }

  lemma {:induction false} MentionsAre(p: Premise)
    ensures forall b :: Mentions(p, b) <==> (p.Atom? || p.NegAtom?) && p.pred == b
  {
  }

  ghost predicate DependsOn(rules: seq<Rule>, ext: set<Pred>, a: Pred, b: Pred) {
    b !in ext && exists r, p :: r in rules && r.head.rel == a && p in r.premises && Mentions(p, b)
  }

  ghost predicate Negates(rules: seq<Rule>, ext: set<Pred>, a: Pred, b: Pred) {
    b !in ext && exists r, p :: r in rules && r.head.rel == a && p in r.premises && p.NegAtom? && p.pred == b
  }

  ghost predicate GraphOf(rules: seq<Rule>, ext: set<Pred>, dep: DepGraph) {
    && (forall a :: a in dep <==> exists r :: r in rules && r.head.rel == a)
    && (forall a, b :: Edge(Flat(dep), a, b) <==> DependsOn(rules, ext, a, b))
    && (forall a, b :: Negative(dep, a, b) <==> Negates(rules, ext, a, b))
  }

  method MakeDepGraph(rules: seq<Rule>, ext: set<Pred>) returns (dep: DepGraph)
    ensures GraphOf(rules, ext, dep)
  {
    dep := map[];
    for i := 0 to |rules|
      invariant GraphOf(rules[..i], ext, dep)
    {
      dep := AddRule(rules[..i], rules[i], ext, dep);
      assert rules[..i + 1] == rules[..i] + [rules[i]];
    }
    assert rules[..|rules|] == rules;
  }

  method AddRule(ghost rules: seq<Rule>, r: Rule, ext: set<Pred>, dep: DepGraph) returns (dep': DepGraph)
    requires GraphOf(rules, ext, dep)
    ensures GraphOf(rules + [r], ext, dep')
  {
    hide AddEdge, Flat, Edge, Negative, GraphOf, Mentions;
    var src := r.head.rel;
    dep' := InitNode(dep, src);
    forall a, b ensures Edge(Flat(dep'), a, b) <==> Edge(Flat(dep), a, b) { InitMeans(dep, src, a, b); }
    forall a, b ensures Negative(dep', a, b) <==> Negative(dep, a, b) { InitMeans(dep, src, a, b); }
    for i := 0 to |r.premises|
      invariant dep'.Keys == dep.Keys + {src}
      invariant forall a, b :: Edge(Flat(dep'), a, b) <==>
        Edge(Flat(dep), a, b) || (a == src && b !in ext && exists k :: 0 <= k < i && Mentions(r.premises[k], b))
      invariant forall a, b :: Negative(dep', a, b) <==>
        Negative(dep, a, b) ||
        (a == src && b !in ext && exists k :: 0 <= k < i && r.premises[k].NegAtom? && r.premises[k].pred == b)
    {
      var p := r.premises[i];
      assert forall b :: Mentions(p, b) <==> (p.Atom? || p.NegAtom?) && p.pred == b by { MentionsAre(p); }
      if (p.Atom? || p.NegAtom?) && p.pred !in ext {
        ghost var before := dep';
        dep' := AddEdge(dep', src, p.pred, p.NegAtom?);
        forall a, b
          ensures Edge(Flat(dep'), a, b) <==> Edge(Flat(before), a, b) || (a == src && b == p.pred)
        {
          AddEdgeMeans(before, src, p.pred, p.NegAtom?, a, b);
        }
        forall a, b
          ensures Negative(dep', a, b) <==> Negative(before, a, b) || (a == src && b == p.pred && p.NegAtom?)
        {
          AddEdgeMeans(before, src, p.pred, p.NegAtom?, a, b);
        }
        AddEdgeMeans(before, src, p.pred, p.NegAtom?, src, src);
      }
    }
    RuleAdded(rules, r, ext, dep, dep');
  }

  lemma {:induction false} RuleAdded(rules: seq<Rule>, r: Rule, ext: set<Pred>, dep: DepGraph, dep': DepGraph)
    requires GraphOf(rules, ext, dep) && dep'.Keys == dep.Keys + {r.head.rel}
    requires forall a, b :: Edge(Flat(dep'), a, b) <==>
      Edge(Flat(dep), a, b) ||
      (a == r.head.rel && b !in ext && exists k :: 0 <= k < |r.premises| && Mentions(r.premises[k], b))
    requires forall a, b :: Negative(dep', a, b) <==>
      Negative(dep, a, b) ||
      (a == r.head.rel && b !in ext &&
       exists k :: 0 <= k < |r.premises| && r.premises[k].NegAtom? && r.premises[k].pred == b)
    ensures GraphOf(rules + [r], ext, dep')
  {
    var all := rules + [r];
    forall q ensures q in all <==> q in rules || q == r {
    }
    forall a, b ensures DependsOn(all, ext, a, b) <==>
      DependsOn(rules, ext, a, b) || (a == r.head.rel && b !in ext && exists p :: p in r.premises && Mentions(p, b))
    {
    }
    forall a, b ensures Negates(all, ext, a, b) <==>
      Negates(rules, ext, a, b) ||
      (a == r.head.rel && b !in ext && exists p :: p in r.premises && p.NegAtom? && p.pred == b)
    {
    }
  }

  // ----- Finishing order -----

  method Visit(node: Pred, dep: DepGraph, s: seq<Pred>, seen: set<Pred>) returns (s': seq<Pred>, seen': set<Pred>)
    requires node in AllNodes(dep) && Elems(s) <= seen <= AllNodes(dep)
    requires Searching(Flat(dep), s, seen - Elems(s))
    requires forall w :: w in seen - Elems(s) ==> Reach(Flat(dep), w, node)
    ensures Elems(s') <= seen' <= AllNodes(dep) && seen + {node} <= seen'
    ensures seen' - Elems(s') == seen - Elems(s)
    ensures Searching(Flat(dep), s', seen - Elems(s))
    decreases AllNodes(dep) - seen
  {
    if node in seen { return s, seen; }
    ghost var g, open := Flat(dep), seen - Elems(s) + {node};
    Enter(g, s, seen - Elems(s), node);
    s', seen' := s, seen + {node};
    assert seen' - Elems(s') == open;
    ReachSelf(g, node);
    if node in dep {
      var rest := dep[node].Keys;
      while rest != {}
        invariant Elems(s') <= seen' <= AllNodes(dep) && seen + {node} <= seen' && rest <= dep[node].Keys
        invariant seen' - Elems(s') == open && Searching(g, s', open)
        invariant forall v :: v in dep[node].Keys - rest ==> v in seen'
      {
        var neighbor :| neighbor in rest;
        forall w | w in open ensures Reach(g, w, neighbor) {
          ReachEdge(g, node, neighbor);
          ReachTrans(g, w, node, neighbor);
        }
        s', seen' := Visit(neighbor, dep, s', seen');
        rest := rest - {neighbor};
      }
    }
    Finish(g, s', open, node);
    s' := s' + [node];
    assert open - {node} == seen - Elems(s);
    assert seen' - Elems(s') == seen - Elems(s);
  }

  method FinishingOrder(dep: DepGraph) returns (s: seq<Pred>)
    ensures FinishOrder(Flat(dep), s) && Elems(s) == AllNodes(dep)
  {
    s := [];
    var seen: set<Pred> := {};
    var rest := dep.Keys;
    while rest != {}
      invariant Elems(s) == seen <= AllNodes(dep) && rest <= dep.Keys && dep.Keys - rest <= seen
      invariant Searching(Flat(dep), s, {})
    {
      var node :| node in rest;
      assert seen - Elems(s) == {};
      s, seen := Visit(node, dep, s, seen);
      assert Elems(s) == seen by { assert seen - Elems(s) == {}; }
      rest := rest - {node};
    }
    SearchComplete(Flat(dep), s);
    forall b | b in AllNodes(dep) ensures b in Elems(s) {
      if b !in dep {
        var a :| a in dep && b in dep[a];
        assert a in dep.Keys - rest;
        assert a in s && Edge(Flat(dep), a, b);
      }
    }
  }

  // ----- Components -----

  method Transpose(dep: DepGraph) returns (rev: DepGraph)
    ensures Transposed(Flat(dep), Flat(rev)) && AllNodes(rev) <= AllNodes(dep)
  {
    rev := map[];
    var rest := dep.Keys;
    while rest != {}
      invariant rest <= dep.Keys && AllNodes(rev) <= AllNodes(dep)
      invariant forall a, b :: Edge(Flat(rev), b, a) <==> Edge(Flat(dep), a, b) && a !in rest
    {
      var src :| src in rest;
      var dests := dep[src].Keys;
      while dests != {}
        invariant dests <= dep[src].Keys && AllNodes(rev) <= AllNodes(dep)
        invariant forall a, b :: Edge(Flat(rev), b, a) <==>
          Edge(Flat(dep), a, b) && (a !in rest || (a == src && b !in dests))
      {
        var dest :| dest in dests;
        ghost var before := rev;
        rev := AddEdge(rev, dest, src, dep[src][dest]);
        forall a, b { AddEdgeMeans(before, dest, src, dep[src][dest], a, b); }
        dests := dests - {dest};
      }
      rest := rest - {src};
    }
  }

  method CollectBack(node: Pred, rev: DepGraph, scc: set<Pred>, seen: set<Pred>, ghost all: set<Pred>)
      returns (scc': set<Pred>, seen': set<Pred>)
    requires node in all && AllNodes(rev) <= all && seen <= all
    ensures seen + {node} <= seen' <= all && scc' == scc + (seen' - seen)
    ensures forall x :: x in seen' - seen ==> Reach(Flat(rev), node, x)
    ensures forall x, y :: x in seen' - seen && Edge(Flat(rev), x, y) ==> y in seen'
    decreases all - seen
  {
    if node in seen { return scc, seen; }
    ghost var g := Flat(rev);
    seen' := seen + {node};
    scc' := scc + {node};
    ReachSelf(g, node);
    if node in rev {
      var rest := rev[node].Keys;
      while rest != {}
        invariant rest <= rev[node].Keys && seen + {node} <= seen' <= all && scc' == scc + (seen' - seen)
        invariant forall x :: x in seen' - seen ==> Reach(g, node, x)
        invariant forall x, y :: x in seen' - seen - {node} && Edge(g, x, y) ==> y in seen'
        invariant forall v :: v in rev[node].Keys - rest ==> v in seen'
      {
        var e :| e in rest;
        ghost var before := seen';
        scc', seen' := CollectBack(e, rev, scc', seen', all);
        ReachEdge(g, node, e);
        forall x | x in seen' - before ensures Reach(g, node, x) { ReachTrans(g, node, e, x); }
        rest := rest - {e};
      }
    }
  }

  /** The sets partition the nodes by mutual reachability. */
  ghost predicate Components(dep: DepGraph, sccs: seq<set<Pred>>) {
    && (forall a :: a in AllNodes(dep) <==> exists i :: 0 <= i < |sccs| && a in sccs[i])
    && (forall i, j, a, b :: 0 <= i < |sccs| && 0 <= j < |sccs| && a in sccs[i] && b in sccs[j] ==>
          (i == j <==> Mutual(Flat(dep), a, b)))
    && (forall i :: 0 <= i < |sccs| ==> sccs[i] != {})
  }

  /** What is collected against the edges from the node that finished last is its component. */
  lemma {:induction false} CollectedIsComponent(dep: DepGraph, rev: DepGraph, s: seq<Pred>, k: nat, seen: set<Pred>,
      seen': set<Pred>, x: Pred)
    requires Transposed(Flat(dep), Flat(rev)) && FinishOrder(Flat(dep), s) && k < |s| && s[k] !in seen
    requires seen <= seen' <= Elems(s) && s[k] in seen'
    requires forall i :: k < i < |s| ==> s[i] in seen
    requires forall a, b :: a in seen && Mutual(Flat(dep), a, b) ==> b in seen
    requires forall y :: y in seen' - seen ==> Reach(Flat(rev), s[k], y)
    requires forall y, z :: y in seen' - seen && Edge(Flat(rev), y, z) ==> z in seen'
    ensures x in seen' - seen <==> Mutual(Flat(dep), s[k], x)
  {
    var g, r, top := Flat(dep), Flat(rev), s[k];
    if x in seen' - seen {
      ReachTransposed(g, r, x, top);
      LastReachedByOwn(g, s, k, seen, x);
    }
    if Mutual(g, top, x) && x !in seen' - seen {
      ReachTransposed(g, r, x, top);
      var y, z := Exit(r, seen' - seen, top, x);
      assert z in seen;
      ReachTransposed(g, r, y, top);
      ReachTransposed(g, r, x, z);
      assert Edge(g, z, y);
      ReachEdge(g, z, y);
      ReachTrans(g, z, y, top);
      ReachTrans(g, top, x, z);
      assert Mutual(g, z, top);
      assert false;
    }
  }

  /** What the second pass keeps: the sets so far are components and make up `seen`. */
  ghost predicate PartialComponents(dep: DepGraph, sccs: seq<set<Pred>>, seen: set<Pred>) {
    && (forall a :: a in seen <==> exists i :: 0 <= i < |sccs| && a in sccs[i])
    && (forall i, j, a, b :: 0 <= i < |sccs| && 0 <= j < |sccs| && a in sccs[i] && b in sccs[j] ==>
          (i == j <==> Mutual(Flat(dep), a, b)))
    && (forall i :: 0 <= i < |sccs| ==> sccs[i] != {})
    && (forall a, b :: a in seen && Mutual(Flat(dep), a, b) ==> b in seen)
  }

  lemma {:induction false} ComponentAdded(dep: DepGraph, sccs: seq<set<Pred>>, seen: set<Pred>, top: Pred,
      scc: set<Pred>)
    requires PartialComponents(dep, sccs, seen) && top !in seen && top in scc
    requires forall x :: x in scc <==> Mutual(Flat(dep), top, x)
    ensures PartialComponents(dep, sccs + [scc], seen + scc)
  {
    var g, all, n := Flat(dep), sccs + [scc], |sccs|;
    assert all[n] == scc;
    forall a ensures a in seen + scc <==> exists i :: 0 <= i < |all| && a in all[i] {
      if a in seen {
        var i :| 0 <= i < n && a in sccs[i];
        assert a in all[i];
      }
      if i :| 0 <= i < |all| && a in all[i] {
        if i < n { assert a in sccs[i]; }
      }
    }
    forall a, b | a in seen && b in scc ensures !Mutual(g, a, b) {
      if Mutual(g, a, b) {
        MutualTrans(g, a, b, top);
        assert false;
      }
    }
    forall a, b | a in scc && Mutual(g, a, b) ensures b in scc { MutualTrans(g, top, a, b); }
    forall a, b | a in scc && b in scc ensures Mutual(g, a, b) { MutualTrans(g, a, top, b); }
    forall i, j, a, b | 0 <= i <= n && 0 <= j <= n && a in all[i] && b in all[j]
      ensures i == j <==> Mutual(g, a, b)
    {
      if i < n && j < n {
        assert a in sccs[i] && b in sccs[j];
      } else if i < n {
        assert a in sccs[i] && a in seen;
      } else if j < n {
        assert b in sccs[j] && b in seen;
        assert !Mutual(g, b, a);
      }
    }
  }

  method Sccs(dep: DepGraph) returns (sccs: seq<set<Pred>>)
    ensures Components(dep, sccs)
  {
    hide Mutual, Reach, Edge, FinishOrder, Transposed, Flat;
    var s := FinishingOrder(dep);
    var rev := Transpose(dep);
    var seen: set<Pred> := {};
    sccs := [];
    var k := |s|;
    while k > 0
      invariant 0 <= k <= |s| && seen <= Elems(s)
      invariant forall i :: k <= i < |s| ==> s[i] in seen
      invariant PartialComponents(dep, sccs, seen)
    {
      k := k - 1;
      var top := s[k];
      if top !in seen {
        assert top in Elems(s);
        var scc, seen' := CollectBack(top, rev, {}, seen, AllNodes(dep));
        forall x ensures x in scc <==> Mutual(Flat(dep), top, x) {
          CollectedIsComponent(dep, rev, s, k, seen, seen', x);
        }
        assert seen' == seen + scc && top in scc;
        ComponentAdded(dep, sccs, seen, top, scc);
        sccs := sccs + [scc];
        seen := seen';
      }
    }
    assert seen == AllNodes(dep);
  }

  // ----- The negation check -----

  /** Some cycle runs through a negation. */
  ghost predicate NegativeCycle(dep: DepGraph) {
    exists a, b :: Negative(dep, a, b) && Reach(Flat(dep), b, a)
  }

  /** Where each predicate is. */
  ghost predicate Locates(strata: seq<set<Pred>>, n: nat, at: map<Pred, nat>) {
    && (forall a :: a in at ==> at[a] < n <= |strata| && a in strata[at[a]])
    && (forall i, a :: 0 <= i < n <= |strata| && a in strata[i] ==> a in at)
  }

  lemma {:induction false} NegativeInside(dep: DepGraph, sccs: seq<set<Pred>>, i: nat, a: Pred, b: Pred)
    requires Components(dep, sccs) && i < |sccs| && a in sccs[i] && Negative(dep, a, b)
    ensures b in sccs[i] <==> Reach(Flat(dep), b, a)
  {
    assert Edge(Flat(dep), a, b);
    ReachEdge(Flat(dep), a, b);
    assert b in AllNodes(dep);
    var j :| 0 <= j < |sccs| && b in sccs[j];
    assert i == j <==> Mutual(Flat(dep), a, b);
    if b in sccs[i] { assert Mutual(Flat(dep), a, b); }
  }

  /** Whether a negation stays inside the component, and where every predicate is. */
  method FindNegation(dep: DepGraph, sccs: seq<set<Pred>>) returns (found: bool, at: map<Pred, nat>)
    requires Components(dep, sccs)
    ensures found <==> NegativeCycle(dep)
    ensures !found ==> Locates(sccs, |sccs|, at)
  {
    at := map[];
    for i := 0 to |sccs|
      invariant Locates(sccs, i, at)
      invariant forall j, a, b :: 0 <= j < i && a in sccs[j] && Negative(dep, a, b) ==> b !in sccs[j]
    {
      at := PlaceAll(sccs, i, at);
      var inside := NegationInside(dep, sccs, i, at);
      if inside.Some? {
        NegativeInside(dep, sccs, i, inside.value.0, inside.value.1);
        return true, at;
      }
    }
    if NegativeCycle(dep) {
      var a, b :| Negative(dep, a, b) && Reach(Flat(dep), b, a);
      assert a in AllNodes(dep);
      var i :| 0 <= i < |sccs| && a in sccs[i];
      NegativeInside(dep, sccs, i, a, b);
      assert false;
    }
    found := false;
  }

  method PlaceAll(sccs: seq<set<Pred>>, i: nat, at: map<Pred, nat>) returns (at': map<Pred, nat>)
    requires i < |sccs| && Locates(sccs, i, at)
    ensures Locates(sccs, i + 1, at')
    ensures forall a :: a in sccs[i] ==> a in at' && at'[a] == i
    ensures forall a :: a in at' && a !in sccs[i] ==> a in at
  {
    at' := at;
    var rest := sccs[i];
    while rest != {}
      invariant rest <= sccs[i] && at.Keys <= at'.Keys
      invariant forall a :: a in at' ==> at'[a] <= i && a in sccs[at'[a]]
      invariant forall a :: a in sccs[i] - rest ==> a in at' && at'[a] == i
      invariant forall a :: a in at' && a !in sccs[i] ==> a in at
    {
      var sym :| sym in rest;
      at' := at'[sym := i];
      rest := rest - {sym};
    }
  }

  /** A negative edge whose target is placed in the same stratum. */
  method NegationInside(dep: DepGraph, sccs: seq<set<Pred>>, i: nat, at: map<Pred, nat>)
      returns (r: Option<(Pred, Pred)>)
    requires i < |sccs| && Locates(sccs, i + 1, at) && forall a :: a in sccs[i] ==> a in at && at[a] == i
    ensures r.Some? ==> r.value.0 in sccs[i] && r.value.1 in sccs[i] && Negative(dep, r.value.0, r.value.1)
    ensures r.None? ==> forall a, b :: a in sccs[i] && Negative(dep, a, b) ==> b !in sccs[i]
  {
    var syms := sccs[i];
    while syms != {}
      invariant syms <= sccs[i]
      invariant forall a, b :: a in sccs[i] - syms && Negative(dep, a, b) ==> b !in sccs[i]
    {
      var sym :| sym in syms;
      if sym in dep {
        var dests := dep[sym].Keys;
        while dests != {}
          invariant dests <= dep[sym].Keys
          invariant forall b :: b in dep[sym].Keys - dests && dep[sym][b] ==> b !in sccs[i]
        {
          var dest :| dest in dests;
          if dep[sym][dest] && dest in at && at[dest] == i {
            return Some((sym, dest));
          }
          dests := dests - {dest};
        }
      }
      syms := syms - {sym};
    }
    r := None;
  }
}
