/** Directed graphs: reachability, and the order in which a depth-first search finishes nodes. */
module Graph {

  type Graph<!N> = map<N, set<N>>

  predicate Edge<N(==)>(g: Graph<N>, a: N, b: N) {
    a in g && b in g[a]
  }

  ghost predicate Path<N>(g: Graph<N>, p: seq<N>) {
    p != [] && forall i :: 0 <= i < |p| - 1 ==> Edge(g, p[i], p[i + 1])
  }

  ghost predicate PathFrom<N>(g: Graph<N>, p: seq<N>, a: N, b: N) {
    Path(g, p) && p[0] == a && p[|p| - 1] == b
  }

  ghost predicate Reach<N(!new)>(g: Graph<N>, a: N, b: N) {
    exists p :: PathFrom(g, p, a, b)
  }

  /** Each reaches the other. */
  ghost predicate Mutual<N(!new)>(g: Graph<N>, a: N, b: N) {
    Reach(g, a, b) && Reach(g, b, a)
  }

  lemma {:induction false} ReachSelf<N(!new)>(g: Graph<N>, a: N)
    ensures Reach(g, a, a)
  {
    assert PathFrom(g, [a], a, a);
  }

  lemma {:induction false} ReachEdge<N(!new)>(g: Graph<N>, a: N, b: N)
    requires Edge(g, a, b)
    ensures Reach(g, a, b)
  {
    assert PathFrom(g, [a, b], a, b);
  }

  lemma {:induction false} ReachTrans<N(!new)>(g: Graph<N>, a: N, b: N, c: N)
    requires Reach(g, a, b) && Reach(g, b, c)
    ensures Reach(g, a, c)
  {
    var p :| PathFrom(g, p, a, b);
    var q :| PathFrom(g, q, b, c);
    var r := p + q[1..];
    forall i | 0 <= i < |r| - 1 ensures Edge(g, r[i], r[i + 1]) {
      if i < |p| - 1 {
        assert r[i] == p[i] && r[i + 1] == p[i + 1];
      } else {
        assert r[i] == q[i - (|p| - 1)] && r[i + 1] == q[i + 1 - (|p| - 1)];
      }
    }
    assert PathFrom(g, r, a, c);
  }

  lemma {:induction false} MutualTrans<N(!new)>(g: Graph<N>, a: N, b: N, c: N)
    requires Mutual(g, a, b) && Mutual(g, b, c)
    ensures Mutual(g, a, c)
  {
    ReachTrans(g, a, b, c);
    ReachTrans(g, c, b, a);
  }

  /** A path that leaves a set leaves it by an edge. */
  lemma {:induction false} Exit<N(!new)>(g: Graph<N>, inside: set<N>, a: N, b: N) returns (x: N, y: N)
    requires Reach(g, a, b) && a in inside && b !in inside
    ensures x in inside && y !in inside && Edge(g, x, y) && Reach(g, a, x) && Reach(g, y, b)
  {
    var p :| PathFrom(g, p, a, b);
    x, y := ExitPath(g, inside, p);
  }

  lemma {:induction false} ExitPath<N(!new)>(g: Graph<N>, inside: set<N>, p: seq<N>) returns (x: N, y: N)
    requires Path(g, p) && p[0] in inside && p[|p| - 1] !in inside
    ensures x in inside && y !in inside && Edge(g, x, y) && Reach(g, p[0], x) && Reach(g, y, p[|p| - 1])
    decreases |p|
  {
    var q := p[1..];
    assert Edge(g, p[0], p[1]) && q[0] == p[1] && q[|q| - 1] == p[|p| - 1];
    assert Path(g, q) by {
      forall i | 0 <= i < |q| - 1 ensures Edge(g, q[i], q[i + 1]) { assert Edge(g, p[i + 1], p[i + 2]); }
    }
    if p[1] in inside {
      x, y := ExitPath(g, inside, q);
      ReachEdge(g, p[0], p[1]);
      ReachTrans(g, p[0], p[1], x);
    } else {
      x, y := p[0], p[1];
      ReachSelf(g, x);
      assert PathFrom(g, q, y, p[|p| - 1]);
    }
  }

  // ----- The transposed graph -----

  ghost predicate Transposed<N(!new)>(g: Graph<N>, r: Graph<N>) {
    forall a, b :: Edge(r, b, a) <==> Edge(g, a, b)
  }

  lemma {:induction false} ReachTransposed<N(!new)>(g: Graph<N>, r: Graph<N>, a: N, b: N)
    requires Transposed(g, r)
    ensures Reach(g, a, b) <==> Reach(r, b, a)
  {
    if Reach(g, a, b) { Reversed(g, r, a, b); }
    if Reach(r, b, a) { Reversed(r, g, b, a); }
  }

  lemma {:induction false} Reversed<N(!new)>(g: Graph<N>, r: Graph<N>, a: N, b: N)
    requires (forall x, y :: Edge(g, x, y) ==> Edge(r, y, x)) && Reach(g, a, b)
    ensures Reach(r, b, a)
  {
    var p :| PathFrom(g, p, a, b);
    var q := seq(|p|, i requires 0 <= i < |p| => p[|p| - 1 - i]);
    forall i | 0 <= i < |q| - 1 ensures Edge(r, q[i], q[i + 1]) {
      var k := |p| - 2 - i;
      assert Edge(g, p[k], p[k + 1]);
    }
    assert PathFrom(r, q, b, a);
  }

  // ----- Depth-first search -----

  ghost predicate Distinct<N>(s: seq<N>) {
    forall i, j :: 0 <= i < j < |s| ==> s[i] != s[j]
  }

  /** A finished node is followed, in its component, by one that finished no earlier than `v`. */
  ghost predicate Covered<N(!new)>(g: Graph<N>, done: seq<N>, u: N, v: N) {
    exists i, j :: 0 <= i <= j < |done| && done[i] == v && Mutual(g, u, done[j])
  }

  /** What holds between the steps of the search: `done` are the finished nodes in order, and
      `open` the nodes entered but not finished. */
  ghost predicate Searching<N(!new)>(g: Graph<N>, done: seq<N>, open: set<N>) {
    && Distinct(done)
    && (forall u :: u in done ==> u !in open)
    && (forall u, v :: u in done && Edge(g, u, v) ==> v in done || v in open)
    && (forall u, v :: u in done && Reach(g, u, v) ==>
          (exists w :: w in open && Mutual(g, u, w)) || Covered(g, done, u, v))
  }

  /** Entering a node. */
  lemma {:induction false} Enter<N(!new)>(g: Graph<N>, done: seq<N>, open: set<N>, node: N)
    requires Searching(g, done, open) && node !in done
    ensures Searching(g, done, open + {node})
  {
    forall u, v | u in done && Reach(g, u, v)
      ensures (exists w :: w in open + {node} && Mutual(g, u, w)) || Covered(g, done, u, v)
    {
      if w :| w in open && Mutual(g, u, w) { assert w in open + {node}; }
    }
  }

  /** Finishing a node whose successors have all been entered. */
  lemma {:induction false} Finish<N(!new)>(g: Graph<N>, done: seq<N>, open: set<N>, node: N)
    requires Searching(g, done, open) && node in open
    requires forall w :: w in open ==> Reach(g, w, node)
    requires forall v :: Edge(g, node, v) ==> v in done || v in open
    ensures Searching(g, done + [node], open - {node})
  {
    var done', open' := done + [node], open - {node};
    forall u, v | u in done' && Reach(g, u, v)
      ensures (exists w :: w in open' && Mutual(g, u, w)) || Covered(g, done', u, v)
    {
      if !exists w :: w in open' && Mutual(g, u, w) {
        ReachSelf(g, node);
        if Mutual(g, u, node) {
          FinishedAll(g, done, open, node, u, v);
          var i :| 0 <= i < |done'| && done'[i] == v;
          assert done'[|done|] == node;
        } else {
          assert u in done;
          forall w | w in open ensures !Mutual(g, u, w) {
            if w != node { assert w in open'; }
          }
          CoveredGrows(g, done, node, u, v);
        }
      }
    }
  }

  lemma {:induction false} CoveredGrows<N(!new)>(g: Graph<N>, done: seq<N>, node: N, u: N, v: N)
    requires Covered(g, done, u, v)
    ensures Covered(g, done + [node], u, v)
  {
    var i, j :| 0 <= i <= j < |done| && done[i] == v && Mutual(g, u, done[j]);
    assert (done + [node])[i] == v && (done + [node])[j] == done[j];
  }

  /** When a node finishes as the first of its component entered, all it reaches has finished. */
  lemma {:induction false} FinishedAll<N(!new)>(g: Graph<N>, done: seq<N>, open: set<N>, node: N, u: N, v: N)
    requires Searching(g, done, open) && node in open
    requires forall w :: w in open ==> Reach(g, w, node)
    requires forall v :: Edge(g, node, v) ==> v in done || v in open
    requires Mutual(g, u, node) && Reach(g, u, v)
    requires forall w :: w in open && w != node ==> !Mutual(g, u, w)
    ensures v in done + [node]
  {
    if v !in done + [node] {
      ReachTrans(g, node, u, v);
      var inside := set x | x in done + [node];
      var x, w := Exit(g, inside, node, v);
      assert w in open && w != node;
      ReachEdge(g, x, w);
      ReachTrans(g, node, x, w);
      MutualTrans(g, u, node, w);
      assert false;
    }
  }

  /** The order in which a complete search finishes the nodes. */
  ghost predicate FinishOrder<N(!new)>(g: Graph<N>, done: seq<N>) {
    && Distinct(done)
    && (forall u, v :: u in done && Reach(g, u, v) ==> Covered(g, done, u, v))
  }

  lemma {:induction false} SearchComplete<N(!new)>(g: Graph<N>, done: seq<N>)
    requires Searching(g, done, {})
    ensures FinishOrder(g, done)
  {
  }

  /** Of the nodes left, the one that finished last is reached only by its own component. */
  lemma {:induction false} LastReachedByOwn<N(!new)>(g: Graph<N>, done: seq<N>, k: nat, gone: set<N>, x: N)
    requires FinishOrder(g, done) && k < |done| && x in done && x !in gone && Reach(g, x, done[k])
    requires forall i :: k < i < |done| ==> done[i] in gone
    requires forall a, b :: a in gone && Mutual(g, a, b) ==> b in gone
    ensures Mutual(g, x, done[k])
  {
    var i, j :| 0 <= i <= j < |done| && done[i] == done[k] && Mutual(g, x, done[j]);
    assert i == k;
    if j > k {
      assert Mutual(g, done[j], x);
      assert false;
    }
  }

  /** Without cycles, successors finish first. */
  lemma {:induction false} SuccessorEarlier<N(!new)>(g: Graph<N>, done: seq<N>, x: nat, y: nat)
    requires FinishOrder(g, done) && x < |done| && y < |done| && Edge(g, done[x], done[y])
    requires forall v :: v in done && Mutual(g, done[x], v) ==> v == done[x]
    ensures y <= x
  {
    ReachEdge(g, done[x], done[y]);
    assert Covered(g, done, done[x], done[y]);
    var i, j :| 0 <= i <= j < |done| && done[i] == done[y] && Mutual(g, done[x], done[j]);
    assert i == y && j == x;
  }
}
