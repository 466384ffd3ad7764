/** Provenance: the recorded derivations of facts, and what to delete when a fact goes. */
module Provenance {
  import opened Datalog

  datatype Derivation = Derivation(ruleId: nat, premises: seq<Fact>)

  type Derivations = map<Fact, seq<Derivation>>

  // ----- What must be deleted -----

  predicate Hit(d: Derivation, gone: set<Fact>) {
    exists p :: p in d.premises && p in gone
  }

  /** Every derivation of the fact uses a fact that is gone. */
  predicate Unsupported(ds: Derivations, g: Fact, gone: set<Fact>) {
    g in ds && forall d :: d in ds[g] ==> Hit(d, gone)
  }

  /** No recorded fact outside the set depends on the retracted fact and the set alone. */
  ghost predicate ClosedDeletion(ds: Derivations, f: Fact, del: set<Fact>) {
    forall g :: Unsupported(ds, g, {f} + del) ==> g in del
  }

  /** The least closed set; each of its members is indeed without support. */
  ghost predicate LeastDeletion(ds: Derivations, f: Fact, del: set<Fact>) {
    && ClosedDeletion(ds, f, del)
    && (forall c :: ClosedDeletion(ds, f, c) ==> del <= c)
    && (forall g :: g in del ==> Unsupported(ds, g, {f} + del))
  }

  /** The result does not depend on the order in which facts are examined. */
  lemma {:induction false} LeastUnique(ds: Derivations, f: Fact, a: set<Fact>, b: set<Fact>)
    requires LeastDeletion(ds, f, a) && LeastDeletion(ds, f, b)
    ensures a == b
  {
    assert a <= b && b <= a;
  }

  // ----- Derivation trees -----

  /** The fact has a derivation tree of this height over base facts other than `f`. */
  ghost predicate HasTree(ds: Derivations, f: Fact, g: Fact, height: nat)
    decreases height, 0
  {
    g != f && (g in ds ==> height > 0 && exists d :: d in ds[g] && TreeVia(ds, f, d, height - 1))
  }

  ghost predicate TreeVia(ds: Derivations, f: Fact, d: Derivation, height: nat)
    decreases height, 1
  {
    forall p :: p in d.premises ==> HasTree(ds, f, p, height)
  }

  /** A fact that still has a tree is never deleted. */
  lemma {:induction false} TreeKeeps(ds: Derivations, f: Fact, del: set<Fact>, g: Fact, height: nat)
    requires LeastDeletion(ds, f, del) && HasTree(ds, f, g, height)
    ensures g !in del
    decreases height
  {
    if g in ds {
      var d :| d in ds[g] && TreeVia(ds, f, d, height - 1);
      forall p | p in d.premises ensures p !in {f} + del {
        TreeKeeps(ds, f, del, p, height - 1);
      }
      assert !Hit(d, {f} + del);
    }
  }

  lemma {:induction false} Taller(ds: Derivations, f: Fact, g: Fact, h: nat, k: nat)
    requires HasTree(ds, f, g, h) && h <= k
    ensures HasTree(ds, f, g, k)
    decreases h
  {
    if g in ds {
      var d :| d in ds[g] && TreeVia(ds, f, d, h - 1);
      forall p | p in d.premises ensures HasTree(ds, f, p, k - 1) {
        Taller(ds, f, p, h - 1, k - 1);
      }
      assert TreeVia(ds, f, d, k - 1);
    }
  }

  // ----- When exactly the facts without a tree are deleted -----

  ghost predicate Treeless(ds: Derivations, f: Fact, g: Fact) {
    forall h: nat :: !HasTree(ds, f, g, h)
  }

  /** The members lose their support when they and the retracted fact are gone: whatever
      supports them, apart from the retracted fact, they support themselves. */
  ghost predicate SelfSupported(ds: Derivations, f: Fact, s: set<Fact>) {
    forall g :: g in s ==> Unsupported(ds, g, {f} + s)
  }

  /** Deletion reaches every set of facts that only support each other. */
  ghost predicate NoIsland(ds: Derivations, f: Fact) {
    forall s, c :: SelfSupported(ds, f, s) && ClosedDeletion(ds, f, c) ==> s <= c + {f}
  }

  lemma {:induction false} SelfSupportedTreeless(ds: Derivations, f: Fact, s: set<Fact>, g: Fact, height: nat)
    requires SelfSupported(ds, f, s) && g in s
    ensures !HasTree(ds, f, g, height)
    decreases height
  {
    if HasTree(ds, f, g, height) {
      assert Unsupported(ds, g, {f} + s);
      var d :| d in ds[g] && TreeVia(ds, f, d, height - 1);
      var p :| p in d.premises && p in {f} + s;
      assert HasTree(ds, f, p, height - 1);
      if p in s { SelfSupportedTreeless(ds, f, s, p, height - 1); }
      assert false;
    }
  }

  /** Trees for all premises of a derivation can be given one height. */
  lemma {:induction false} CommonHeight(ds: Derivations, f: Fact, ps: seq<Fact>) returns (h: nat)
    requires forall p :: p in ps ==> !Treeless(ds, f, p)
    ensures forall p :: p in ps ==> HasTree(ds, f, p, h)
    decreases |ps|
  {
    h := 0;
    if ps != [] {
      var rest := CommonHeight(ds, f, ps[1..]);
      assert ps[0] in ps;
      var first: nat :| HasTree(ds, f, ps[0], first);
      h := if first < rest then rest else first;
      forall p | p in ps ensures HasTree(ds, f, p, h) {
        if p == ps[0] { Taller(ds, f, p, first, h); } else { Taller(ds, f, p, rest, h); }
      }
    }
  }

  ghost function TreelessFacts(ds: Derivations, f: Fact): set<Fact> {
    set g | g in ds && g != f && Treeless(ds, f, g)
  }

  /** The facts without a tree support only each other. */
  lemma {:induction false} TreelessSelfSupported(ds: Derivations, f: Fact)
    ensures SelfSupported(ds, f, TreelessFacts(ds, f))
  {
    var s := TreelessFacts(ds, f);
    forall g, d | g in s && d in ds[g] ensures Hit(d, {f} + s) {
      if forall p :: p in d.premises ==> !Treeless(ds, f, p) {
        var h := CommonHeight(ds, f, d.premises);
        assert TreeVia(ds, f, d, h);
        assert HasTree(ds, f, g, h + 1);
        assert false;
      }
      var p :| p in d.premises && Treeless(ds, f, p);
      assert !HasTree(ds, f, p, 0);
      assert p in {f} + s;
    }
  }

  /** Exactly the facts without a tree are deleted if and only if deletion reaches every set
      of facts that only support each other. */
  lemma {:induction false} DeletionExactIff(ds: Derivations, f: Fact, del: set<Fact>)
    requires LeastDeletion(ds, f, del)
    ensures (forall g :: g != f ==> (g in del <==> Treeless(ds, f, g))) <==> NoIsland(ds, f)
  {
    if forall g :: g != f ==> (g in del <==> Treeless(ds, f, g)) {
      forall s, c, g | SelfSupported(ds, f, s) && ClosedDeletion(ds, f, c) && g in s ensures g in c + {f} {
        forall h: nat ensures !HasTree(ds, f, g, h) { SelfSupportedTreeless(ds, f, s, g, h); }
        assert Treeless(ds, f, g) && del <= c;
      }
    }
    if NoIsland(ds, f) {
      forall g | g != f ensures g in del <==> Treeless(ds, f, g) {
        if g in del {
          forall h: nat ensures !HasTree(ds, f, g, h) {
            if HasTree(ds, f, g, h) { TreeKeeps(ds, f, del, g, h); assert false; }
          }
        }
        if Treeless(ds, f, g) {
          assert !HasTree(ds, f, g, 0);
          TreelessSelfSupported(ds, f);
          assert g in TreelessFacts(ds, f) && TreelessFacts(ds, f) <= del + {f};
        }
      }
    }
  }

  /** Premises have a smaller rank than what they derive. */
  ghost predicate Ranked(ds: Derivations, rank: Fact -> nat) {
    forall g, d, p :: g in ds && d in ds[g] && p in d.premises ==> rank(p) < rank(g)
  }

  /** Without cycles, a set of facts that only support each other is reached from below. */
  lemma {:induction false} RankedReached(ds: Derivations, f: Fact, rank: Fact -> nat, s: set<Fact>, c: set<Fact>,
      g: Fact)
    requires Ranked(ds, rank) && SelfSupported(ds, f, s) && ClosedDeletion(ds, f, c) && g in s
    ensures g in c
    decreases rank(g)
  {
    assert Unsupported(ds, g, {f} + s);
    forall d | d in ds[g] ensures Hit(d, {f} + c) {
      var p :| p in d.premises && p in {f} + s;
      if p in s { RankedReached(ds, f, rank, s, c, p); }
      assert p in {f} + c;
    }
    assert Unsupported(ds, g, {f} + c);
  }

  /** Without cycles, exactly the recorded facts without a tree are deleted. */
  lemma {:induction false} DeletedIffNoTree(ds: Derivations, f: Fact, del: set<Fact>, rank: Fact -> nat, g: Fact)
    requires LeastDeletion(ds, f, del) && Ranked(ds, rank) && g != f
    ensures g in del <==> Treeless(ds, f, g)
  {
    forall s, c, x | SelfSupported(ds, f, s) && ClosedDeletion(ds, f, c) && x in s ensures x in c + {f} {
      RankedReached(ds, f, rank, s, c, x);
    }
    DeletionExactIff(ds, f, del);
  }

  // ----- Facts that support each other -----

  function Cycle(f: Fact, a: Fact, b: Fact): Derivations {
    map[a := [Derivation(0, [f]), Derivation(1, [b])], b := [Derivation(2, [a])]]
  }

  /** With a cycle, facts survive that have no tree: the two support each other. */
  lemma {:induction false} CycleSurvives(f: Fact, a: Fact, b: Fact, h: nat)
    requires f != a && f != b && a != b
    ensures LeastDeletion(Cycle(f, a, b), f, {}) && !HasTree(Cycle(f, a, b), f, a, h) &&
            !HasTree(Cycle(f, a, b), f, b, h)
    ensures !NoIsland(Cycle(f, a, b), f)
  {
    var ds := Cycle(f, a, b);
    assert {f} + {} == {f};
    assert !Hit(ds[a][1], {f}) && !Hit(ds[b][0], {f});
    forall g ensures !Unsupported(ds, g, {f}) {
      if g == a { assert ds[a][1] in ds[a]; }
      if g == b { assert ds[b][0] in ds[b]; }
    }
    NoTree(f, a, b, h);
    forall k: nat ensures !HasTree(ds, f, a, k) { NoTree(f, a, b, k); }
    assert Treeless(ds, f, a) && a !in {};
    DeletionExactIff(ds, f, {});
  }

  lemma {:induction false} NoTree(f: Fact, a: Fact, b: Fact, h: nat)
    requires f != a && f != b && a != b
    ensures !HasTree(Cycle(f, a, b), f, a, h) && !HasTree(Cycle(f, a, b), f, b, h)
    decreases h
  {
    var ds := Cycle(f, a, b);
    if h > 0 {
      NoTree(f, a, b, h - 1);
      assert f in Derivation(0, [f]).premises && b in Derivation(1, [b]).premises && a in Derivation(2, [a]).premises;
      assert !TreeVia(ds, f, Derivation(0, [f]), h - 1);
      assert !TreeVia(ds, f, Derivation(1, [b]), h - 1);
      assert !TreeVia(ds, f, Derivation(2, [a]), h - 1);
    }
  }

  // ----- The index -----

  /** The derivations none of whose premises is gone. */
  function Keep(ds: seq<Derivation>, gone: set<Fact>): (r: seq<Derivation>)
    ensures forall d :: d in r <==> d in ds && !Hit(d, gone)
  {
    if ds == [] then [] else (if Hit(ds[0], gone) then [] else [ds[0]]) + Keep(ds[1..], gone)
  }

  lemma {:induction false} KeepTwice(ds: seq<Derivation>, a: set<Fact>, b: set<Fact>)
    ensures Keep(Keep(ds, a), b) == Keep(ds, a + b)
    decreases |ds|
  {
    if ds != [] {
      KeepTwice(ds[1..], a, b);
      assert Hit(ds[0], a + b) <==> Hit(ds[0], a) || Hit(ds[0], b);
      if !Hit(ds[0], a) {
        assert Keep(ds, a) == [ds[0]] + Keep(ds[1..], a);
        assert Keep(ds, a)[0] == ds[0] && Keep(ds, a)[1..] == Keep(ds[1..], a);
      } else {
        assert Keep(ds, a) == Keep(ds[1..], a);
      }
    }
  }

  lemma {:induction false} KeepAll(ds: seq<Derivation>, gone: set<Fact>)
    requires forall d :: d in ds ==> !Hit(d, gone)
    ensures Keep(ds, gone) == ds
    decreases |ds|
  {
    if ds != [] {
      assert ds[0] in ds;
      KeepAll(ds[1..], gone);
    }
  }

  /** The reverse index leads from each premise to the facts derived from it. */
  ghost predicate Linked(ds: Derivations, deps: map<Fact, set<Fact>>) {
    forall g, d, p :: g in ds && d in ds[g] && p in d.premises ==> p in deps && g in deps[p]
  }

  ghost predicate Recorded(ds: Derivations) {
    forall g :: g in ds ==> ds[g] != []
  }

  /** During the delete phase: the facts in `gone` have been taken out of the derivations of
      the facts that are still kept, and those in `work` wait. */
  ghost predicate Deleting(ds0: Derivations, ds: Derivations, f: Fact, gone: set<Fact>, work: seq<Fact>,
      del: set<Fact>) {
    && ds.Keys == ds0.Keys && del <= ds0.Keys
    && (forall x :: x in gone || x in work <==> x == f || x in del)
    && (forall g :: g in del ==> Unsupported(ds0, g, {f} + del))
    && (forall g :: g in ds0 && g !in del ==> ds[g] == Keep(ds0[g], gone) && ds[g] != [])
    && (forall c :: ClosedDeletion(ds0, f, c) ==> del <= c)
  }

  /** In the middle of one fact's dependents: those in `rest` have not been examined. */
  ghost predicate DeletingOne(ds0: Derivations, ds: Derivations, f: Fact, gone: set<Fact>, fact: Fact, rest: set<Fact>,
      work: seq<Fact>, del: set<Fact>) {
    && ds.Keys == ds0.Keys && del <= ds0.Keys
    && (forall x :: x in gone || x == fact || x in work <==> x == f || x in del)
    && (forall g :: g in del ==> Unsupported(ds0, g, {f} + del))
    && (forall g ::
        g in ds0 && g !in del ==> ds[g] != [] && ds[g] == Keep(ds0[g], if g in rest then gone else gone + {fact}))
    && (forall c :: ClosedDeletion(ds0, f, c) ==> del <= c)
  }

  lemma {:induction false} StartFact(ds0: Derivations, ds: Derivations, deps: map<Fact, set<Fact>>, f: Fact,
      gone: set<Fact>, work: seq<Fact>, del: set<Fact>)
    requires work != [] && Deleting(ds0, ds, f, gone, work, del) && Linked(ds0, deps)
    ensures var n := |work| - 1;
            DeletingOne(ds0, ds, f, gone, work[n], if work[n] in deps then deps[work[n]] else {}, work[..n], del)
  {
    var n := |work| - 1;
    var fact := work[n];
    var rest := if fact in deps then deps[fact] else {};
    assert forall x :: x in work <==> x == fact || x in work[..n];
    forall g | g in ds0 && g !in del && g !in rest ensures ds[g] == Keep(ds0[g], gone + {fact}) {
      forall d | d in ds[g] ensures !Hit(d, {fact}) {
        assert d in ds0[g];
      }
      KeepAll(ds[g], {fact});
      KeepTwice(ds0[g], gone, {fact});
    }
  }

  /** Examining one dependent. */
  lemma {:induction false} StepDependent(ds0: Derivations, ds: Derivations, f: Fact, gone: set<Fact>, fact: Fact,
      rest: set<Fact>, work: seq<Fact>, del: set<Fact>, g: Fact)
    requires DeletingOne(ds0, ds, f, gone, fact, rest, work, del) && g in rest && g !in del && g in ds
    ensures var kept := Keep(ds[g], {fact});
            var ds' := ds[g := kept];
            && (kept != [] ==> DeletingOne(ds0, ds', f, gone, fact, rest - {g}, work, del))
            && (kept == [] ==> DeletingOne(ds0, ds', f, gone, fact, rest - {g}, work + [g], del + {g}))
  {
    var kept := Keep(ds[g], {fact});
    KeepTwice(ds0[g], gone, {fact});
    if kept == [] {
      forall c | ClosedDeletion(ds0, f, c) ensures g in c {
        assert Unsupported(ds0, g, {f} + c) by {
          forall d | d in ds0[g] ensures Hit(d, {f} + c) { HitMore(ds0, f, gone, fact, work, del, g, d, c); }
        }
      }
      forall h | h in del + {g} ensures Unsupported(ds0, h, {f} + (del + {g})) {
        if h in del {
          UnsupportedGrows(ds0, h, {f} + del, {f} + (del + {g}));
        } else {
          forall d | d in ds0[g]
            ensures Hit(d, {f} + (del + {g})) { HitMore(ds0, f, gone, fact, work, del, g, d, del + {g}); }
        }
      }
    }
  }

  lemma {:induction false} HitMore(ds0: Derivations, f: Fact, gone: set<Fact>, fact: Fact, work: seq<Fact>,
      del: set<Fact>, g: Fact, d: Derivation, c: set<Fact>)
    requires g in ds0 && d in ds0[g] && Keep(ds0[g], gone + {fact}) == [] && del <= c
    requires forall x :: x in gone || x == fact || x in work <==> x == f || x in del
    ensures Hit(d, {f} + c)
  {
    assert d !in Keep(ds0[g], gone + {fact});
    var p :| p in d.premises && p in gone + {fact};
    assert p in {f} + c;
  }

  lemma {:induction false} UnsupportedGrows(ds: Derivations, g: Fact, a: set<Fact>, b: set<Fact>)
    requires Unsupported(ds, g, a) && a <= b
    ensures Unsupported(ds, g, b)
  {
    forall d | d in ds[g] ensures Hit(d, b) {
      var p :| p in d.premises && p in a;
      assert p in b;
    }
  }

  /** When no fact waits, the deletions are the least closed set. */
  lemma {:induction false} DeletedLeast(ds0: Derivations, ds: Derivations, f: Fact, gone: set<Fact>, del: set<Fact>)
    requires Deleting(ds0, ds, f, gone, [], del)
    ensures LeastDeletion(ds0, f, del)
    ensures forall g :: g in ds0 && g !in del ==> ds[g] == Keep(ds0[g], {f} + del)
  {
    assert gone == {f} + del;
    forall g | g in ds0 && g !in del ensures !Unsupported(ds0, g, {f} + del) {
      var d := ds[g][0];
      assert d in Keep(ds0[g], {f} + del);
    }
  }

  class ProvenanceIndex {
    var derivations: Derivations
    var dependents: map<Fact, set<Fact>>

    ghost predicate Valid()
      reads this
    {
      Linked(derivations, dependents) && Recorded(derivations)
    }

    constructor ()
      ensures Valid() && derivations == map[]
    {
      derivations := map[];
      dependents := map[];
    }

    method Record(derived: Fact, ruleId: nat, premises: seq<Fact>)
      requires Valid()
      modifies this
      ensures Valid()
      ensures derivations == old(derivations)[derived :=
        (if derived in old(derivations) then old(derivations)[derived] else []) + [Derivation(ruleId, premises)]]
    {
      for i := 0 to |premises|
        invariant derivations == old(derivations) && Valid()
        invariant forall k :: 0 <= k < i ==> premises[k] in dependents && derived in dependents[premises[k]]
      {
        var p := premises[i];
        dependents := dependents[p := (if p in dependents then dependents[p] else {}) + {derived}];
      }
      var before := if derived in derivations then derivations[derived] else [];
      derivations := derivations[derived := before + [Derivation(ruleId, premises)]];
    }

    /** Take a fact that is gone out of the derivations of its dependents. */
    method ExamineDependents(fact: Fact, work: seq<Fact>, del: set<Fact>, ghost ds0: Derivations, ghost f: Fact,
        ghost gone: set<Fact>)
      returns (work': seq<Fact>, del': set<Fact>)
      requires DeletingOne(ds0, derivations, f, gone, fact, if fact in dependents then dependents[fact] else
                           {}, work, del)
      modifies `derivations
      ensures DeletingOne(ds0, derivations, f, gone, fact, {}, work', del')
      ensures del <= del' && (del' == del ==> |work'| == |work|)
    {
      var rest := if fact in dependents then dependents[fact] else {};
      work', del' := work, del;
      while rest != {}
        invariant DeletingOne(ds0, derivations, f, gone, fact, rest, work', del')
        invariant del <= del' && (del' == del ==> |work'| == |work|)
      {
        var g :| g in rest;
        if g !in del' && g in derivations {
          StepDependent(ds0, derivations, f, gone, fact, rest, work', del', g);
          var kept := Keep(derivations[g], {fact});
          derivations := derivations[g := kept];
          if kept == [] {
            del' := del' + {g};
            work' := work' + [g];
          }
        }
        rest := rest - {g};
      }
    }

    /** Delete what depends on the retracted fact alone: the least set closed under losing
        support; the derivations that stay are exactly those without a deleted premise. */
    method DeletePhase(retracted: Fact) returns (del: set<Fact>)
      requires Valid()
      modifies this
      ensures Valid()
      ensures LeastDeletion(old(derivations), retracted, del)
      ensures derivations.Keys == old(derivations).Keys - del
      ensures forall g :: g in derivations ==> derivations[g] == Keep(old(derivations)[g], {retracted} + del)
      ensures dependents.Keys == old(dependents).Keys - del
      ensures forall p :: p in dependents ==> dependents[p] == old(dependents)[p] - del
    {
      ghost var ds0, gone: set<Fact> := derivations, {};
      del := {};
      var work := [retracted];
      StartDeletion(ds0, retracted);
      while work != []
        invariant Deleting(ds0, derivations, retracted, gone, work, del) && dependents == old(dependents)
        decreases ds0.Keys - del, |work|
      {
        var n := |work| - 1;
        var fact := work[n];
        StartFact(ds0, derivations, dependents, retracted, gone, work, del);
        ghost var before := del;
        work, del := ExamineDependents(fact, work[..n], del, ds0, retracted, gone);
        EndFact(ds0, derivations, retracted, gone, fact, work, del);
        gone := gone + {fact};
        assert before <= del <= ds0.Keys;
      }
      DeletedLeast(ds0, derivations, retracted, gone, del);
      CleanedUp(ds0, derivations, dependents, retracted, gone, del);
      derivations := derivations - del;
      dependents := map p | p in dependents && p !in del :: dependents[p] - del;
    }
  }

  lemma {:induction false} StartDeletion(ds0: Derivations, f: Fact)
    requires Recorded(ds0)
    ensures Deleting(ds0, ds0, f, {}, [f], {})
  {
    forall g | g in ds0 ensures ds0[g] == Keep(ds0[g], {}) { KeepAll(ds0[g], {}); }
  }

  lemma {:induction false} EndFact(ds0: Derivations, ds: Derivations, f: Fact, gone: set<Fact>, fact: Fact,
      work: seq<Fact>, del: set<Fact>)
    requires DeletingOne(ds0, ds, f, gone, fact, {}, work, del)
    ensures Deleting(ds0, ds, f, gone + {fact}, work, del)
  {
  }

  /** What is left is recorded and linked. */
  lemma {:induction false} CleanedUp(ds0: Derivations, ds: Derivations, deps: map<Fact, set<Fact>>, f: Fact,
      gone: set<Fact>, del: set<Fact>)
    requires Deleting(ds0, ds, f, gone, [], del) && Linked(ds0, deps)
    ensures Recorded(ds - del) && Linked(ds - del, map p | p in deps && p !in del :: deps[p] - del)
  {
    var left, links := ds - del, map p | p in deps && p !in del :: deps[p] - del;
    forall g, d: Derivation, p | g in left && d in left[g] && p in d.premises ensures p in links && g in links[p] {
      assert d in Keep(ds0[g], gone);
      assert d in ds0[g] && !Hit(d, gone);
      assert p !in del;
    }
  }
}
