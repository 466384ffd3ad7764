/** Rules whose premises are relation atoms over variables and constants: they are safe, and
    their delta plans miss an assignment exactly when the condition for completeness fails. */
module VarRules {
  import opened Datalog
  import opened Interp
  import opened Planner
  import opened PlanCorrect
  import opened Delay
  import opened Bindings
  import opened RuleTheorem
  import opened SemiNaive

  predicate VarArgs(ts: seq<Term>) {
    forall t :: t in ts ==> t.ConstTerm? || (t.VarTerm? && t.v.User?)
  }

  predicate VarAtom(p: Premise) {
    p.Atom? && p.pred.Rel? && VarArgs(p.args)
  }

  predicate VarRule(r: Rule) {
    && (forall p :: p in r.premises ==> VarAtom(p))
    && VarArgs(r.head.args) && TermsVars(r.head.args) <= PremisesVars(r.premises)
  }

  // ----- They pass the analysis -----

  lemma {:induction false} ArgVars(ts: seq<Term>, v: Var)
    requires VarArgs(ts)
    ensures v in TermsVars(ts) <==> VarTerm(v) in ts
    decreases |ts|
  {
    if ts != [] {
      SplitHead(ts);
      assert ts[0] in ts;
      ArgVars(ts[1..], v);
    }
  }

  lemma {:induction false} PremiseHasVar(ps: seq<Premise>, v: Var)
    ensures v in PremisesVars(ps) <==> exists p :: p in ps && v in PremiseVars(p)
    decreases |ps|
  {
    if ps != [] {
      SplitHead(ps);
      PremiseHasVar(ps[1..], v);
      assert ps[0] in ps;
    }
  }

  lemma {:induction false} VarScan(ps: seq<Premise>, s: Progress)
    requires forall p :: p in ps ==> VarAtom(p)
    ensures var t := ScanAll(ps, s);
            t.Ok? && t.value == s.(bound := s.bound + PremisesVars(ps), seen := s.seen + PremisesVars(ps))
    decreases |ps|
  {
    if ps != [] {
      assert ps[0] in ps;
      var t := ScanPremise(ps[0], s).value;
      VarScan(ps[1..], t);
    }
  }

  lemma {:induction false} VarJoins(ps: seq<Premise>, bound: set<Var>, cfg: Config)
    requires forall p :: p in ps ==> VarAtom(p)
    ensures JoinsRelations(ps, bound, cfg)
    decreases |ps|
  {
    if ps != [] {
      assert VarAtom(ps[0]);
      if ChosenJoin(ps[0].args, ps, bound, cfg).Some? {
        var j := ChosenJoin(ps[0].args, ps, bound, cfg).value;
        assert ps[1] in ps;
        VarJoins(ps[2..], bound + VarSet(j.build) + VarSet(j.probe), cfg);
      } else {
        VarJoins(ps[1..], BoundAfter(ps[0], bound), cfg);
      }
    }
  }

  /** Premises that are all atoms keep their order. */
  lemma {:induction false} AtomsKeepOrder(ps: seq<Premise>, s: State)
    requires (forall p :: p in ps ==> p.Atom?) && s.waiting == []
    ensures Reorder(ps, s).ordered == s.ordered + ps && Reorder(ps, s).waiting == []
    decreases |ps|
  {
    if ps != [] {
      var t := Append(s, ps[0]);
      assert Sweep([], t) == t && Settle(t) == t;
      assert ps[0] in ps;
      AtomsKeepOrder(ps[1..], t);
      assert s.ordered + [ps[0]] + ps[1..] == s.ordered + ps;
    }
  }

  lemma {:induction false} VarRuleAnalysed(r: Rule, cfg: Config)
    requires VarRule(r)
    ensures Safe(r) && RelationJoins(r, cfg) && Delayed(r.premises) == r.premises
  {
    var ps := r.premises;
    AtomsKeepOrder(ps, State([], {}, []));
    assert [] + ps + [] == ps;
    VarJoins(ps, {}, cfg);
    VarScan(ps, Start(r.head));
    forall v | v in PremisesVars(ps) ensures v.User? {
      PremiseHasVar(ps, v);
      var p :| p in ps && v in PremiseVars(p);
      ArgVars(p.args, v);
    }
    SimpleRuleSafe(r);
  }

  lemma {:induction false} VarsSupported(ts: seq<Term>)
    requires VarArgs(ts)
    ensures AllSupported(ts)
    decreases |ts|
  {
    if ts != [] {
      assert ts[0] in ts;
      VarsSupported(ts[1..]);
    }
  }

  lemma {:induction false} VarRulePlannable(r: Rule)
    requires VarRule(r)
    ensures Plannable(r)
  {
    VarsSupported(r.head.args);
    forall p | p in r.premises ensures WellFormed(p) {
      assert VarAtom(p);
      VarsSupported(p.args);
    }
  }

  // ----- Their meaning -----

  predicate Assigned(ts: seq<Term>, sigma: Env) {
    forall t :: t in ts ==> t.ConstTerm? || (t.VarTerm? && t.v in sigma)
  }

  function Values(ts: seq<Term>, sigma: Env): (r: Tuple)
    requires Assigned(ts, sigma)
    ensures |r| == |ts|
    ensures forall i :: 0 <= i < |ts| && ts[i].VarTerm? ==> ts[i].v in sigma && r[i] == sigma[ts[i].v]
    ensures forall i :: 0 <= i < |ts| && !ts[i].VarTerm? ==> ts[i].ConstTerm? && r[i] == ConstValue(ts[i].c)
  {
    if ts == [] then []
    else
      assert ts[0] in ts;
      [if ts[0].VarTerm? then sigma[ts[0].v] else ConstValue(ts[0].c)] + Values(ts[1..], sigma)
  }

  lemma {:induction false} EvalVars(ts: seq<Term>, sigma: Env, m: Machine)
    requires VarArgs(ts)
    ensures EvalTerms(ts, sigma, m) == if Assigned(ts, sigma) then Ok(Values(ts, sigma)) else Err
    decreases |ts|
  {
    if ts != [] {
      SplitHead(ts);
      assert ts[0] in ts;
      EvalVars(ts[1..], sigma, m);
    }
  }

  /** The fact that an atom becomes under an assignment. */
  function AtomFact(p: Premise, sigma: Env): Fact
    requires p.Atom? && Assigned(p.args, sigma)
  {
    Fact(p.pred, Values(p.args, sigma))
  }

  ghost predicate Matches(r: Rule, sigma: Env, facts: set<Fact>) {
    forall p :: p in r.premises && p.Atom? ==> Assigned(p.args, sigma) && AtomFact(p, sigma) in facts
  }

  lemma {:induction false} VarSatisfies(r: Rule, f: Fact, sigma: Env, s: set<Fact>, d: set<Fact>, m: Machine)
    requires VarRule(r) && Shows(m, s, d)
    ensures Satisfies(sigma, r, f, m) <==>
            Matches(r, sigma, s + d) && Assigned(r.head.args, sigma) &&
            f == Fact(r.head.rel, Values(r.head.args, sigma))
  {
    EvalVars(r.head.args, sigma, m);
    forall p | p in r.premises ensures Holds(p, sigma, m) <==> Assigned(p.args, sigma) && AtomFact(p, sigma) in s + d {
      assert VarAtom(p);
      EvalVars(p.args, sigma, m);
    }
  }

  lemma {:induction false} VarUsesDelta(p: Premise, sigma: Env, preds: set<Pred>, d: set<Fact>, m: Machine)
    requires VarAtom(p)
    ensures UsesDelta(p, sigma, preds, d, m) <==> p.pred in preds && Assigned(p.args, sigma) && AtomFact(p, sigma) in d
  {
    EvalVars(p.args, sigma, m);
  }

  /** A delta plan of such a rule derives what matches with delta facts where it scans. */
  lemma {:induction false} VarJob(r: Rule, f: Fact, q: Pred, hashJoin: bool, d: set<Fact>, m: Machine)
    requires VarRule(r)
    requires forall p: Pred, t: Tuple {:trigger t in m.delta(p)} :: t in m.delta(p) <==> Fact(p, t) in d
    requires forall p, t :: t in m.delta(p) ==> t in m.full(p)
    ensures JobDerives(Job(r, Config(Some(q), hashJoin)), f, m) <==>
            exists sigma :: Satisfies(sigma, r, f, m) && ScansTakeDelta(r.premises, {}, q, sigma, d, m)
  {
    var ps := r.premises;
    VarRuleAnalysed(r, Config(None, false));
    hide Delayed, AllHold, ScansTakeDelta, Safe, VarRule;
    forall sigma ensures Completes(sigma, ps, {}, r.head, map[], Some(q), f, m) <==>
                         Satisfies(sigma, r, f, m) && ScansTakeDelta(ps, {}, q, sigma, d, m)
    {
      AllHoldMeans(ps, {}, sigma, m);
      if AllHold(ps, {}, Some(q), sigma, m) { DeltaHolds(ps, {}, Some(q), sigma, m); }
      if AllHold(ps, {}, None, sigma, m) { DeltaHoldsIff(ps, {}, q, sigma, d, m); }
    }
    if sigma :| Satisfies(sigma, r, f, m) && ScansTakeDelta(ps, {}, q, sigma, d, m) {
      assert Completes(sigma, ps, {}, r.head, map[], Some(q), f, m);
    }
  }

  // ----- Short argument lists -----

  lemma {:induction false} OneVar(t: Term)
    requires t.VarTerm?
    ensures TermsVars([t]) == {t.v} && DirectVars([t]) == {t.v}
  {
    assert [t][1..] == [];
  }

  lemma {:induction false} TwoVars(t: Term, u: Term)
    requires t.VarTerm? && u.VarTerm?
    ensures TermsVars([t, u]) == {t.v, u.v}
  {
    assert [t, u][1..] == [u];
    OneVar(u);
  }

  lemma {:induction false} ThreeVars(t: Term, u: Term, w: Term)
    requires t.VarTerm? && u.VarTerm? && w.VarTerm?
    ensures TermsVars([t, u, w]) == {t.v, u.v, w.v}
  {
    assert [t, u, w][1..] == [u, w];
    TwoVars(u, w);
  }

  lemma {:induction false} LastPremise(p: Premise, q: Premise)
    ensures PremisesVars([p]) == PremiseVars(p) && PremisesVars([q, p]) == PremiseVars(q) + PremiseVars(p)
  {
    assert [p][1..] == [] && [q, p][1..] == [p];
  }

  lemma {:induction false} ValuesOf(ts: seq<Term>, sigma: Env)
    requires forall i :: 0 <= i < |ts| ==> ts[i].VarTerm?
    ensures Assigned(ts, sigma) <==> forall i :: 0 <= i < |ts| ==> ts[i].v in sigma
    ensures Assigned(ts, sigma) && |ts| == 1 ==> Values(ts, sigma) == [sigma[ts[0].v]]
    ensures Assigned(ts, sigma) && |ts| == 2 ==> Values(ts, sigma) == [sigma[ts[0].v], sigma[ts[1].v]]
    ensures Assigned(ts, sigma) && |ts| == 3 ==> Values(ts, sigma) == [sigma[ts[0].v], sigma[ts[1].v], sigma[ts[2].v]]
  {
    if forall i :: 0 <= i < |ts| ==> ts[i].v in sigma { assert Assigned(ts, sigma); }
    if Assigned(ts, sigma) {
      forall i | 0 <= i < |ts| ensures ts[i].v in sigma { assert ts[i] in ts; }
    }
  }

  // ----- Where a delta plan scans -----

  /** The plan for the delta of `q` scans this premise somewhere. */
  ghost predicate ScannedIn(ps: seq<Premise>, bound: set<Var>, q: Pred, x: Premise)
    decreases |ps|
  {
    ps != [] && ((ps[0] == x && DeltaScanned(x, bound, q)) || ScannedIn(ps[1..], BoundAfter(ps[0], bound), q, x))
  }

  lemma {:induction false} SomeScanned(ps: seq<Premise>, bound: set<Var>, q: Pred) returns (x: Premise)
    requires !NoDeltaScan(ps, bound, q)
    ensures ScannedIn(ps, bound, q, x) && x in ps && x.Atom? && x.pred == q
    decreases |ps|
  {
    if DeltaScanned(ps[0], bound, q) {
      x := ps[0];
    } else {
      x := SomeScanned(ps[1..], BoundAfter(ps[0], bound), q);
    }
  }

  lemma {:induction false} ScannedTakes(ps: seq<Premise>, bound: set<Var>, q: Pred, x: Premise, sigma: Env,
      d: set<Fact>, m: Machine)
    requires ScannedIn(ps, bound, q, x) && ScansTakeDelta(ps, bound, q, sigma, d, m)
    ensures UsesDelta(x, sigma, {q}, d, m)
    decreases |ps|
  {
    if !(ps[0] == x && DeltaScanned(x, bound, q)) { ScannedTakes(ps[1..], BoundAfter(ps[0], bound), q, x, sigma, d, m);
                                                    }
  }

  // ----- A split that loses an assignment -----

  /** Different variables of the rule have different values, which are no constants. */
  ghost predicate Injective(r: Rule, sigma: Env) {
    && PremisesVars(r.premises) <= sigma.Keys
    && (forall v :: v in PremisesVars(r.premises) ==> sigma[v].Compound?)
    && forall v, w :: v in PremisesVars(r.premises) && w in PremisesVars(r.premises) && sigma[v] == sigma[w] ==> v == w
  }

  lemma {:induction false} AllAssigned(r: Rule, sigma: Env, p: Premise)
    requires VarRule(r) && p in r.premises && PremisesVars(r.premises) <= sigma.Keys
    ensures Assigned(p.args, sigma) && forall t :: t in p.args && t.VarTerm? ==> t.v in PremisesVars(r.premises)
  {
    assert VarAtom(p);
    forall t | t in p.args && t.VarTerm? ensures t.v in PremisesVars(r.premises) {
      ArgVars(p.args, t.v);
      PremiseHasVar(r.premises, t.v);
    }
  }

  lemma {:induction false} FactsDiffer(r: Rule, sigma: Env, x: Premise, y: Premise)
    requires VarRule(r) && Injective(r, sigma) && x in r.premises && y in r.premises && x != y
    ensures x.Atom? && y.Atom? && Assigned(x.args, sigma) && Assigned(y.args, sigma) &&
            AtomFact(x, sigma) != AtomFact(y, sigma)
  {
    assert VarAtom(x) && VarAtom(y);
    AllAssigned(r, sigma, x);
    AllAssigned(r, sigma, y);
    var a, b := Values(x.args, sigma), Values(y.args, sigma);
    if x.pred == y.pred && |x.args| == |y.args| {
      assert x.args != y.args;
      var i :| 0 <= i < |x.args| && x.args[i] != y.args[i];
      assert x.args[i] in x.args && y.args[i] in y.args;
      assert a[i] != b[i];
    }
  }

  /** The premise alone that takes a delta fact, so that every delta plan misses. */
  lemma {:induction false} ChooseLost(r: Rule, preds: set<Pred>) returns (y: Premise)
    requires VarRule(r) && !DeltaComplete(r, preds)
    ensures y in r.premises && VarAtom(y) && y.pred in preds
    ensures forall q ::
            q in r.premises && q.Atom? && q.pred in preds ==>
            exists x :: x in r.premises && x != y && ScannedIn(r.premises, {}, q.pred, x)
  {
    var ps := r.premises;
    VarRuleAnalysed(r, Config(None, false));
    hide Delayed, Safe, NoDeltaScan, ScannedIn;
    var d :| d in preds && !OccursOnce(ps, d);
    var a, b :| a in ps && b in ps && a.Atom? && b.Atom? && a.pred == d && b.pred == d && a != b;
    var x := SomeScanned(ps, {}, d);
    y := if a != x then a else b;
    forall q | q in ps && q.Atom? && q.pred in preds
      ensures exists x :: x in ps && x != y && ScannedIn(ps, {}, q.pred, x)
    {
      if q.pred == d {
        assert ScannedIn(ps, {}, q.pred, x);
      } else {
        var z := SomeScanned(ps, {}, q.pred);
        assert z.pred != y.pred;
      }
    }
  }

  /** The facts of the premises under an assignment. */
  ghost function Instances(r: Rule, sigma: Env): set<Fact>
    requires VarRule(r) && PremisesVars(r.premises) <= sigma.Keys
  {
    set p | p in r.premises :: AllAssigned(r, sigma, p); AtomFact(p, sigma)
  }

  /** With only the fact of that premise in the delta, no delta plan completes an injective
      assignment. */
  lemma {:induction false} LostAssignment(r: Rule, f: Fact, sigma: Env, y: Premise, s: set<Fact>, preds: set<Pred>,
      hashJoin: bool, m: Machine)
    requires VarRule(r) && Injective(r, sigma) && y in r.premises && VarAtom(y)
    requires forall q ::
             q in r.premises && q.Atom? && q.pred in preds ==>
             exists x :: x in r.premises && x != y && ScannedIn(r.premises, {}, q.pred, x)
    requires Assigned(y.args, sigma) && Shows(m, s, {AtomFact(y, sigma)}) && Satisfies(sigma, r, f, m)
    ensures !Covered(r, f, sigma, preds, hashJoin, m)
  {
    var ps, d := r.premises, {AtomFact(y, sigma)};
    hide Delayed, Safe, ScannedIn, ScansTakeDelta, Covered, Satisfies, RelationJoins;
    VarRuleAnalysed(r, Config(None, hashJoin));
    CoveredIff(r, f, sigma, d, preds, hashJoin, m);
    if q :| q in ps && q.Atom? && q.pred in preds && ScansTakeDelta(ps, {}, q.pred, sigma, d, m) {
      var x :| x in ps && x != y && ScannedIn(ps, {}, q.pred, x);
      assert VarAtom(x);
      AllAssigned(r, sigma, x);
      ScanTakesOther(r, q.pred, sigma, sigma, x, y, d, m);
      assert false;
    }
  }

  // ----- The condition is exact -----

  /** Tiers as they occur between rounds. */
  ghost predicate Split(s: set<Fact>, d: set<Fact>, preds: set<Pred>) {
    s !! d && forall g :: g in d ==> g.rel in preds
  }

  ghost predicate NeedsDelta(r: Rule, sigma: Env, d: set<Fact>, preds: set<Pred>, m: Machine) {
    exists q :: q in r.premises && UsesDelta(q, sigma, preds, d, m)
  }

  /** Whatever the tiers, an assignment that takes a delta fact completes some delta plan. */
  ghost predicate NothingMissed(r: Rule, preds: set<Pred>, hashJoin: bool, host: Host) {
    forall s, d, sigma, f {:trigger Split(s, d, preds), Satisfies(sigma, r, f, host(s, d))} ::
      Split(s, d, preds) && Satisfies(sigma, r, f, host(s, d)) && NeedsDelta(r, sigma, d, preds, host(s, d)) ==>
      Covered(r, f, sigma, preds, hashJoin, host(s, d))
  }

  /** An assignment of pairwise different values, none a constant. */
  ghost function Naming(r: Rule): Env {
    map v | v in PremisesVars(r.premises) :: Compound(ListKind, if v.User? then [Str(v.name)] else [])
  }

  lemma {:induction false} NamingInjective(r: Rule)
    requires VarRule(r)
    ensures Injective(r, Naming(r)) && Assigned(r.head.args, Naming(r))
  {
    VarRuleAnalysed(r, Config(None, false));
    forall t | t in r.head.args && t.VarTerm? ensures t.v in Naming(r) { ArgVars(r.head.args, t.v); }
  }

  /** Where the condition fails, a split of the facts of one assignment loses it. */
  lemma {:induction false} SplitLoses(r: Rule, preds: set<Pred>, host: Host)
      returns (s: set<Fact>, d: set<Fact>, y: Premise, f: Fact)
    requires Faithful(host) && VarRule(r) && !DeltaComplete(r, preds)
    ensures Split(s, d, preds) && Satisfies(Naming(r), r, f, host(s, d))
    ensures y in r.premises && VarAtom(y) && Assigned(y.args, Naming(r)) && d == {AtomFact(y, Naming(r))} &&
            y.pred in preds
    ensures forall q ::
            q in r.premises && q.Atom? && q.pred in preds ==>
            exists x :: x in r.premises && x != y && ScannedIn(r.premises, {}, q.pred, x)
  {
    var sigma := Naming(r);
    NamingInjective(r);
    y := ChooseLost(r, preds);
    AllAssigned(r, sigma, y);
    d := {AtomFact(y, sigma)};
    s := Instances(r, sigma) - d;
    f := Fact(r.head.rel, Values(r.head.args, sigma));
    assert Shows(host(s, d), s, d);
    forall p | p in r.premises
      ensures Assigned(p.args, sigma) && AtomFact(p, sigma) in s + d { AllAssigned(r, sigma, p); }
    VarSatisfies(r, f, sigma, s, d, host(s, d));
  }

  /** For rules over variables and constants the condition is exact: the delta plans miss no assignment if
      and only if `DeltaComplete` holds. */
  lemma {:induction false} DeltaExactIff(r: Rule, preds: set<Pred>, hashJoin: bool, host: Host)
    requires Faithful(host) && VarRule(r)
    ensures NothingMissed(r, preds, hashJoin, host) <==> DeltaComplete(r, preds)
  {
    hide Satisfies, DeltaComplete, Covered, UsesDelta, ScannedIn;
    if DeltaComplete(r, preds) {
      forall s, d, sigma, f | Satisfies(sigma, r, f, host(s, d)) && NeedsDelta(r, sigma, d, preds, host(s, d))
        ensures Covered(r, f, sigma, preds, hashJoin, host(s, d))
      {
        assert Shows(host(s, d), s, d);
        var q :| q in r.premises && UsesDelta(q, sigma, preds, d, host(s, d));
        AssignmentCovered(r, f, sigma, q, d, preds, hashJoin, host(s, d));
      }
    } else {
      var s, d, y, f := SplitLoses(r, preds, host);
      assert Shows(host(s, d), s, d);
      NamingInjective(r);
      LostAssignment(r, f, Naming(r), y, s, preds, hashJoin, host(s, d));
      VarUsesDelta(y, Naming(r), preds, d, host(s, d));
      assert NeedsDelta(r, Naming(r), d, preds, host(s, d));
    }
  }

  /** Whatever the tiers, a fact that the rule derives follows from the stable tier, or some
      delta plan derives it. */
  ghost predicate NoFactMissed(r: Rule, preds: set<Pred>, hashJoin: bool, host: Host) {
    forall s, d, f {:trigger Split(s, d, preds), Derives(r, f, host(s, d))} ::
      Split(s, d, preds) && Derives(r, f, host(s, d)) ==>
      || Derives(r, f, host(s, {}))
      || exists j :: j in RuleDeltaJobs(r, r.premises, preds, hashJoin) && JobDerives(j, f, host(s, d))
  }

  /** Two assignments that give the same head agree when the head has all variables. */
  lemma {:induction false} SameHeadAgrees(r: Rule, a: Env, b: Env)
    requires VarRule(r) && PremisesVars(r.premises) <= TermsVars(r.head.args)
    requires Assigned(r.head.args, a) && Assigned(r.head.args, b) && Values(r.head.args, a) == Values(r.head.args, b)
    ensures forall v :: v in PremisesVars(r.premises) ==> v in a && v in b && a[v] == b[v]
  {
    forall v | v in PremisesVars(r.premises) ensures v in a && v in b && a[v] == b[v] {
      ArgVars(r.head.args, v);
      var i :| 0 <= i < |r.head.args| && r.head.args[i] == VarTerm(v);
      assert Values(r.head.args, a)[i] == Values(r.head.args, b)[i];
    }
  }

  lemma {:induction false} SameFact(r: Rule, a: Env, b: Env, p: Premise)
    requires VarRule(r) && p in r.premises &&
             forall v :: v in PremisesVars(r.premises) ==> v in a && v in b && a[v] == b[v]
    ensures VarAtom(p) && Assigned(p.args, a) && Assigned(p.args, b) && AtomFact(p, a) == AtomFact(p, b)
  {
    AllAssigned(r, a, p);
    AllAssigned(r, b, p);
    forall i | 0 <= i < |p.args| ensures Values(p.args, a)[i] == Values(p.args, b)[i] { assert p.args[i] in p.args; }
    assert Values(p.args, a) == Values(p.args, b);
  }

  /** When the head has all variables the condition is exact for facts as well. */
  lemma {:induction false} FactExactIff(r: Rule, preds: set<Pred>, hashJoin: bool, host: Host)
    requires Faithful(host) && VarRule(r) && InStratum(r, preds) && PremisesVars(r.premises) <= TermsVars(r.head.args)
    ensures NoFactMissed(r, preds, hashJoin, host) <==> DeltaComplete(r, preds)
  {
    hide Satisfies, DeltaComplete, Covered, ScannedIn, JobDerives, VarRule;
    if DeltaComplete(r, preds) {
      forall s, d, f | Split(s, d, preds) && Derives(r, f, host(s, d))
        ensures Derives(r, f, host(s, {})) ||
                exists j :: j in RuleDeltaJobs(r, r.premises, preds, hashJoin) && JobDerives(j, f, host(s, d))
      {
        DeltaCovers(r, f, s, d, preds, hashJoin, host);
      }
    } else {
      var s, d, y, f := SplitLoses(r, preds, host);
      assert Derives(r, f, host(s, d));
      LostFact(r, f, y, s, d, preds, hashJoin, host);
    }
  }

  lemma {:induction false} LostFact(r: Rule, f: Fact, y: Premise, s: set<Fact>, d: set<Fact>, preds: set<Pred>,
      hashJoin: bool, host: Host)
    requires Faithful(host) && VarRule(r) && PremisesVars(r.premises) <= TermsVars(r.head.args)
    requires Split(s, d, preds) && Satisfies(Naming(r), r, f, host(s, d))
    requires y in r.premises && VarAtom(y) && Assigned(y.args, Naming(r)) && d == {AtomFact(y, Naming(r))}
    requires forall q ::
             q in r.premises && q.Atom? && q.pred in preds ==>
             exists x :: x in r.premises && x != y && ScannedIn(r.premises, {}, q.pred, x)
    ensures !Derives(r, f, host(s, {}))
    ensures forall j :: j in RuleDeltaJobs(r, r.premises, preds, hashJoin) ==> !JobDerives(j, f, host(s, d))
  {
    var m, n, sigma := host(s, d), host(s, {}), Naming(r);
    assert Shows(m, s, d) && Shows(n, s, {});
    NamingInjective(r);
    VarSatisfies(r, f, sigma, s, d, m);
    hide Satisfies, Covered, ScannedIn, Safe, Delayed, VarRule;
    if Derives(r, f, n) {
      var tau: Env :| Satisfies(tau, r, f, n);
      VarSatisfies(r, f, tau, s, {}, n);
      SameHeadAgrees(r, sigma, tau);
      SameFact(r, sigma, tau, y);
      assert false;
    }
    forall j | j in RuleDeltaJobs(r, r.premises, preds, hashJoin) ensures !JobDerives(j, f, m) {
      if JobDerives(j, f, m) {
        LostJob(r, f, y, s, d, preds, hashJoin, m, j);
        assert false;
      }
    }
  }

  /** A plan that scans a premise other than the one with the delta fact does not get through. */
  lemma {:induction false} ScanTakesOther(r: Rule, q: Pred, sigma: Env, tau: Env, x: Premise, y: Premise, d: set<Fact>,
      m: Machine)
    requires VarRule(r) && Injective(r, sigma) && x in r.premises && y in r.premises && x != y && VarAtom(x) &&
             VarAtom(y)
    requires Assigned(x.args, sigma) && Assigned(x.args, tau) && AtomFact(x, tau) == AtomFact(x, sigma)
    requires Assigned(y.args, sigma) && d == {AtomFact(y, sigma)} && ScannedIn(r.premises, {}, q, x)
    ensures !ScansTakeDelta(r.premises, {}, q, tau, d, m)
  {
    hide ScannedIn, ScansTakeDelta;
    FactsDiffer(r, sigma, x, y);
    if ScansTakeDelta(r.premises, {}, q, tau, d, m) {
      ScannedTakes(r.premises, {}, q, x, tau, d, m);
      VarUsesDelta(x, tau, {q}, d, m);
      assert false;
    }
  }

  lemma {:induction false} LostJob(r: Rule, f: Fact, y: Premise, s: set<Fact>, d: set<Fact>, preds: set<Pred>,
      hashJoin: bool, m: Machine, j: Job)
    requires VarRule(r) && PremisesVars(r.premises) <= TermsVars(r.head.args) && Shows(m, s, d) &&
             Satisfies(Naming(r), r, f, m)
    requires y in r.premises && VarAtom(y) && Assigned(y.args, Naming(r)) && d == {AtomFact(y, Naming(r))}
    requires forall q ::
             q in r.premises && q.Atom? && q.pred in preds ==>
             exists x :: x in r.premises && x != y && ScannedIn(r.premises, {}, q.pred, x)
    requires j in RuleDeltaJobs(r, r.premises, preds, hashJoin)
    ensures !JobDerives(j, f, m)
  {
    var sigma := Naming(r);
    hide ScansTakeDelta, ScannedIn, Satisfies, JobDerives, RuleDeltaJobs;
    NamingInjective(r);
    VarSatisfies(r, f, sigma, s, d, m);
    RuleDeltaJobsAre(r, r.premises, preds, hashJoin, j);
    if JobDerives(j, f, m) {
      var q :| q in r.premises && q.Atom? && q.pred in preds && j.cfg.delta == Some(q.pred);
      assert j == Job(r, Config(Some(q.pred), hashJoin));
      VarJob(r, f, q.pred, hashJoin, d, m);
      var tau :| Satisfies(tau, r, f, m) && ScansTakeDelta(r.premises, {}, q.pred, tau, d, m);
      VarSatisfies(r, f, tau, s, d, m);
      SameHeadAgrees(r, sigma, tau);
      SameFact(r, sigma, tau, y);
      var x :| x in r.premises && x != y && ScannedIn(r.premises, {}, q.pred, x);
      SameFact(r, sigma, tau, x);
      ScanTakesOther(r, q.pred, sigma, tau, x, y, d, m);
      assert false;
    }
  }
}
