/** Transitive closure by doubling: a rule with two premises of its own relation, whose rounds
    reach the least fixpoint although its delta plan misses assignments. */
module TransitiveClosure {
  import opened Datalog
  import opened Interp
  import opened Planner
  import opened RuleTheorem
  import opened SemiNaive
  import opened Evaluate
  import opened VarRules

  /** Two relations and three variables. */
  datatype Names = Names(p: Pred, e: Pred, x: Var, y: Var, z: Var) {
    predicate Valid() {
      p.Rel? && e.Rel? && p != e && x.User? && y.User? && z.User? && x != y && y != z && x != z
    }

    function X(): Term { VarTerm(x) }

    function Y(): Term { VarTerm(y) }

    function Z(): Term { VarTerm(z) }
  }

  /** `p(X, Y) :- e(X, Y).` */
  function EdgeRule(n: Names): Rule {
    Rule(Head(n.p, [n.X(), n.Y()]), [Atom(n.e, [n.X(), n.Y()])])
  }

  /** `p(X, Z) :- p(X, Y), p(Y, Z).` */
  function JoinRule(n: Names): Rule {
    Rule(Head(n.p, [n.X(), n.Z()]), [Atom(n.p, [n.X(), n.Y()]), Atom(n.p, [n.Y(), n.Z()])])
  }

  function Rules(n: Names): seq<Rule> {
    [EdgeRule(n), JoinRule(n)]
  }

  function Closure(n: Names): Stratum {
    Stratum({n.p}, Rules(n))
  }

  function Pair(n: Names, a: Value, b: Value): Fact {
    Fact(n.p, [a, b])
  }

  function Edge(n: Names, a: Value, b: Value): Fact {
    Fact(n.e, [a, b])
  }

  // ----- What the rules and their delta plan derive -----

  ghost predicate EdgeFrom(n: Names, all: set<Fact>, f: Fact) {
    exists a, b :: Edge(n, a, b) in all && f == Pair(n, a, b)
  }

  ghost predicate JoinFrom(n: Names, left: set<Fact>, all: set<Fact>, f: Fact) {
    exists a, b, c :: Pair(n, a, b) in left && Pair(n, b, c) in all && f == Pair(n, a, c)
  }

  lemma {:induction false} RulesAreVarRules(n: Names)
    requires n.Valid()
    ensures VarRule(EdgeRule(n)) && VarRule(JoinRule(n))
  {
    TwoVars(n.X(), n.Y());
    TwoVars(n.Y(), n.Z());
    TwoVars(n.X(), n.Z());
    hide TermsVars;
    var b := JoinRule(n).premises;
    LastPremise(EdgeRule(n).premises[0], b[0]);
    LastPremise(b[1], b[0]);
  }

  lemma {:induction false} EdgeSatisfies(n: Names, f: Fact, sigma: Env, s: set<Fact>, d: set<Fact>, m: Machine)
    requires n.Valid() && Shows(m, s, d)
    ensures Satisfies(sigma, EdgeRule(n), f, m) <==>
            n.x in sigma && n.y in sigma && Edge(n, sigma[n.x], sigma[n.y]) in s + d &&
            f == Pair(n, sigma[n.x], sigma[n.y])
  {
    var r := EdgeRule(n);
    RulesAreVarRules(n);
    hide Satisfies, Shows, VarRule, Values, Assigned;
    VarSatisfies(r, f, sigma, s, d, m);
    ValuesOf([n.X(), n.Y()], sigma);
    assert r.premises[0] in r.premises;
  }

  lemma {:induction false} JoinSatisfies(n: Names, f: Fact, sigma: Env, s: set<Fact>, d: set<Fact>, m: Machine)
    requires n.Valid() && Shows(m, s, d)
    ensures Satisfies(sigma, JoinRule(n), f, m) <==>
            && n.x in sigma && n.y in sigma && n.z in sigma && Pair(n, sigma[n.x], sigma[n.y]) in s + d
            && Pair(n, sigma[n.y], sigma[n.z]) in s + d && f == Pair(n, sigma[n.x], sigma[n.z])
  {
    var r := JoinRule(n);
    RulesAreVarRules(n);
    hide Satisfies, Shows, VarRule, Values, Assigned;
    VarSatisfies(r, f, sigma, s, d, m);
    ValuesOf([n.X(), n.Y()], sigma);
    ValuesOf([n.Y(), n.Z()], sigma);
    ValuesOf([n.X(), n.Z()], sigma);
    assert r.premises[0] in r.premises && r.premises[1] in r.premises;
  }

  lemma {:induction false} FollowsMeans(n: Names, f: Fact, facts: set<Fact>, host: Host)
    requires n.Valid() && Faithful(host)
    ensures Follows(Rules(n), f, facts, host) <==> EdgeFrom(n, facts, f) || JoinFrom(n, facts, facts, f)
  {
    var m := host(facts, {});
    assert Shows(m, facts, {}) && facts + {} == facts;
    hide Shows, Satisfies, Faithful;
    assert Rules(n)[0] in Rules(n) && Rules(n)[1] in Rules(n);
    if sigma: Env :| Satisfies(sigma, EdgeRule(n), f, m) { EdgeSatisfies(n, f, sigma, facts, {}, m); }
    if sigma: Env :| Satisfies(sigma, JoinRule(n), f, m) { JoinSatisfies(n, f, sigma, facts, {}, m); }
    if a, b :| Edge(n, a, b) in facts && f == Pair(n, a, b) {
      EdgeSatisfies(n, f, map[n.x := a, n.y := b], facts, {}, m);
      assert Derives(EdgeRule(n), f, m);
    }
    if a, b, c :| Pair(n, a, b) in facts && Pair(n, b, c) in facts && f == Pair(n, a, c) {
      JoinSatisfies(n, f, map[n.x := a, n.y := b, n.z := c], facts, {}, m);
      assert Derives(JoinRule(n), f, m);
    }
  }

  /** The first premise scans the delta; the second is looked up in everything. */
  lemma {:induction false} JoinScans(n: Names, sigma: Env, d: set<Fact>, m: Machine)
    requires n.Valid()
    ensures ScansTakeDelta(JoinRule(n).premises, {}, n.p, sigma, d, m) <==>
            n.x in sigma && n.y in sigma && Pair(n, sigma[n.x], sigma[n.y]) in d
  {
    var ps, args := JoinRule(n).premises, [n.X(), n.Y()];
    var b := BoundAfter(ps[0], {});
    assert ps[1..] == [ps[1]] && [ps[1]][1..] == [];
    OneVar(n.Y());
    assert args[1..] == [n.Y()] && DirectVars(args) == {n.x} + DirectVars(args[1..]);
    assert n.y in b;
    assert ScansTakeDelta([], BoundAfter(ps[1], b), n.p, sigma, d, m) && ScansTakeDelta([ps[1]], b, n.p, sigma, d, m);
    assert VarAtom(ps[0]);
    VarUsesDelta(ps[0], sigma, {n.p}, d, m);
    ValuesOf(args, sigma);
  }

  lemma {:induction false} JoinJob(n: Names, f: Fact, hashJoin: bool, s: set<Fact>, d: set<Fact>, m: Machine)
    requires n.Valid() && Shows(m, s, d)
    ensures JobDerives(Job(JoinRule(n), Config(Some(n.p), hashJoin)), f, m) <==> JoinFrom(n, d, s + d, f)
  {
    var r := JoinRule(n);
    RulesAreVarRules(n);
    VarJob(r, f, n.p, hashJoin, d, m);
    hide Satisfies, VarRule, ScansTakeDelta, JobDerives, Shows, JoinRule;
    if sigma: Env :| Satisfies(sigma, r, f, m) && ScansTakeDelta(r.premises, {}, n.p, sigma, d, m) {
      JoinSatisfies(n, f, sigma, s, d, m);
      JoinScans(n, sigma, d, m);
    }
    if a, b, c :| Pair(n, a, b) in d && Pair(n, b, c) in s + d && f == Pair(n, a, c) {
      var sigma: Env := map[n.x := a, n.y := b, n.z := c];
      JoinSatisfies(n, f, sigma, s, d, m);
      JoinScans(n, sigma, d, m);
    }
  }

  lemma {:induction false} JobsAre(n: Names, hashJoin: bool, j: Job)
    requires n.Valid()
    ensures j in DeltaJobs(Rules(n), {n.p}, hashJoin) <==> j == Job(JoinRule(n), Config(Some(n.p), hashJoin))
  {
    DeltaJobsAre(Rules(n), {n.p}, hashJoin, j);
    var rs := Rules(n);
    assert rs[0] in rs && rs[1] in rs;
    forall r | r in rs
      ensures j in RuleDeltaJobs(r, r.premises, {n.p}, hashJoin) <==>
              j == Job(r, Config(Some(n.p), hashJoin)) && r == JoinRule(n)
    {
      RuleDeltaJobsAre(r, r.premises, {n.p}, hashJoin, j);
      assert r.premises[0] in r.premises;
    }
  }

  lemma {:induction false} Analysed(n: Names, hashJoin: bool)
    requires n.Valid()
    ensures Prepared(Rules(n), {n.p}, hashJoin) && AllPlannable(Closure(n)) && Recursive(Closure(n))
  {
    RulesAreVarRules(n);
    forall r | r in Rules(n)
      ensures InStratum(r, {n.p}) && Safe(r) && RelationJoins(r, Config(None, hashJoin)) && Plannable(r)
    {
      VarRuleAnalysed(r, Config(None, hashJoin));
      VarRulePlannable(r);
    }
    var r := JoinRule(n);
    assert Rules(n)[1] == r && r in Rules(n) && r.premises[0] in r.premises;
  }

  /** One delta round. */
  lemma {:induction false} RoundFacts(n: Names, hashJoin: bool, st: Store, host: Host, f: Fact)
    requires n.Valid() && Faithful(host) && PlanJobs(DeltaJobs(Rules(n), {n.p}, hashJoin)).Ok?
    requires PassFacts(PlanJobs(DeltaJobs(Rules(n), {n.p}, hashJoin)).value, host(st.stable, st.delta)).Ok?
    ensures f in PassFacts(PlanJobs(DeltaJobs(Rules(n), {n.p}, hashJoin)).value, host(st.stable, st.delta)).value <==>
            JoinFrom(n, st.delta, st.stable + st.delta, f)
  {
    var m := host(st.stable, st.delta);
    assert Shows(m, st.stable, st.delta);
    hide PassFacts, PlanJobs, JobDerives, JoinFrom, Prepared, AllPlannable, Rules, Faithful, Shows, DeltaJobs, JoinRule;
    Analysed(n, hashJoin);
    DeltaPassSound(Closure(n), hashJoin, st, host);
    JoinJob(n, f, hashJoin, st.stable, st.delta, m);
    forall j ensures j in DeltaJobs(Rules(n), {n.p}, hashJoin) <==> j == Job(JoinRule(n), Config(Some(n.p), hashJoin)) {
      JobsAre(n, hashJoin, j);
    }
  }

  // ----- What the rounds reach -----

  /** One step of the relation from the start: a given pair or an edge. */
  predicate Start(n: Names, base: set<Fact>, a: Value, b: Value) {
    Pair(n, a, b) in base || Edge(n, a, b) in base
  }

  /** Every pair that is not given has been extended by every step, once it is stable. */
  ghost predicate Extended(n: Names, st: Store, base: set<Fact>) {
    && (forall a, b :: Start(n, base, a, b) ==> Pair(n, a, b) in st.Visible())
    && (forall a, b, c :: Pair(n, a, b) in base && Pair(n, b, c) in base ==> Pair(n, a, c) in st.Visible())
    && (forall a, b, c ::
        Pair(n, a, b) in st.stable && Pair(n, a, b) !in base && Start(n, base, b, c) ==> Pair(n, a, c) in st.Visible())
  }

  lemma {:induction false} ExtendedAfter(n: Names, st: Store, base: set<Fact>, out: set<Fact>)
    requires Extended(n, st, base) && st.next == {} && forall f :: JoinFrom(n, st.delta, st.Visible(), f) ==> f in out
    ensures Extended(n, Advance(st, out), base)
  {
    var next := Advance(st, out);
    assert next.stable == st.Visible() && next.Visible() == st.Visible() + out;
    forall a, b, c | Pair(n, a, b) in next.stable && Pair(n, a, b) !in base && Start(n, base, b, c)
      ensures Pair(n, a, c) in next.Visible()
    {
      if Pair(n, a, b) in st.delta {
        assert JoinFrom(n, st.delta, st.Visible(), Pair(n, a, c));
      }
    }
  }

  /** The rounds end with every pair extended by every step, except perhaps the given ones. */
  lemma {:induction false} RoundsExtend(n: Names, hashJoin: bool, st: Store, base: set<Fact>, host: Host, rounds: nat)
    requires n.Valid() && Faithful(host) && PlanJobs(DeltaJobs(Rules(n), {n.p}, hashJoin)).Ok? &&
             Extended(n, st, base) && st.next == {}
    ensures var e := RoundsOf(PlanJobs(DeltaJobs(Rules(n), {n.p}, hashJoin)).value, st, host, rounds);
            e.Done? ==> Extended(n, e.store, base) && e.store.delta == {}
    decreases rounds
  {
    hide PlanJobs, DeltaJobs, PassFacts, Extended, Rules, Faithful, JoinFrom;
    var ops := PlanJobs(DeltaJobs(Rules(n), {n.p}, hashJoin)).value;
    if rounds > 0 && PassFacts(ops, host(st.stable, st.delta)).Ok? {
      var out := PassFacts(ops, host(st.stable, st.delta)).value;
      forall f ensures JoinFrom(n, st.delta, st.Visible(), f) ==> f in out { RoundFacts(n, hashJoin, st, host, f); }
      ExtendedAfter(n, st, base, out);
      if out <= st.Visible() {
        assert {} + (out - st.Visible()) == {};
      } else {
        RoundsExtend(n, hashJoin, Advance(st, out), base, host, rounds - 1);
      }
    }
  }

  /** The first pass and the merge: the steps are in, and so are the pairs of given pairs. */
  lemma {:induction false} FirstExtends(n: Names, hashJoin: bool, st: Store, host: Host)
    requires n.Valid() && Faithful(host) && st.next == {} && PlanJobs(FullJobs(Rules(n), hashJoin)).Ok?
    requires PassFacts(PlanJobs(FullJobs(Rules(n), hashJoin)).value, host(st.stable, st.delta)).Ok?
    ensures Extended(n,
                     Advance(st,
                             PassFacts(PlanJobs(FullJobs(Rules(n), hashJoin)).value, host(st.stable, st.delta)).value),
                             st.Visible())
  {
    Analysed(n, hashJoin);
    hide PassFacts, PlanJobs, FullJobs, Follows, Prepared, AllPlannable, EdgeFrom, JoinFrom, Rules, Recursive, Faithful;
    FullPassFacts(Closure(n), hashJoin, st, host);
    var base, out := st.Visible(),
                     PassFacts(PlanJobs(FullJobs(Rules(n), hashJoin)).value, host(st.stable, st.delta)).value;
    forall f
      ensures f in out <==> EdgeFrom(n, base, f) || JoinFrom(n, base, base, f) { FollowsMeans(n, f, base, host); }
    FirstSteps(n, st, out);
  }

  lemma {:induction false} FirstSteps(n: Names, st: Store, out: set<Fact>)
    requires st.next == {} &&
             forall f :: f in out <==> EdgeFrom(n, st.Visible(), f) || JoinFrom(n, st.Visible(), st.Visible(), f)
    ensures Extended(n, Advance(st, out), st.Visible())
  {
    var base, next := st.Visible(), Advance(st, out);
    assert next.stable == base && next.Visible() == base + out;
    forall a, b | Start(n, base, a, b) ensures Pair(n, a, b) in next.Visible() {
      if Edge(n, a, b) in base { assert EdgeFrom(n, base, Pair(n, a, b)); }
    }
    forall a, b, c | Pair(n, a, b) in base && Pair(n, b, c) in base ensures Pair(n, a, c) in next.Visible() {
      assert JoinFrom(n, base, base, Pair(n, a, c));
    }
  }

  // ----- When that is the least fixpoint -----

  /** Every given pair followed by an edge is in the set. */
  ghost predicate GivenExtended(n: Names, facts: set<Fact>, base: set<Fact>) {
    forall a, b, c :: Pair(n, a, b) in base && Edge(n, b, c) in base ==> Pair(n, a, c) in facts
  }

  /** The pairs by which every pair of the set can be extended. */
  ghost function Extenders(n: Names, facts: set<Fact>): set<Fact> {
    set f | f in facts && forall a, b, c :: f == Pair(n, b, c) && Pair(n, a, b) in facts ==> Pair(n, a, c) in facts
  }

  lemma {:induction false} ExtendersClosed(n: Names, facts: set<Fact>, base: set<Fact>, host: Host)
    requires n.Valid() && Faithful(host) && Extension(base, facts, {n.p})
    requires forall a, b, c :: Pair(n, a, b) in facts && Start(n, base, b, c) ==> Pair(n, a, c) in facts
    requires forall a, b :: Start(n, base, a, b) ==> Pair(n, a, b) in facts
    ensures Extension(base, Extenders(n, facts), {n.p}) && ClosedUnder(Extenders(n, facts), Rules(n), host)
  {
    var ex := Extenders(n, facts);
    forall f | f in base ensures f in ex {
      forall a, b, c | f == Pair(n, b, c) && Pair(n, a, b) in facts
        ensures Pair(n, a, c) in facts { assert Start(n, base, b, c); }
    }
    hide Follows, Faithful, Rules;
    forall f | Follows(Rules(n), f, ex, host) ensures f in ex {
      FollowsMeans(n, f, ex, host);
      if EdgeFrom(n, ex, f) {
        var b, c :| Edge(n, b, c) in ex && f == Pair(n, b, c);
        assert Edge(n, b, c) in base;
        assert Start(n, base, b, c);
      } else {
        var a, b, c :| Pair(n, a, b) in ex && Pair(n, b, c) in ex && f == Pair(n, a, c);
        ExtendersJoin(n, facts, a, b, c);
      }
    }
  }

  lemma {:induction false} ExtendersJoin(n: Names, facts: set<Fact>, a: Value, b: Value, c: Value)
    requires Pair(n, a, b) in Extenders(n, facts) && Pair(n, b, c) in Extenders(n, facts)
    ensures Pair(n, a, c) in Extenders(n, facts)
  {
    assert Pair(n, a, b) in facts && Pair(n, a, c) in facts;
    forall w, u, v | Pair(n, a, c) == Pair(n, u, v) && Pair(n, w, u) in facts ensures Pair(n, w, v) in facts {
      assert [a, c][0] == [u, v][0] && [a, c][1] == [u, v][1];
      assert Pair(n, w, b) in facts;
    }
  }

  /** A set within every closed extension in which every pair is extended by every step is
      the least one. */
  lemma {:induction false} ExtendedIsLeast(n: Names, facts: set<Fact>, base: set<Fact>, host: Host)
    requires n.Valid() && Faithful(host) && Extension(base, facts, {n.p}) && Minimal(facts, base, Rules(n), {n.p}, host)
    requires forall a, b, c :: Pair(n, a, b) in facts && Start(n, base, b, c) ==> Pair(n, a, c) in facts
    requires forall a, b :: Start(n, base, a, b) ==> Pair(n, a, b) in facts
    ensures IsLeast(facts, base, Rules(n), {n.p}, host)
  {
    ExtendersClosed(n, facts, base, host);
    assert facts <= Extenders(n, facts);
    assert Extenders(n, facts) == facts;
  }

  /** The evaluation of transitive closure by doubling is exact if and only if every given
      pair followed by an edge is in the result. */
  lemma {:induction false} ClosureExactIff(n: Names, hashJoin: bool, st: Store, host: Host, rounds: nat)
    requires n.Valid() && Faithful(host) && st.next == {} && StratumOf(Closure(n), hashJoin, st, host, rounds).Done?
    ensures var facts := StratumOf(Closure(n), hashJoin, st, host, rounds).store.Visible();
            IsLeast(facts, st.Visible(), Rules(n), {n.p}, host) <==> GivenExtended(n, facts, st.Visible())
  {
    var e, base := StratumOf(Closure(n), hashJoin, st, host, rounds), st.Visible();
    StratumExtends(n, hashJoin, st, host, rounds);
    Analysed(n, hashJoin);
    StratumSound(Closure(n), hashJoin, st, host, rounds);
    hide StratumOf, Prepared, Faithful, AllPlannable, Recursive, Rules, Grounded;
    var facts := e.store.Visible();
    if GivenExtended(n, facts, base) {
      ExtendedIsLeast(n, facts, base, host);
    }
    if IsLeast(facts, base, Rules(n), {n.p}, host) { LeastExtends(n, facts, base, host); }
  }

  lemma {:induction false} LeastExtends(n: Names, facts: set<Fact>, base: set<Fact>, host: Host)
    requires n.Valid() && Faithful(host) && base <= facts && ClosedUnder(facts, Rules(n), host)
    ensures GivenExtended(n, facts, base)
  {
    hide Follows, Faithful, Rules;
    forall a, b, c | Pair(n, a, b) in base && Edge(n, b, c) in base ensures Pair(n, a, c) in facts {
      assert EdgeFrom(n, facts, Pair(n, b, c));
      FollowsMeans(n, Pair(n, b, c), facts, host);
      assert JoinFrom(n, facts, facts, Pair(n, a, c));
      FollowsMeans(n, Pair(n, a, c), facts, host);
    }
  }

  lemma {:induction false} StratumExtends(n: Names, hashJoin: bool, st: Store, host: Host, rounds: nat)
    requires n.Valid() && Faithful(host) && st.next == {} && StratumOf(Closure(n), hashJoin, st, host, rounds).Done?
    ensures var e := StratumOf(Closure(n), hashJoin, st, host, rounds);
                     Extended(n, e.store, st.Visible()) && e.store.delta == {}
  {
    Analysed(n, hashJoin);
    hide PlanJobs, FullJobs, DeltaJobs, PassFacts, RoundsOf, Prepared, Faithful, AllPlannable, Recursive, Rules,
      Extended;
    var initial := PlanJobs(FullJobs(Rules(n), hashJoin));
    var out := PassFacts(initial.value, host(st.stable, st.delta)).value;
    FirstExtends(n, hashJoin, st, host);
    RoundsExtend(n, hashJoin, Advance(st, out), st.Visible(), host, rounds);
  }

  /** When no pair is given the rounds reach the least fixpoint, although the rule fails the
      condition under which each single round misses nothing. */
  lemma {:induction false} ClosureComplete(n: Names, hashJoin: bool, st: Store, host: Host, rounds: nat)
    requires n.Valid() && Faithful(host) && st.next == {} && StratumOf(Closure(n), hashJoin, st, host, rounds).Done?
    requires forall a, b :: Pair(n, a, b) !in st.Visible()
    ensures IsLeast(StratumOf(Closure(n), hashJoin, st, host, rounds).store.Visible(), st.Visible(), Rules(n), {n.p},
                    host)
    ensures !DeltaComplete(JoinRule(n), {n.p})
  {
    hide StratumOf, IsLeast, Faithful, DeltaComplete;
    ClosureExactIff(n, hashJoin, st, host, rounds);
    JoinRuleIncomplete(n);
  }

  lemma {:induction false} JoinRuleIncomplete(n: Names)
    requires n.Valid()
    ensures !DeltaComplete(JoinRule(n), {n.p})
  {
    var ps, args := JoinRule(n).premises, [n.X(), n.Y()];
    RulesAreVarRules(n);
    VarRuleAnalysed(JoinRule(n), Config(None, false));
    assert ps[0] in ps && ps[1] in ps && ps[0].args[0] != ps[1].args[0];
    assert !OccursOnce(ps, n.p);
    assert DeltaScanned(ps[0], {}, n.p);
  }
}
