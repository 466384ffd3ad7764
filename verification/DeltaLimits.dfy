/** A stratum whose rounds stop too early: a rule with two premises of its own relation. */
module DeltaLimits {
  import opened Datalog
  import opened Interp
  import opened Planner
  import opened RuleTheorem
  import opened SemiNaive
  import opened Evaluate
  import opened VarRules

  /** Any four relations, three variables and three values will do. */
  datatype Names = Names(p: Pred, g: Pred, s: Pred, f: Pred, x: Var, y: Var, z: Var, a: Value, b: Value, c: Value) {
    predicate Valid() {
      && p.Rel? && g.Rel? && s.Rel? && f.Rel? && p != g && p != s && p != f && g != s && g != f && s != f
      && x.User? && y.User? && z.User? && x != y && y != z && x != z
      && a != b && b != c && a != c
    }

    function X(): Term { VarTerm(x) }

    function Y(): Term { VarTerm(y) }

    function Z(): Term { VarTerm(z) }
  }

  /** `p(X) :- g(X).` */
  function SeedRule(n: Names): Rule {
    Rule(Head(n.p, [n.X()]), [Atom(n.g, [n.X()])])
  }

  /** `p(Y) :- p(X), s(X, Y).` */
  function StepRule(n: Names): Rule {
    Rule(Head(n.p, [n.Y()]), [Atom(n.p, [n.X()]), Atom(n.s, [n.X(), n.Y()])])
  }

  /** `p(Z) :- p(X), p(Y), f(X, Y, Z).` */
  function PairRule(n: Names): Rule {
    Rule(Head(n.p, [n.Z()]), [Atom(n.p, [n.X()]), Atom(n.p, [n.Y()]), Atom(n.f, [n.X(), n.Y(), n.Z()])])
  }

  function Rules(n: Names): seq<Rule> {
    [SeedRule(n), StepRule(n), PairRule(n)]
  }

  function Program(n: Names): Stratum {
    Stratum({n.p}, Rules(n))
  }

  function Unary(n: Names, x: Value): Fact {
    Fact(n.p, [x])
  }

  // ----- What the rules derive -----

  ghost predicate SeedFrom(n: Names, all: set<Fact>, f: Fact) {
    exists x :: Fact(n.g, [x]) in all && f == Unary(n, x)
  }

  ghost predicate StepFrom(n: Names, from: set<Fact>, all: set<Fact>, f: Fact) {
    exists x, y :: Unary(n, x) in from && Fact(n.s, [x, y]) in all && f == Unary(n, y)
  }

  ghost predicate PairFrom(n: Names, from: set<Fact>, all: set<Fact>, f: Fact) {
    exists x, y, z :: Unary(n, x) in from && Unary(n, y) in from && Fact(n.f, [x, y, z]) in all && f == Unary(n, z)
  }

  lemma {:induction false} RulesAreVarRules(n: Names)
    requires n.Valid()
    ensures VarRule(SeedRule(n)) && VarRule(StepRule(n)) && VarRule(PairRule(n))
  {
    OneVar(n.X());
    OneVar(n.Y());
    OneVar(n.Z());
    TwoVars(n.X(), n.Y());
    ThreeVars(n.X(), n.Y(), n.Z());
    hide TermsVars;
    var b, c := StepRule(n).premises, PairRule(n).premises;
    LastPremise(SeedRule(n).premises[0], b[0]);
    LastPremise(b[1], b[0]);
    LastPremise(c[2], c[1]);
    assert c[1..] == [c[1], c[2]] && PremisesVars(c) == PremiseVars(c[0]) + PremisesVars(c[1..]);
  }

  lemma {:induction false} SeedSatisfies(n: Names, f: Fact, sigma: Env, s: set<Fact>, d: set<Fact>, m: Machine)
    requires n.Valid() && Shows(m, s, d)
    ensures Satisfies(sigma, SeedRule(n), f, m) <==>
            n.x in sigma && Fact(n.g, [sigma[n.x]]) in s + d && f == Unary(n, sigma[n.x])
  {
    var r := SeedRule(n);
    RulesAreVarRules(n);
    hide Satisfies, Shows, VarRule, Values, Assigned;
    VarSatisfies(r, f, sigma, s, d, m);
    ValuesOf([n.X()], sigma);
    assert r.premises[0] in r.premises;
  }

  lemma {:induction false} StepSatisfies(n: Names, f: Fact, sigma: Env, s: set<Fact>, d: set<Fact>, m: Machine)
    requires n.Valid() && Shows(m, s, d)
    ensures Satisfies(sigma, StepRule(n), f, m) <==>
            n.x in sigma && n.y in sigma && Unary(n, sigma[n.x]) in s + d &&
            Fact(n.s, [sigma[n.x], sigma[n.y]]) in s + d && f == Unary(n, sigma[n.y])
  {
    var r := StepRule(n);
    RulesAreVarRules(n);
    hide Satisfies, Shows, VarRule, Values, Assigned;
    VarSatisfies(r, f, sigma, s, d, m);
    ValuesOf([n.X()], sigma);
    ValuesOf([n.Y()], sigma);
    ValuesOf([n.X(), n.Y()], sigma);
    assert r.premises[0] in r.premises && r.premises[1] in r.premises;
  }

  lemma {:induction false} PairSatisfies(n: Names, f: Fact, sigma: Env, s: set<Fact>, d: set<Fact>, m: Machine)
    requires n.Valid() && Shows(m, s, d)
    ensures Satisfies(sigma, PairRule(n), f, m) <==>
            && n.x in sigma && n.y in sigma && n.z in sigma && Unary(n, sigma[n.x]) in s + d &&
               Unary(n, sigma[n.y]) in s + d
            && Fact(n.f, [sigma[n.x], sigma[n.y], sigma[n.z]]) in s + d && f == Unary(n, sigma[n.z])
  {
    var r := PairRule(n);
    RulesAreVarRules(n);
    hide Satisfies, Shows, VarRule, Values, Assigned;
    VarSatisfies(r, f, sigma, s, d, m);
    ValuesOf([n.X()], sigma);
    ValuesOf([n.Y()], sigma);
    ValuesOf([n.Z()], sigma);
    ValuesOf([n.X(), n.Y(), n.Z()], sigma);
    assert r.premises[0] in r.premises && r.premises[1] in r.premises && r.premises[2] in r.premises;
  }

  lemma {:induction false} SeedDerives(n: Names, f: Fact, s: set<Fact>, d: set<Fact>, m: Machine)
    requires n.Valid() && Shows(m, s, d)
    ensures Derives(SeedRule(n), f, m) <==> SeedFrom(n, s + d, f)
  {
    hide Satisfies, Shows;
    if sigma: Env :| Satisfies(sigma, SeedRule(n), f, m) { SeedSatisfies(n, f, sigma, s, d, m); }
    if x :| Fact(n.g, [x]) in s + d && f == Unary(n, x) { SeedSatisfies(n, f, map[n.x := x], s, d, m); }
  }

  lemma {:induction false} StepDerives(n: Names, f: Fact, s: set<Fact>, d: set<Fact>, m: Machine)
    requires n.Valid() && Shows(m, s, d)
    ensures Derives(StepRule(n), f, m) <==> StepFrom(n, s + d, s + d, f)
  {
    hide Satisfies, Shows;
    if sigma: Env :| Satisfies(sigma, StepRule(n), f, m) { StepSatisfies(n, f, sigma, s, d, m); }
    if x, y :| Unary(n, x) in s + d && Fact(n.s, [x, y]) in s + d && f == Unary(n, y) {
      StepSatisfies(n, f, map[n.x := x, n.y := y], s, d, m);
    }
  }

  lemma {:induction false} PairDerives(n: Names, f: Fact, s: set<Fact>, d: set<Fact>, m: Machine)
    requires n.Valid() && Shows(m, s, d)
    ensures Derives(PairRule(n), f, m) <==> PairFrom(n, s + d, s + d, f)
  {
    hide Satisfies, Shows;
    if sigma: Env :| Satisfies(sigma, PairRule(n), f, m) { PairSatisfies(n, f, sigma, s, d, m); }
    if x, y, z :| Unary(n, x) in s + d && Unary(n, y) in s + d && Fact(n.f, [x, y, z]) in s + d && f == Unary(n, z) {
      PairSatisfies(n, f, map[n.x := x, n.y := y, n.z := z], s, d, m);
    }
  }

  // ----- What their delta plans derive -----

  lemma {:induction false} UnaryScanned(n: Names, t: Term, bound: set<Var>, sigma: Env, d: set<Fact>, m: Machine)
    requires n.Valid() && t.VarTerm? && t.v.User? && t.v !in bound
    ensures DeltaScanned(Atom(n.p, [t]), bound, n.p)
    ensures UsesDelta(Atom(n.p, [t]), sigma, {n.p}, d, m) <==> t.v in sigma && Unary(n, sigma[t.v]) in d
  {
    VarUsesDelta(Atom(n.p, [t]), sigma, {n.p}, d, m);
    ValuesOf([t], sigma);
  }

  lemma {:induction false} OtherUnscanned(p: Premise, bound: set<Var>, q: Pred, sigma: Env, d: set<Fact>, m: Machine)
    requires p.Atom? && p.pred != q
    ensures ScansTakeDelta([p], bound, q, sigma, d, m)
  {
    assert [p][1..] == [];
  }

  lemma {:induction false} StepScans(n: Names, sigma: Env, d: set<Fact>, m: Machine)
    requires n.Valid()
    ensures ScansTakeDelta(StepRule(n).premises, {}, n.p, sigma, d, m) <==> n.x in sigma && Unary(n, sigma[n.x]) in d
  {
    var ps := StepRule(n).premises;
    assert ps[1..] == [ps[1]];
    OtherUnscanned(ps[1], BoundAfter(ps[0], {}), n.p, sigma, d, m);
    UnaryScanned(n, n.X(), {}, sigma, d, m);
  }

  lemma {:induction false} PairScans(n: Names, sigma: Env, d: set<Fact>, m: Machine)
    requires n.Valid()
    ensures ScansTakeDelta(PairRule(n).premises, {}, n.p, sigma, d, m) <==>
            n.x in sigma && Unary(n, sigma[n.x]) in d && n.y in sigma && Unary(n, sigma[n.y]) in d
  {
    var ps := PairRule(n).premises;
    OneVar(n.X());
    var b := BoundAfter(ps[0], {});
    assert ps[1..] == [ps[1], ps[2]] && ps[1..][1..] == [ps[2]];
    OtherUnscanned(ps[2], BoundAfter(ps[1], b), n.p, sigma, d, m);
    UnaryScanned(n, n.Y(), b, sigma, d, m);
    UnaryScanned(n, n.X(), {}, sigma, d, m);
  }

  lemma {:induction false} StepJob(n: Names, f: Fact, hashJoin: bool, s: set<Fact>, d: set<Fact>, m: Machine)
    requires n.Valid() && Shows(m, s, d)
    ensures JobDerives(Job(StepRule(n), Config(Some(n.p), hashJoin)), f, m) <==> StepFrom(n, d, s + d, f)
  {
    var r := StepRule(n);
    RulesAreVarRules(n);
    VarJob(r, f, n.p, hashJoin, d, m);
    hide Satisfies, VarRule, ScansTakeDelta, JobDerives, Shows, StepRule;
    if sigma: Env :| Satisfies(sigma, r, f, m) && ScansTakeDelta(r.premises, {}, n.p, sigma, d, m) {
      StepSatisfies(n, f, sigma, s, d, m);
      StepScans(n, sigma, d, m);
    }
    if x, y :| Unary(n, x) in d && Fact(n.s, [x, y]) in s + d && f == Unary(n, y) {
      var sigma: Env := map[n.x := x, n.y := y];
      StepSatisfies(n, f, sigma, s, d, m);
      StepScans(n, sigma, d, m);
    }
  }

  lemma {:induction false} PairJob(n: Names, f: Fact, hashJoin: bool, s: set<Fact>, d: set<Fact>, m: Machine)
    requires n.Valid() && Shows(m, s, d)
    ensures JobDerives(Job(PairRule(n), Config(Some(n.p), hashJoin)), f, m) <==> PairFrom(n, d, s + d, f)
  {
    var r := PairRule(n);
    RulesAreVarRules(n);
    VarJob(r, f, n.p, hashJoin, d, m);
    hide Satisfies, VarRule, ScansTakeDelta, JobDerives, Shows, PairRule;
    if sigma: Env :| Satisfies(sigma, r, f, m) && ScansTakeDelta(r.premises, {}, n.p, sigma, d, m) {
      PairSatisfies(n, f, sigma, s, d, m);
      PairScans(n, sigma, d, m);
    }
    if x, y, z :| Unary(n, x) in d && Unary(n, y) in d && Fact(n.f, [x, y, z]) in s + d && f == Unary(n, z) {
      var sigma: Env := map[n.x := x, n.y := y, n.z := z];
      PairSatisfies(n, f, sigma, s, d, m);
      PairScans(n, sigma, d, m);
    }
  }

  // ----- The passes of the run -----

  function Base(n: Names): set<Fact> {
    {Fact(n.g, [n.a]), Fact(n.s, [n.a, n.b]), Fact(n.f, [n.a, n.b, n.c])}
  }

  lemma {:induction false} FollowsMeans(n: Names, f: Fact, facts: set<Fact>, host: Host)
    requires n.Valid() && Faithful(host)
    ensures Follows(Rules(n), f, facts, host) <==>
            SeedFrom(n, facts, f) || StepFrom(n, facts, facts, f) || PairFrom(n, facts, facts, f)
  {
    var m := host(facts, {});
    assert Shows(m, facts, {}) && facts + {} == facts;
    SeedDerives(n, f, facts, {}, m);
    StepDerives(n, f, facts, {}, m);
    PairDerives(n, f, facts, {}, m);
    hide Derives;
    assert Rules(n)[0] in Rules(n) && Rules(n)[1] in Rules(n) && Rules(n)[2] in Rules(n);
  }

  lemma {:induction false} DeltaMeans(n: Names, f: Fact, hashJoin: bool, s: set<Fact>, d: set<Fact>, m: Machine)
    requires n.Valid() && Shows(m, s, d)
    ensures (exists j :: j in DeltaJobs(Rules(n), {n.p}, hashJoin) && JobDerives(j, f, m)) <==>
            StepFrom(n, d, s + d, f) || PairFrom(n, d, s + d, f)
  {
    StepJob(n, f, hashJoin, s, d, m);
    PairJob(n, f, hashJoin, s, d, m);
    var a, b := Job(StepRule(n), Config(Some(n.p), hashJoin)), Job(PairRule(n), Config(Some(n.p), hashJoin));
    hide JobDerives, StepFrom, PairFrom;
    forall j ensures j in DeltaJobs(Rules(n), {n.p}, hashJoin) <==> j == a || j == b { JobsAre(n, hashJoin, j); }
  }

  lemma {:induction false} JobsAre(n: Names, hashJoin: bool, j: Job)
    requires n.Valid()
    ensures j in DeltaJobs(Rules(n), {n.p}, hashJoin) <==>
            j == Job(StepRule(n), Config(Some(n.p), hashJoin)) || j == Job(PairRule(n), Config(Some(n.p), hashJoin))
  {
    DeltaJobsAre(Rules(n), {n.p}, hashJoin, j);
    var rs := Rules(n);
    assert rs[1] in rs && rs[2] in rs;
    forall r | r in rs
      ensures j in RuleDeltaJobs(r, r.premises, {n.p}, hashJoin) <==>
              j == Job(r, Config(Some(n.p), hashJoin)) && r != SeedRule(n)
    {
      RuleDeltaJobsAre(r, r.premises, {n.p}, hashJoin, j);
      assert r.premises[0] in r.premises;
      if r != SeedRule(n) { assert r.premises[0] == Atom(n.p, [n.X()]); }
    }
  }

  lemma {:induction false} Analysed(n: Names, hashJoin: bool)
    requires n.Valid()
    ensures Prepared(Rules(n), {n.p}, hashJoin) && AllPlannable(Program(n)) && Recursive(Program(n))
  {
    RulesAreVarRules(n);
    forall r | r in Rules(n)
      ensures InStratum(r, {n.p}) && Safe(r) && RelationJoins(r, Config(None, hashJoin)) && Plannable(r)
    {
      VarRuleAnalysed(r, Config(None, hashJoin));
      VarRulePlannable(r);
    }
    var r := StepRule(n);
    assert Rules(n)[1] == r && r in Rules(n) && r.premises[0] in r.premises;
  }

  lemma {:induction false} FromBase(n: Names, f: Fact)
    requires n.Valid()
    ensures SeedFrom(n, Base(n), f) || StepFrom(n, Base(n), Base(n), f) || PairFrom(n, Base(n), Base(n), f) <==>
            f == Unary(n, n.a)
  {
    if f == Unary(n, n.a) { assert Fact(n.g, [n.a]) in Base(n); }
  }

  lemma {:induction false} FromOne(n: Names, f: Fact)
    requires n.Valid()
    ensures StepFrom(n, {Unary(n, n.a)}, Base(n) + {Unary(n, n.a)}, f) ||
            PairFrom(n, {Unary(n, n.a)}, Base(n) + {Unary(n, n.a)}, f) <==>
            f == Unary(n, n.b)
  {
    if f == Unary(n, n.b) { assert Unary(n, n.a) in {Unary(n, n.a)} &&
                            Fact(n.s, [n.a, n.b]) in Base(n) + {Unary(n, n.a)}; }
  }

  lemma {:induction false} FromTwo(n: Names, f: Fact)
    requires n.Valid()
    ensures !StepFrom(n, {Unary(n, n.b)}, Base(n) + {Unary(n, n.a)} + {Unary(n, n.b)}, f) &&
            !PairFrom(n, {Unary(n, n.b)}, Base(n) + {Unary(n, n.a)} + {Unary(n, n.b)}, f)
  {
  }

  /** One delta round of the run. */
  lemma {:induction false} RoundFacts(n: Names, hashJoin: bool, st: Store, host: Host, out: set<Fact>)
    requires n.Valid() && Faithful(host) && host({}, {}).Total() && PlanJobs(DeltaJobs(Rules(n), {n.p}, hashJoin)).Ok?
    requires forall f ::
             StepFrom(n, st.delta, st.stable + st.delta, f) || PairFrom(n, st.delta, st.stable + st.delta, f) <==>
             f in out
    ensures PassFacts(PlanJobs(DeltaJobs(Rules(n), {n.p}, hashJoin)).value, host(st.stable, st.delta)) == Ok(out)
  {
    Analysed(n, hashJoin);
    DeltaPassSound(Program(n), hashJoin, st, host);
    hide PassFacts, PlanJobs, JobDerives, StepFrom, PairFrom, Prepared, AllPlannable;
    var m := host(st.stable, st.delta);
    assert Shows(m, st.stable, st.delta);
    var r := PassFacts(PlanJobs(DeltaJobs(Rules(n), {n.p}, hashJoin)).value, m);
    forall f ensures f in r.value <==> f in out { DeltaMeans(n, f, hashJoin, st.stable, st.delta, m); }
    assert r.value == out;
  }

  lemma {:induction false} FirstFacts(n: Names, hashJoin: bool, host: Host)
    requires n.Valid() && Faithful(host) && host({}, {}).Total() && PlanJobs(FullJobs(Rules(n), hashJoin)).Ok?
    ensures PassFacts(PlanJobs(FullJobs(Rules(n), hashJoin)).value, host(Base(n), {})) == Ok({Unary(n, n.a)})
  {
    hide PassFacts, PlanJobs, FullJobs, Follows, Prepared, AllPlannable, StepFrom, PairFrom, SeedFrom, Rules, Base,
      Recursive, Faithful;
    Analysed(n, hashJoin);
    FullPassFacts(Program(n), hashJoin, Store(Base(n), {}, {}), host);
    assert Store(Base(n), {}, {}).Visible() == Base(n);
    var r := PassFacts(PlanJobs(FullJobs(Rules(n), hashJoin)).value, host(Base(n), {}));
    forall f ensures f in r.value <==> f == Unary(n, n.a) {
      FollowsMeans(n, f, Base(n), host);
      FromBase(n, f);
    }
    assert r.value == {Unary(n, n.a)};
  }

  /** Where the run ends. */
  function Stopped(n: Names): Store {
    Store(Base(n) + {Unary(n, n.a)} + {Unary(n, n.b)}, {}, {})
  }

  /** The two rounds: `p(2)` from `p(1)`, then nothing. */
  lemma {:induction false} TwoRounds(n: Names, hashJoin: bool, host: Host, rounds: nat)
    requires n.Valid() && Faithful(host) && host({}, {}).Total() &&
             PlanJobs(DeltaJobs(Rules(n), {n.p}, hashJoin)).Ok? && rounds >= 2
    ensures RoundsOf(PlanJobs(DeltaJobs(Rules(n), {n.p}, hashJoin)).value, Store(Base(n), {Unary(n, n.a)}, {}), host,
                     rounds) == Done(Stopped(n))
  {
    hide PassFacts, PlanJobs, DeltaJobs, Rules, Faithful;
    var ops := PlanJobs(DeltaJobs(Rules(n), {n.p}, hashJoin)).value;
    var one, two := Store(Base(n), {Unary(n, n.a)}, {}), Store(Base(n) + {Unary(n, n.a)}, {Unary(n, n.b)}, {});
    forall f
      ensures StepFrom(n, one.delta, one.stable + one.delta, f) ||
              PairFrom(n, one.delta, one.stable + one.delta, f) <==>
              f in {Unary(n, n.b)}
    {
      FromOne(n, f);
    }
    forall f
      ensures StepFrom(n, two.delta, two.stable + two.delta, f) ||
              PairFrom(n, two.delta, two.stable + two.delta, f) <==>
              f in {}
    {
      FromTwo(n, f);
    }
    RoundFacts(n, hashJoin, one, host, {Unary(n, n.b)});
    RoundFacts(n, hashJoin, two, host, {});
    assert {} + ({Unary(n, n.b)} - one.Visible()) == {Unary(n, n.b)};
    assert Advance(one, {Unary(n, n.b)}) == two && Unary(n, n.b) !in one.Visible();
    assert {} + ({} - two.Visible()) == {};
    assert Advance(two, {}) == Stopped(n);
    assert RoundsOf(ops, two, host, rounds - 1) == Done(Stopped(n));
  }

  /** Evaluating the three rules over `g(1)`, `s(1, 2)` and `f(1, 2, 3)` stops with `p(1)` and
      `p(2)`, although `p(3)` follows: when `p(2)` is new, `p(1)` no longer is, and the delta
      plan of the pair rule scans the delta for both. */
  lemma {:induction false} RoundsStopEarly(n: Names, hashJoin: bool, host: Host, rounds: nat)
    requires n.Valid() && Faithful(host) && host({}, {}).Total() && rounds >= 2
    ensures StratumOf(Program(n), hashJoin, Store(Base(n), {}, {}), host, rounds) == Done(Stopped(n))
    ensures Follows(Rules(n), Unary(n, n.c), Stopped(n).Visible(), host) && Unary(n, n.c) !in Stopped(n).Visible()
    ensures !DeltaComplete(PairRule(n), {n.p})
  {
    hide PassFacts, PlanJobs, FullJobs, DeltaJobs, RoundsOf, DeltaComplete, Follows, Rules, PairRule, Recursive,
      AllPlannable, Prepared, Faithful;
    Analysed(n, hashJoin);
    StratumPlanned(Program(n), hashJoin);
    FirstFacts(n, hashJoin, host);
    TwoRounds(n, hashJoin, host, rounds);
    var st := Store(Base(n), {}, {});
    assert {} + ({Unary(n, n.a)} - st.Visible()) == {Unary(n, n.a)};
    assert Advance(st, {Unary(n, n.a)}) == Store(Base(n), {Unary(n, n.a)}, {});
    OneMissing(n, host);
    PairRuleIncomplete(n);
  }

  lemma {:induction false} OneMissing(n: Names, host: Host)
    requires n.Valid() && Faithful(host)
    ensures Follows(Rules(n), Unary(n, n.c), Stopped(n).Visible(), host) && Unary(n, n.c) !in Stopped(n).Visible()
  {
    hide Follows, Faithful, Rules;
    var all := Stopped(n).Visible();
    assert Unary(n, n.a) in all && Unary(n, n.b) in all && Fact(n.f, [n.a, n.b, n.c]) in all;
    assert PairFrom(n, all, all, Unary(n, n.c));
    FollowsMeans(n, Unary(n, n.c), all, host);
  }

  lemma {:induction false} PairRuleIncomplete(n: Names)
    requires n.Valid()
    ensures !DeltaComplete(PairRule(n), {n.p})
  {
    var ps := PairRule(n).premises;
    RulesAreVarRules(n);
    VarRuleAnalysed(PairRule(n), Config(None, false));
    assert ps[0] in ps && ps[1] in ps && ps[0].args[0] != ps[1].args[0];
    assert !OccursOnce(ps, n.p);
    assert DeltaScanned(ps[0], {}, n.p);
  }
}
