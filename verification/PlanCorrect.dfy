/** A plan inserts exactly what its rule says. */
module PlanCorrect {
  import opened Datalog
  import opened Interp
  import opened Planner
  import opened Lowering

  // ----- What remains to be derived at a point of the plan -----

  /** The variables of the program with a value are exactly the bound ones. */
  ghost predicate Fits(env: Env, bound: set<Var>) {
    forall v: Var :: v.User? ==> (v in env <==> v in bound)
  }

  ghost predicate Extends(sigma: Env, env: Env) {
    forall v: Var :: v.User? && v in env ==> v in sigma && sigma[v] == env[v]
  }

  /** No argument is a constant or a bound variable. */
  predicate Keyless(args: seq<Term>, bound: set<Var>) {
    forall i :: 0 <= i < |args| ==> !args[i].ConstTerm? && (args[i].VarTerm? ==> args[i].v !in bound)
  }

  /** The table a relation atom reads at its place: the delta when the plan is for this
      predicate's delta and no argument serves as an index key. */
  function RowsFor(p: Premise, bound: set<Var>, delta: Option<Pred>, m: Machine): seq<Tuple> {
    if !p.Atom? then []
    else if p.pred.IsRelation() && delta == Some(p.pred) && Keyless(p.args, bound) then m.delta(p.pred)
    else m.full(p.pred)
  }

  ghost predicate AllHold(ps: seq<Premise>, bound: set<Var>, delta: Option<Pred>, sigma: Env, m: Machine)
    decreases |ps|
  {
    ps != [] ==>
      HoldsIn(ps[0], sigma, RowsFor(ps[0], bound, delta, m), m) &&
      AllHold(ps[1..], BoundAfter(ps[0], bound), delta, sigma, m)
  }

  /** The assignment extends the environment, satisfies the premises and gives the fact. */
  ghost predicate Completes(sigma: Env, ps: seq<Premise>, bound: set<Var>, h: Head, env: Env, delta: Option<Pred>,
      f: Fact, m: Machine) {
    Extends(sigma, env) && AllHold(ps, bound, delta, sigma, m) && HeadFact(h, sigma, m) == Ok(f)
  }

  ghost predicate Derivable(ps: seq<Premise>, bound: set<Var>, h: Head, env: Env, delta: Option<Pred>, f: Fact,
      m: Machine) {
    exists sigma :: Completes(sigma, ps, bound, h, env, delta, f, m)
  }

  /** The plan inserts exactly the derivable facts, and never fails on a total machine. */
  ghost predicate Correct(op: Op, ps: seq<Premise>, bound: set<Var>, h: Head, env: Env, delta: Option<Pred>,
      m: Machine) {
    && (m.Total() ==> Run(op, env, m).Ok?)
    && (Run(op, env, m).Ok? ==> forall f :: f in Run(op, env, m).value <==> Derivable(ps, bound, h, env, delta, f, m))
  }

  // ----- When every variable is bound before it is read -----

  /** The variables the premise reads are bound at its place.  A relation atom binds its
      direct variables, but the variables inside its compound arguments it only reads. */
  predicate Ready(p: Premise, bound: set<Var>) {
    match p
    case Atom(pred, args) =>
      if pred.IsRelation() then TermsVars(args) <= bound + DirectVars(args)
      else if pred.MatchField? then
        |args| == 3 ==> TermVars(args[0]) <= bound && (IsUnboundVar(args[2], bound) || TermVars(args[2]) <= bound)
      else if pred.ListMember? then
        |args| == 2 ==> TermVars(args[1]) <= bound && (IsUnboundVar(args[0], bound) || TermVars(args[0]) <= bound)
      else TermsVars(args) <= bound
    case NegAtom(_, args) => TermsVars(args) <= bound
    case Equal(l, r) =>
      (match EqBinding(l, r, bound)
       case None => TermVars(l) + TermVars(r) <= bound
       case Some(b) => TermVars(b.1) <= bound)
    case Inequal(l, r) => TermVars(l) + TermVars(r) <= bound
  }

  predicate WellPlaced(ps: seq<Premise>, bound: set<Var>, h: Head)
    decreases |ps|
  {
    if ps == [] then TermsVars(h.args) <= bound
    else Ready(ps[0], bound) && WellPlaced(ps[1..], BoundAfter(ps[0], bound), h)
  }

  /** Every hash join the planner chooses is of two relations. */
  predicate JoinsRelations(ps: seq<Premise>, bound: set<Var>, cfg: Config)
    decreases |ps|
  {
    if ps == [] then true
    else if ps[0].Atom? && ps[0].pred.IsRelation() && ChosenJoin(ps[0].args, ps, bound, cfg).Some? then
      var j := ChosenJoin(ps[0].args, ps, bound, cfg).value;
      ps[1].pred.IsRelation() && JoinsRelations(ps[2..], bound + VarSet(j.build) + VarSet(j.probe), cfg)
    else JoinsRelations(ps[1..], BoundAfter(ps[0], bound), cfg)
  }

  // ----- Evaluation under an extension -----

  lemma {:induction false} ExtendsEval(ts: seq<Term>, sigma: Env, env: Env, m: Machine)
    requires Extends(sigma, env) && UserVars(TermsVars(ts)) && TermsVars(ts) <= env.Keys
    ensures EvalTerms(ts, sigma, m) == EvalTerms(ts, env, m)
  {
    EvalTermsAgree(ts, sigma, env, m);
  }

  lemma {:induction false} ExtendsHolds(p: Premise, sigma: Env, env: Env, rows: seq<Tuple>, m: Machine)
    requires Extends(sigma, env) && UserVars(PremiseVars(p)) && PremiseVars(p) <= env.Keys
    ensures HoldsIn(p, sigma, rows, m) == HoldsIn(p, env, rows, m)
  {
    HoldsInAgree(p, sigma, env, rows, m);
  }

  lemma {:induction false} DerivableSame(ps: seq<Premise>, bound: set<Var>, h: Head, e1: Env, e2: Env,
      delta: Option<Pred>, f: Fact, m: Machine)
    requires SameUser(e1, e2)
    ensures Derivable(ps, bound, h, e1, delta, f, m) <==> Derivable(ps, bound, h, e2, delta, f, m)
  {
    forall sigma
      ensures Completes(sigma, ps, bound, h, e1, delta, f, m) <==> Completes(sigma, ps, bound, h, e2, delta, f, m)
    {
      assert Extends(sigma, e1) <==> Extends(sigma, e2);
    }
  }

  // ----- The head -----

  lemma {:induction false} HeadStep(h: Head, k: nat, bound: set<Var>, env: Env, delta: Option<Pred>, m: Machine)
    requires PlanHead(h, k).Ok? && UserVars(TermsVars(h.args)) && TermsVars(h.args) <= bound && Fits(env, bound)
    ensures Correct(PlanHead(h, k).value.op, [], bound, h, env, delta, m)
  {
    var l := LowerTerms(h.args, k).value;
    var op := PlanHead(h, k).value.op;
    LowerTermsCorrect(h.args, k, env, m);
    RunWrapLets(l.lets, Insert(h.rel, l.values), env, m);
    if m.Total() { TotalTerms(h.args, k, env, m); }
    if Run(op, env, m).Ok? {
      forall f ensures f in Run(op, env, m).value <==> Derivable([], bound, h, env, delta, f, m) {
        if f in Run(op, env, m).value {
          assert Completes(env, [], bound, h, env, delta, f, m);
        }
        if Derivable([], bound, h, env, delta, f, m) {
          var sigma :| Completes(sigma, [], bound, h, env, delta, f, m);
          ExtendsEval(h.args, sigma, env, m);
        }
      }
    }
  }

  // ----- Tests -----

  /** The condition of a test means that the premise holds. */
  lemma {:induction false} TestCondMeans(p: Premise, bound: set<Var>, ts: seq<Term>, vs: seq<Operand>, env: Env,
      e: Env, rows: seq<Tuple>, m: Machine)
    requires IsTest(p, bound) && TestTerms(p, bound) == Ok(ts) && |vs| == |ts|
    requires EvalTerms(ts, env, m).Ok? && EvalOperands(vs, e) == EvalTerms(ts, env, m)
    ensures var c := EvalCond(TestCond(p, bound, vs), e, m);
            && (c.Ok? ==> c.value == HoldsIn(p, env, rows, m))
            && (c.Err? ==> !HoldsIn(p, env, rows, m) && !m.Total())
  {
    var xs := EvalTerms(ts, env, m).value;
    if |vs| == 2 { assert vs == [vs[0], vs[1]]; }
    match p
    case Atom(pred, args) =>
    case NegAtom(pred, args) =>
      if pred.Rel? {
        NoMatchMeans(m.full(pred), vs, e);
      } else if pred.MatchField? {
        FieldArgs(args, env, m);
        FieldOperands(vs, args[1].c, e);
      }
    case Equal(_, _) =>
    case Inequal(_, _) =>
  }

  lemma {:induction false} PairTerms(a: Term, b: Term, env: Env, m: Machine)
    ensures EvalTerms([a, b], env, m) ==
            (match EvalTerm(a, env, m) case Err => Err
             case Ok(x) => match EvalTerm(b, env, m) case Err => Err case Ok(y) => Ok([x, y]))
  {
    assert [a, b][1..] == [b];
    EvalTermsOne(b, env, m);
    if EvalTerm(a, env, m).Ok? && EvalTerm(b, env, m).Ok? {
      assert [EvalTerm(a, env, m).value] + [EvalTerm(b, env, m).value] ==
             [EvalTerm(a, env, m).value, EvalTerm(b, env, m).value];
    }
  }

  lemma {:induction false} FieldArgs(args: seq<Term>, env: Env, m: Machine)
    requires |args| == 3 && args[1].ConstTerm?
    ensures EvalTerms(args, env, m).Ok? <==> EvalTerms([args[0], args[2]], env, m).Ok?
    ensures EvalTerms(args, env, m).Ok? ==>
              var xs := EvalTerms([args[0], args[2]], env, m).value;
              EvalTerms(args, env, m).value == [xs[0], ConstValue(args[1].c), xs[1]]
  {
    assert args[1..] == [args[1], args[2]];
    PairTerms(args[1], args[2], env, m);
    PairTerms(args[0], args[2], env, m);
    if EvalTerm(args[0], env, m).Ok? && EvalTerm(args[2], env, m).Ok? {
      var x, y, z := EvalTerm(args[0], env, m).value, ConstValue(args[1].c), EvalTerm(args[2], env, m).value;
      assert [x] + [y, z] == [x, y, z];
    }
  }

  lemma {:induction false} FieldOperands(vs: seq<Operand>, c: Constant, e: Env)
    requires |vs| == 2 && EvalOperands(vs, e).Ok?
    ensures var xs := EvalOperands(vs, e).value;
            EvalOperands([vs[0], OConst(c), vs[1]], e) == Ok([xs[0], ConstValue(c), xs[1]])
  {
    assert vs == [vs[0], vs[1]];
    PairOperands(vs[0], vs[1], e);
    assert [vs[0], OConst(c), vs[1]][1..] == [OConst(c), vs[1]];
    PairOperands(OConst(c), vs[1], e);
    var xs := EvalOperands(vs, e).value;
    assert [xs[0]] + [ConstValue(c), xs[1]] == [xs[0], ConstValue(c), xs[1]];
  }

  lemma {:induction false} TestVars(p: Premise, bound: set<Var>, ts: seq<Term>)
    requires IsTest(p, bound) && TestTerms(p, bound) == Ok(ts)
    ensures TermsVars(ts) == PremiseVars(p)
  {
    match p
    case Atom(_, _) =>
    case NegAtom(pred, args) =>
      if pred.MatchField? {
        assert args[1..] == [args[1], args[2]];
        PairVars(args[1], args[2]);
        PairVars(args[0], args[2]);
      }
    case Equal(l, r) => PairVars(l, r);
    case Inequal(l, r) => PairVars(l, r);
  }

  /** A test runs the body when the premise holds and inserts nothing otherwise. */
  lemma {:induction false} TestRuns(p: Premise, bound: set<Var>, ts: seq<Term>, body: Planned, env: Env,
      rows: seq<Tuple>, m: Machine) returns (e: Env)
    requires IsTest(p, bound) && TestTerms(p, bound) == Ok(ts) && PlanTest(p, bound, ts, body).Ok?
    requires UserVars(PremiseVars(p)) && PremiseVars(p) <= env.Keys
    ensures var op := PlanTest(p, bound, ts, body).value.op;
            && SameUser(env, e)
            && (HoldsIn(p, env, rows, m) ==> Run(op, env, m) == Run(body.op, e, m))
            && (!HoldsIn(p, env, rows, m) && Run(op, env, m).Ok? ==> Run(op, env, m).value == {})
            && (!HoldsIn(p, env, rows, m) && m.Total() ==> Run(op, env, m).Ok?)
  {
    var l := LowerTerms(ts, body.next).value;
    var cond := TestCond(p, bound, l.values);
    TestVars(p, bound, ts);
    LowerTermsCorrect(ts, body.next, env, m);
    RunWrapLets(l.lets, Filter(cond, body.op), env, m);
    if m.Total() { TotalTerms(ts, body.next, env, m); }
    e := env;
    if RunLets(l.lets, env, m).Ok? {
      e := RunLets(l.lets, env, m).value;
      TestCondMeans(p, bound, ts, l.values, env, e, rows, m);
      RunFilter(cond, body.op, e, m);
    } else if p.NegAtom? && p.pred.MatchField? {
      FieldArgs(p.args, env, m);
    }
  }

  /** A premise whose variables are bound splits off as a test of the environment. */
  lemma {:induction false} SplitTest(ps: seq<Premise>, bound: set<Var>, h: Head, env: Env, delta: Option<Pred>,
      f: Fact, m: Machine)
    requires ps != [] && UserVars(PremiseVars(ps[0])) && PremiseVars(ps[0]) <= env.Keys
    ensures Derivable(ps, bound, h, env, delta, f, m) <==>
            HoldsIn(ps[0], env, RowsFor(ps[0], bound, delta, m), m) &&
            Derivable(ps[1..], BoundAfter(ps[0], bound), h, env, delta, f, m)
  {
    var rows := RowsFor(ps[0], bound, delta, m);
    forall sigma
      ensures Completes(sigma, ps, bound, h, env, delta, f, m) <==>
              HoldsIn(ps[0], env, rows, m) && Completes(sigma, ps[1..], BoundAfter(ps[0], bound), h, env, delta, f, m)
    {
      if Extends(sigma, env) { ExtendsHolds(ps[0], sigma, env, rows, m); }
    }
  }

  /** The step lemmas assume that the rest of the sequence is planned correctly. */
  ghost predicate RestCorrect(body: Op, ps: seq<Premise>, bound: set<Var>, h: Head, delta: Option<Pred>, m: Machine) {
    forall e :: Fits(e, bound) ==> Correct(body, ps, bound, h, e, delta, m)
  }

  lemma {:induction false} TestStep(ps: seq<Premise>, bound: set<Var>, ts: seq<Term>, body: Planned, h: Head, env: Env,
      delta: Option<Pred>, m: Machine)
    requires ps != [] && IsTest(ps[0], bound) && TestTerms(ps[0], bound) == Ok(ts) &&
             PlanTest(ps[0], bound, ts, body).Ok?
    requires UserVars(PremiseVars(ps[0])) && PremiseVars(ps[0]) <= bound && Fits(env, bound)
    requires RestCorrect(body.op, ps[1..], BoundAfter(ps[0], bound), h, delta, m)
    ensures Correct(PlanTest(ps[0], bound, ts, body).value.op, ps, bound, h, env, delta, m)
  {
    var op := PlanTest(ps[0], bound, ts, body).value.op;
    var rows := RowsFor(ps[0], bound, delta, m);
    var e := TestRuns(ps[0], bound, ts, body, env, rows, m);
    assert BoundAfter(ps[0], bound) == bound;
    assert Fits(e, bound);
    assert Correct(body.op, ps[1..], bound, h, e, delta, m);
    if Run(op, env, m).Ok? {
      forall f ensures f in Run(op, env, m).value <==> Derivable(ps, bound, h, env, delta, f, m) {
        SplitTest(ps, bound, h, env, delta, f, m);
        DerivableSame(ps[1..], bound, h, env, e, delta, f, m);
      }
    }
  }

  // ----- Bindings -----

  /** Any number of environments that together stand for the ways to satisfy the premise:
      every extension of one satisfies it, and every way to satisfy it extends one. */
  ghost predicate Covers(envs: seq<Env>, p: Premise, env: Env, rows: seq<Tuple>, m: Machine) {
    && (forall e, sigma {:trigger Extends(sigma, e)} :: e in envs && Extends(sigma, e) ==>
          Extends(sigma, env) && HoldsIn(p, sigma, rows, m))
    && (forall sigma {:trigger Extends(sigma, env)} :: Extends(sigma, env) && HoldsIn(p, sigma, rows, m) ==>
          exists e :: e in envs && Extends(sigma, e))
  }

  lemma {:induction false} CoversStep(op: Op, envs: seq<Env>, body: Op, ps: seq<Premise>, bound: set<Var>, h: Head,
      env: Env, delta: Option<Pred>, m: Machine)
    requires ps != [] && Run(op, env, m) == RunAll(envs, body, m)
    requires Covers(envs, ps[0], env, RowsFor(ps[0], bound, delta, m), m)
    requires forall e :: e in envs ==> Fits(e, BoundAfter(ps[0], bound))
    requires RestCorrect(body, ps[1..], BoundAfter(ps[0], bound), h, delta, m)
    ensures Correct(op, ps, bound, h, env, delta, m)
  {
    hide Run, RunAll, HeadFact, RowsFor, BoundAfter, HoldsIn;
    var bound' := BoundAfter(ps[0], bound);
    RunAllOk(envs, body, m);
    assert forall e :: e in envs ==> Correct(body, ps[1..], bound', h, e, delta, m);
    if Run(op, env, m).Ok? {
      forall f ensures f in Run(op, env, m).value <==> Derivable(ps, bound, h, env, delta, f, m) {
        RunAllFacts(envs, body, m, f);
        if f in Run(op, env, m).value {
          var e :| e in envs && Run(body, e, m).Ok? && f in Run(body, e, m).value;
          var sigma :| Completes(sigma, ps[1..], bound', h, e, delta, f, m);
          assert Completes(sigma, ps, bound, h, env, delta, f, m);
        }
        if Derivable(ps, bound, h, env, delta, f, m) {
          var sigma :| Completes(sigma, ps, bound, h, env, delta, f, m);
          var e :| e in envs && Extends(sigma, e);
          assert Completes(sigma, ps[1..], bound', h, e, delta, f, m);
          assert Derivable(ps[1..], bound', h, e, delta, f, m);
        }
      }
    }
  }

  /** The plan runs an inner operation in an environment changed on planner variables only. */
  lemma {:induction false} WrapStep(op: Op, inner: Op, ps: seq<Premise>, bound: set<Var>, h: Head, env: Env, e: Env,
      delta: Option<Pred>, m: Machine)
    requires Run(op, env, m) == Run(inner, e, m) && SameUser(env, e)
    requires Correct(inner, ps, bound, h, e, delta, m)
    ensures Correct(op, ps, bound, h, env, delta, m)
  {
    forall f { DerivableSame(ps, bound, h, env, e, delta, f, m); }
  }

  /** Lowered terms that have no value make the plan fail, on a machine that is not total. */
  lemma {:induction false} FailStep(op: Op, ps: seq<Premise>, bound: set<Var>, h: Head, env: Env, delta: Option<Pred>,
      m: Machine)
    requires Run(op, env, m).Err? && !m.Total()
    ensures Correct(op, ps, bound, h, env, delta, m)
  {
  }
}
