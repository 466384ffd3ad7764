/** Plans are scoped exactly when their premises are well placed. */
module ScopeTheorem {
  import opened Datalog
  import opened Interp
  import opened Planner
  import opened Lowering
  import opened PlanCorrect
  import opened Delay
  import opened Bindings
  import opened RuleTheorem
  import opened Scope
  import AtomSteps
  import PlanTheorem

  // ----- Lowered terms -----

  function LetVars(lets: seq<Binding>): set<Var> {
    if lets == [] then {} else {lets[0].v} + LetVars(lets[1..])
  }

  predicate LetsScoped(lets: seq<Binding>, b: set<Var>)
    decreases |lets|
  {
    lets != [] ==> ExprVars(lets[0].expr) <= b && lets[0].v !in b && LetsScoped(lets[1..], b + {lets[0].v})
  }

  lemma {:induction false} ScopedWrap(lets: seq<Binding>, inner: Op, b: set<Var>)
    ensures Scoped(WrapLets(lets, inner), b) <==> LetsScoped(lets, b) && Scoped(inner, b + LetVars(lets))
    decreases |lets|
  {
    if lets == [] {
      assert b + LetVars(lets) == b;
    } else {
      ScopedWrap(lets[1..], inner, b + {lets[0].v});
      assert b + {lets[0].v} + LetVars(lets[1..]) == b + LetVars(lets);
    }
  }

  lemma {:induction false} LetsConcat(x: seq<Binding>, y: seq<Binding>, b: set<Var>)
    ensures LetVars(x + y) == LetVars(x) + LetVars(y)
    ensures LetsScoped(x + y, b) <==> LetsScoped(x, b) && LetsScoped(y, b + LetVars(x))
    decreases |x|
  {
    if x == [] {
      assert x + y == y;
      assert b + LetVars(x) == b;
    } else {
      assert (x + y)[0] == x[0] && (x + y)[1..] == x[1..] + y;
      LetsConcat(x[1..], y, b + {x[0].v});
      assert b + {x[0].v} + LetVars(x[1..]) == b + LetVars(x);
    }
  }

  ghost predicate FreshFree(b: set<Var>, lo: nat, hi: nat) {
    forall v :: v in b ==> !InRange(v, lo, hi)
  }

  ghost predicate AllInRange(b: set<Var>, lo: nat, hi: nat) {
    forall v :: v in b ==> InRange(v, lo, hi)
  }

  /** Lowered bindings and operands are in scope exactly when the variables of the terms are. */
  ghost predicate ScopesAs(l: Lowered, k: nat, vars: set<Var>, b: set<Var>) {
    && AllInRange(LetVars(l.lets), k, l.next)
    && OperandVars(l.values) <= vars + LetVars(l.lets)
    && (LetsScoped(l.lets, b) && OperandVars(l.values) <= b + LetVars(l.lets) <==> vars <= b)
  }

  lemma {:induction false} LowerTermScoped(t: Term, k: nat, b: set<Var>)
    requires LowerTerm(t, k).Ok? && UserVars(TermVars(t)) && FreshFree(b, k, LowerTerm(t, k).value.next)
    ensures ScopesAs(LowerTerm(t, k).value, k, TermVars(t), b)
    decreases t, 1
  {
    match t
    case VarTerm(v) =>
      EvalOne(OVar(v), map[]);
      assert b + {} == b;
    case ConstTerm(c) => EvalOne(OConst(c), map[]);
    case Apply(f, args) => LowerCallScoped("call", f, args, k, b);
    case Literal(kind, parts) => LowerCallScoped(LiteralPrefix(kind), LiteralFn(kind), parts, k, b);
  }

  lemma {:induction false} LowerCallScoped(prefix: string, f: string, args: seq<Term>, k: nat, b: set<Var>)
    requires LowerCall(prefix, f, args, k).Ok? && UserVars(TermsVars(args)) &&
             FreshFree(b, k, LowerCall(prefix, f, args, k).value.next)
    ensures ScopesAs(LowerCall(prefix, f, args, k).value, k, TermsVars(args), b)
    decreases args, 1
  {
    var a := LowerTerms(args, k).value;
    var tmp := Fresh(prefix, a.next);
    var last := Binding(tmp, Call(f, a.values));
    LowerTermsScoped(args, k, b);
    LetsConcat(a.lets, [last], b);
    assert [last][1..] == [] && LetVars([last]) == {tmp} + LetVars([]);
    assert LetsScoped([last], b + LetVars(a.lets)) <==>
           ExprVars(last.expr) <= b + LetVars(a.lets) && tmp !in b + LetVars(a.lets);
    EvalOne(OVar(tmp), map[]);
  }

  lemma {:induction false} LowerTermsScoped(ts: seq<Term>, k: nat, b: set<Var>)
    requires LowerTerms(ts, k).Ok? && UserVars(TermsVars(ts)) && FreshFree(b, k, LowerTerms(ts, k).value.next)
    ensures ScopesAs(LowerTerms(ts, k).value, k, TermsVars(ts), b)
    decreases ts, 0
  {
    if ts != [] {
      var x := LowerTerm(ts[0], k).value;
      var y := LowerTerms(ts[1..], x.next).value;
      LowerTermScoped(ts[0], k, b);
      LowerTermsScoped(ts[1..], x.next, b + LetVars(x.lets));
      LetsConcat(x.lets, y.lets, b);
      EvalOperandsConcat(x.values, y.values, map[]);
      var lx, ly := LetVars(x.lets), LetVars(y.lets);
      assert b + (lx + ly) == b + lx + ly;
      assert OperandVars(x.values) <= b + lx + ly <==> OperandVars(x.values) <= b + lx by {
        assert forall v :: v in OperandVars(x.values) ==> v !in ly;
      }
      assert TermsVars(ts[1..]) <= b + lx <==> TermsVars(ts[1..]) <= b;
    }
  }

  // ----- Tests -----

  lemma {:induction false} TestCondVars(p: Premise, bound: set<Var>, vs: seq<Operand>)
    requires IsTest(p, bound) && TestTerms(p, bound).Ok? && |vs| == |TestTerms(p, bound).value|
    ensures CondVars(TestCond(p, bound, vs)) == OperandVars(vs)
  {
    if |vs| == 2 { assert vs == [vs[0], vs[1]]; }
    if p.NegAtom? && p.pred.MatchField? {
      var c := OConst(p.args[1].c);
      assert [vs[0], c, vs[1]][1..] == [c, vs[1]] && [c, vs[1]][1..] == [vs[1]] && vs[1..] == [vs[1]];
      assert OperandVars([c, vs[1]]) == {} + OperandVars([vs[1]]);
    }
  }

  lemma PairOperandVars(a: Operand, b: Operand)
    ensures OperandVars([a, b]) == OperandVars([a]) + OperandVars([b])
  {
    assert [a, b][1..] == [b];
    EvalOne(a, map[]);
    EvalOne(b, map[]);
  }

  /** The scope holds exactly the bound variables of the program. */
  ghost predicate InScope(b: set<Var>, bound: set<Var>) {
    forall v: Var :: v.User? ==> (v in b <==> v in bound)
  }

  /** What remains to be shown of the rest of a sequence, planned with numbers `lo` to `hi`. */
  ghost predicate RestScoped(body: Op, lo: nat, hi: nat, ps: seq<Premise>, bound: set<Var>, h: Head) {
    forall b: set<Var> :: InScope(b, bound) && FreshFree(b, lo, hi) ==> (Scoped(body, b) <==> WellPlaced(ps, bound, h))
  }

  /** The theorem: a plan is scoped exactly when every premise is ready at its place. */
  lemma {:induction false} PlanScopedIff(ps: seq<Premise>, bound: set<Var>, k: nat, h: Head, cfg: Config)
    requires PlanJoin(ps, bound, k, h, cfg).Ok? && UserVars(PremisesVars(ps)) && UserVars(TermsVars(h.args)) &&
             JoinsRelations(ps, bound, cfg)
    ensures RestScoped(PlanJoin(ps, bound, k, h, cfg).value.op, k, PlanJoin(ps, bound, k, h, cfg).value.next, ps,
                       bound, h)
    decreases |ps|
  {
    if ps == [] {
      HeadScoped(bound, k, h, cfg);
    } else if IsTest(ps[0], bound) {
      TestScoped(ps, bound, k, h, cfg);
    } else if ps[0].Equal? {
      LetScoped(ps, bound, k, h, cfg);
    } else if ps[0].pred.MatchField? {
      FieldScoped(ps, bound, k, h, cfg);
    } else if ps[0].pred.ListMember? {
      MemberScoped(ps, bound, k, h, cfg);
    } else if ChosenJoin(ps[0].args, ps, bound, cfg).Some? {
      JoinScoped(ps, bound, k, h, cfg);
    } else {
      AtomScoped(ps, bound, k, h, cfg);
    }
  }

  ghost predicate Planned'(ps: seq<Premise>, bound: set<Var>, k: nat, h: Head, cfg: Config) {
    ps != [] && PlanJoin(ps, bound, k, h, cfg).Ok? && UserVars(PremisesVars(ps)) && UserVars(TermsVars(h.args)) &&
    JoinsRelations(ps, bound, cfg)
  }

  lemma {:induction false} HeadScoped(bound: set<Var>, k: nat, h: Head, cfg: Config)
    requires PlanHead(h, k).Ok? && UserVars(TermsVars(h.args))
    ensures RestScoped(PlanHead(h, k).value.op, k, PlanHead(h, k).value.next, [], bound, h)
  {
    var l := LowerTerms(h.args, k).value;
    forall b: set<Var> | InScope(b, bound) && FreshFree(b, k, l.next)
      ensures Scoped(PlanHead(h, k).value.op, b) <==> WellPlaced([], bound, h)
    {
      LowerTermsScoped(h.args, k, b);
      ScopedWrap(l.lets, Insert(h.rel, l.values), b);
    }
  }

  lemma {:induction false} TestScoped(ps: seq<Premise>, bound: set<Var>, k: nat, h: Head, cfg: Config)
    requires Planned'(ps, bound, k, h, cfg) && IsTest(ps[0], bound)
    ensures RestScoped(PlanJoin(ps, bound, k, h, cfg).value.op, k, PlanJoin(ps, bound, k, h, cfg).value.next, ps,
                       bound, h)
    decreases |ps|, 0
  {
    var ts := TestTerms(ps[0], bound).value;
    var body := PlanJoin(ps[1..], bound, k, h, cfg).value;
    var l := LowerTerms(ts, body.next).value;
    var cond := TestCond(ps[0], bound, l.values);
    var op := WrapLets(l.lets, Filter(cond, body.op));
    assert BoundAfter(ps[0], bound) == bound;
    assert PlanJoin(ps, bound, k, h, cfg) == Ok(Planned(op, l.next));
    assert Ready(ps[0], bound) <==> PremiseVars(ps[0]) <= bound;
    PlanScopedIff(ps[1..], bound, k, h, cfg);
    TestVars(ps[0], bound, ts);
    TestCondVars(ps[0], bound, l.values);
    hide PlanJoin, LowerTerms, TestTerms, TestCond, Ready;
    forall b: set<Var> | InScope(b, bound) && FreshFree(b, k, l.next)
      ensures Scoped(op, b) <==> WellPlaced(ps, bound, h)
    {
      LowerTermsScoped(ts, body.next, b);
      ScopedWrap(l.lets, Filter(cond, body.op), b);
      var b' := b + LetVars(l.lets);
      assert InScope(b', bound) && FreshFree(b', k, body.next);
      assert PremiseVars(ps[0]) <= b <==> PremiseVars(ps[0]) <= bound;
    }
  }

  lemma {:induction false} LetScoped(ps: seq<Premise>, bound: set<Var>, k: nat, h: Head, cfg: Config)
    requires Planned'(ps, bound, k, h, cfg) && ps[0].Equal? && !IsTest(ps[0], bound)
    ensures RestScoped(PlanJoin(ps, bound, k, h, cfg).value.op, k, PlanJoin(ps, bound, k, h, cfg).value.next, ps,
                       bound, h)
    decreases |ps|, 0
  {
    var x := EqBinding(ps[0].l, ps[0].r, bound).value;
    assert PlanJoin(ps, bound, k, h, cfg) == PlanLet(x, ps, bound, k, h, cfg);
    var l := if x.1.Apply? then LowerTerms(x.1.args, k).value else LowerTerm(x.1, k).value;
    var body := PlanJoin(ps[1..], bound + {x.0}, l.next, h, cfg).value;
    var inner := Let(x.0, BoundExpr(x.1, l.values), body.op);
    PlanScopedIff(ps[1..], bound + {x.0}, l.next, h, cfg);
    assert PlanJoin(ps, bound, k, h, cfg) == Ok(Planned(WrapLets(l.lets, inner), body.next));
    assert Ready(ps[0], bound) <==> TermVars(x.1) <= bound;
    assert WellPlaced(ps, bound, h) <==> Ready(ps[0], bound) && WellPlaced(ps[1..], bound + {x.0}, h);
    hide PlanJoin, PlanLet, LowerTerms, LowerTerm, Ready, WellPlaced, UserVars;
    forall b: set<Var> | InScope(b, bound) && FreshFree(b, k, body.next)
      ensures Scoped(WrapLets(l.lets, inner), b) <==> WellPlaced(ps, bound, h)
    {
      if x.1.Apply? { LowerTermsScoped(x.1.args, k, b); } else
      { LowerTermScoped(x.1, k, b); assert l.values == [l.values[0]]; }
      ScopedWrap(l.lets, inner, b);
      var b' := b + LetVars(l.lets) + {x.0};
      assert InScope(b', bound + {x.0}) && FreshFree(b', l.next, body.next);
      assert TermVars(x.1) <= b <==> TermVars(x.1) <= bound;
    }
  }

  lemma {:induction false} FieldScoped(ps: seq<Premise>, bound: set<Var>, k: nat, h: Head, cfg: Config)
    requires Planned'(ps, bound, k, h, cfg) && ps[0].Atom? && ps[0].pred.MatchField?
    ensures RestScoped(PlanJoin(ps, bound, k, h, cfg).value.op, k, PlanJoin(ps, bound, k, h, cfg).value.next, ps,
                       bound, h)
    decreases |ps|, 0
  {
    var args := ps[0].args;
    assert PlanJoin(ps, bound, k, h, cfg) == PlanMatchField(args, ps, bound, k, h, cfg);
    PlanTheorem.FieldVars(args);
    if IsUnboundVar(args[2], bound) {
      var body := PlanJoin(ps[1..], bound + {args[2].v}, k, h, cfg).value;
      var l := LowerTerm(args[0], body.next).value;
      PlanScopedIff(ps[1..], bound + {args[2].v}, k, h, cfg);
      BindScoped(l, args[0], body, k, args[2].v, ps, bound, h);
      forall b: set<Var> | InScope(b, bound) && FreshFree(b, k, l.next)
        ensures Scoped(PlanJoin(ps, bound, k, h, cfg).value.op, b) <==> WellPlaced(ps, bound, h)
      {
        BindScopedOps(l, body, args[1].c.name, args[2].v, b);
      }
    } else {
      var body := PlanJoin(ps[1..], bound, k + 1, h, cfg).value;
      var l := LowerTerms([args[0], args[2]], body.next).value;
      assert BoundAfter(ps[0], bound) == bound;
      PlanScopedIff(ps[1..], bound, k + 1, h, cfg);
      CheckScoped(l, args[0], args[2], body, k, Fresh("mf", k), ps, bound, h);
      forall b: set<Var> | InScope(b, bound) && FreshFree(b, k, l.next)
        ensures Scoped(PlanJoin(ps, bound, k, h, cfg).value.op, b) <==> WellPlaced(ps, bound, h)
      {
        CheckScopedOps(l, body, args[1].c.name, Fresh("mf", k), b);
      }
    }
  }

  lemma {:induction false} MemberScoped(ps: seq<Premise>, bound: set<Var>, k: nat, h: Head, cfg: Config)
    requires Planned'(ps, bound, k, h, cfg) && ps[0].Atom? && ps[0].pred.ListMember?
    ensures RestScoped(PlanJoin(ps, bound, k, h, cfg).value.op, k, PlanJoin(ps, bound, k, h, cfg).value.next, ps,
                       bound, h)
    decreases |ps|, 0
  {
    var args := ps[0].args;
    assert PlanJoin(ps, bound, k, h, cfg) == PlanListMember(args, ps, bound, k, h, cfg);
    assert args == [args[0], args[1]];
    PairVars(args[0], args[1]);
    if IsUnboundVar(args[0], bound) {
      var body := PlanJoin(ps[1..], bound + {args[0].v}, k, h, cfg).value;
      var l := LowerTerm(args[1], body.next).value;
      PlanScopedIff(ps[1..], bound + {args[0].v}, k, h, cfg);
      BindScoped(l, args[1], body, k, args[0].v, ps, bound, h);
      forall b: set<Var> | InScope(b, bound) && FreshFree(b, k, l.next)
        ensures Scoped(PlanJoin(ps, bound, k, h, cfg).value.op, b) <==> WellPlaced(ps, bound, h)
      {
        BindScopedOps(l, body, "", args[0].v, b);
      }
    } else {
      var body := PlanJoin(ps[1..], bound, k + 1, h, cfg).value;
      var l := LowerTerms([args[1], args[0]], body.next).value;
      assert BoundAfter(ps[0], bound) == bound;
      PlanScopedIff(ps[1..], bound, k + 1, h, cfg);
      CheckScoped(l, args[1], args[0], body, k, Fresh("listmem", k), ps, bound, h);
      forall b: set<Var> | InScope(b, bound) && FreshFree(b, k, l.next)
        ensures Scoped(PlanJoin(ps, bound, k, h, cfg).value.op, b) <==> WellPlaced(ps, bound, h)
      {
        CheckScopedOps(l, body, "", Fresh("listmem", k), b);
      }
    }
  }

  /** An operation that reads one operand, binds one variable and runs the body. */
  predicate BindsOne(l: Lowered, body: Op, v: Var, b: set<Var>) {
    LetsScoped(l.lets, b) && OperandVars(l.values) <= b + LetVars(l.lets) && v !in b + LetVars(l.lets) &&
    Scoped(body, b + LetVars(l.lets) + {v})
  }

  lemma {:induction false} BindScopedOps(l: Lowered, body: Planned, field: string, v: Var, b: set<Var>)
    requires |l.values| == 1
    ensures Scoped(WrapLets(l.lets, BindField(l.values[0], field, v, body.op)), b) <==> BindsOne(l, body.op, v, b)
    ensures Scoped(WrapLets(l.lets, IterateList(l.values[0], v, body.op)), b) <==> BindsOne(l, body.op, v, b)
  {
    assert l.values == [l.values[0]];
    ScopedWrap(l.lets, BindField(l.values[0], field, v, body.op), b);
    ScopedWrap(l.lets, IterateList(l.values[0], v, body.op), b);
  }

  lemma {:induction false} BindScoped(l: Lowered, t: Term, body: Planned, k: nat, v: Var, ps: seq<Premise>,
      bound: set<Var>, h: Head)
    requires ps != [] && k <= body.next && LowerTerm(t, body.next) == Ok(l) && UserVars(TermVars(t)) && v.User? &&
             v !in bound
    requires Ready(ps[0], bound) <==> TermVars(t) <= bound
    requires BoundAfter(ps[0], bound) == bound + {v} && RestScoped(body.op, k, body.next, ps[1..], bound + {v}, h)
    ensures forall b: set<Var> ::
            InScope(b, bound) && FreshFree(b, k, l.next) ==> (BindsOne(l, body.op, v, b) <==> WellPlaced(ps, bound, h))
  {
    forall b: set<Var> | InScope(b, bound) && FreshFree(b, k, l.next)
      ensures BindsOne(l, body.op, v, b) <==> WellPlaced(ps, bound, h)
    {
      LowerTermScoped(t, body.next, b);
      var b' := b + LetVars(l.lets) + {v};
      assert InScope(b', bound + {v}) && FreshFree(b', k, body.next);
      assert TermVars(t) <= b <==> TermVars(t) <= bound;
    }
  }

  /** The same with a planner variable that is then compared with a second operand. */
  predicate ChecksOne(l: Lowered, body: Op, tmp: Var, b: set<Var>) {
    LetsScoped(l.lets, b) && OperandVars(l.values) <= b + LetVars(l.lets) && tmp !in b + LetVars(l.lets) &&
    Scoped(body, b + LetVars(l.lets) + {tmp})
  }

  lemma {:induction false} CheckScopedOps(l: Lowered, body: Planned, field: string, tmp: Var, b: set<Var>)
    requires |l.values| == 2 && tmp !in OperandVars(l.values)
    ensures var test := Filter(Cmp(Eq, OVar(tmp), l.values[1]), body.op);
            && (Scoped(WrapLets(l.lets, BindField(l.values[0], field, tmp, test)), b) <==>
                ChecksOne(l, body.op, tmp, b))
            && (Scoped(WrapLets(l.lets, IterateList(l.values[0], tmp, test)), b) <==> ChecksOne(l, body.op, tmp, b))
  {
    var test := Filter(Cmp(Eq, OVar(tmp), l.values[1]), body.op);
    assert l.values == [l.values[0], l.values[1]];
    PairOperandVars(l.values[0], l.values[1]);
    PairOperandVars(OVar(tmp), l.values[1]);
    EvalOne(OVar(tmp), map[]);
    ScopedWrap(l.lets, BindField(l.values[0], field, tmp, test), b);
    ScopedWrap(l.lets, IterateList(l.values[0], tmp, test), b);
  }

  lemma {:induction false} CheckScoped(l: Lowered, t: Term, u: Term, body: Planned, k: nat, tmp: Var, ps: seq<Premise>,
      bound: set<Var>, h: Head)
    requires ps != [] && k < body.next && LowerTerms([t, u], body.next) == Ok(l) && UserVars(TermVars(t) + TermVars(u))
    requires tmp.Fresh? && tmp.id == k && (Ready(ps[0], bound) <==> TermVars(t) + TermVars(u) <= bound)
    requires BoundAfter(ps[0], bound) == bound && RestScoped(body.op, k + 1, body.next, ps[1..], bound, h)
    ensures tmp !in OperandVars(l.values)
    ensures forall b: set<Var> ::
            InScope(b, bound) && FreshFree(b, k, l.next) ==>
            (ChecksOne(l, body.op, tmp, b) <==> WellPlaced(ps, bound, h))
  {
    PairVars(t, u);
    LowerTermsVars([t, u], body.next);
    forall b: set<Var> | InScope(b, bound) && FreshFree(b, k, l.next)
      ensures ChecksOne(l, body.op, tmp, b) <==> WellPlaced(ps, bound, h)
    {
      LowerTermsScoped([t, u], body.next, b);
      var b' := b + LetVars(l.lets) + {tmp};
      assert InRange(tmp, k, l.next);
      assert InScope(b', bound) && FreshFree(b', k + 1, body.next);
      assert TermVars(t) + TermVars(u) <= b <==> TermVars(t) + TermVars(u) <= bound;
    }
  }

  // ----- Relation atoms -----

  lemma {:induction false} ConstrainScoped(arg: Term, v: Var, body: Planned, b: set<Var>) returns (b': set<Var>)
    requires Constrain(arg, v, body).Ok? && UserVars(TermVars(arg)) && v in b &&
             FreshFree(b, body.next, Constrain(arg, v, body).value.next)
    ensures b <= b' && AllInRange(b' - b, body.next, Constrain(arg, v, body).value.next)
    ensures Scoped(Constrain(arg, v, body).value.op, b) <==> TermVars(arg) <= b && Scoped(body.op, b')
  {
    b' := b;
    if arg != VarTerm(v) {
      var l := LowerTerm(arg, body.next).value;
      var test := Filter(Cmp(Eq, OVar(v), l.values[0]), body.op);
      LowerTermScoped(arg, body.next, b);
      ScopedWrap(l.lets, test, b);
      assert l.values == [l.values[0]];
      PairOperandVars(OVar(v), l.values[0]);
      EvalOne(OVar(v), map[]);
      b' := b + LetVars(l.lets);
    }
  }

  lemma {:induction false} ConstraintsScoped(args: seq<Term>, vars: seq<Var>, body: Planned, b: set<Var>)
      returns (b': set<Var>)
    requires |vars| == |args| && ApplyConstraints(args, vars, body).Ok? && UserVars(TermsVars(args))
    requires VarSet(vars) <= b && FreshFree(b, body.next, ApplyConstraints(args, vars, body).value.next)
    ensures b <= b' && AllInRange(b' - b, body.next, ApplyConstraints(args, vars, body).value.next)
    ensures Scoped(ApplyConstraints(args, vars, body).value.op, b) <==> TermsVars(args) <= b && Scoped(body.op, b')
    decreases |args|
  {
    b' := b;
    if args != [] {
      var n := |args| - 1;
      var inner := Constrain(args[n], vars[n], body).value;
      SplitLastVars(args, n);
      assert vars[n] in VarSet(vars) && VarSet(vars[..n]) <= VarSet(vars);
      var b1 := ConstraintsScoped(args[..n], vars[..n], inner, b);
      assert forall v :: v in b1 ==> v in b || v in b1 - b;
      b' := ConstrainScoped(args[n], vars[n], body, b1);
      assert forall v :: v in b' ==> v in b || v in b1 - b || v in b' - b1;
      assert TermVars(args[n]) <= b1 <==> TermVars(args[n]) <= b by {
        assert forall v :: v in TermVars(args[n]) ==> v in TermsVars(args) && v.User?;
      }
    }
  }

  lemma {:induction false} SplitLastVars(args: seq<Term>, n: nat)
    requires |args| == n + 1
    ensures TermsVars(args) == TermsVars(args[..n]) + TermVars(args[n])
    decreases n
  {
    if n == 0 {
      assert args[..0] == [] && args[1..] == [];
      assert TermsVars([]) == {};
    } else {
      SplitLastVars(args[1..], n - 1);
      assert args[..n][0] == args[0] && args[..n][1..] == args[1..][..n - 1] && args[1..][n - 1] == args[n];
    }
  }

  lemma {:induction false} AtomScoped(ps: seq<Premise>, bound: set<Var>, k: nat, h: Head, cfg: Config)
    requires Planned'(ps, bound, k, h, cfg) && ps[0].Atom? && ps[0].pred.IsRelation() &&
             ChosenJoin(ps[0].args, ps, bound, cfg).None?
    ensures RestScoped(PlanJoin(ps, bound, k, h, cfg).value.op, k, PlanJoin(ps, bound, k, h, cfg).value.next, ps,
                       bound, h)
    decreases |ps|, 0
  {
    var args := ps[0].args;
    var scan := ScanVars(args, bound, k);
    var bound' := bound + DirectVars(args);
    assert PlanJoin(ps, bound, k, h, cfg) == PlanAtom(ps[0].pred, args, ps, bound, k, h, cfg);
    var body := PlanJoin(ps[1..], bound', scan.next, h, cfg).value;
    var inner := ApplyConstraints(args, scan.vars, body).value;
    var src := AtomSource(ps[0].pred, args, bound, scan.vars, cfg);
    PlanScopedIff(ps[1..], bound', scan.next, h, cfg);
    forall b: set<Var> | InScope(b, bound) && FreshFree(b, k, inner.next)
      ensures Scoped(Iterate(src, inner.op), b) <==> WellPlaced(ps, bound, h)
    {
      AtomScopedAt(body, inner, ps, bound, k, h, cfg, b);
    }
  }

  lemma {:induction false} AtomScopedAt(body: Planned, inner: Planned, ps: seq<Premise>, bound: set<Var>, k: nat,
      h: Head, cfg: Config, b: set<Var>)
    requires ps != [] && ps[0].Atom? && ps[0].pred.IsRelation() && UserVars(TermsVars(ps[0].args))
    requires ScanVars(ps[0].args, bound, k).next <= body.next &&
             ApplyConstraints(ps[0].args, ScanVars(ps[0].args, bound, k).vars, body) == Ok(inner)
    requires RestScoped(body.op, ScanVars(ps[0].args, bound, k).next, body.next, ps[1..], BoundAfter(ps[0], bound), h)
    requires InScope(b, bound) && FreshFree(b, k, inner.next)
    ensures Scoped(Iterate(AtomSource(ps[0].pred, ps[0].args, bound, ScanVars(ps[0].args, bound, k).vars, cfg),
                           inner.op), b) <==>
            WellPlaced(ps, bound, h)
  {
    var args := ps[0].args;
    var scan := ScanVars(args, bound, k);
    var bound' := BoundAfter(ps[0], bound);
    AtomSourceScoped(ps[0].pred, args, bound, k, cfg, b);
    var b1 := b + VarSet(scan.vars);
    assert FreshFree(b1, body.next, inner.next);
    var b2 := ConstraintsScoped(args, scan.vars, body, b1);
    assert forall v :: v in b2 ==> v in b1 || v in b2 - b1;
    assert TermsVars(args) <= b1 <==> TermsVars(args) <= bound';
    assert InScope(b2, bound') && FreshFree(b2, scan.next, body.next);
    assert Scoped(body.op, b2) <==> WellPlaced(ps[1..], bound', h);
  }

  lemma {:induction false} AtomSourceScoped(pred: Pred, args: seq<Term>, bound: set<Var>, k: nat, cfg: Config,
      b: set<Var>)
    requires UserVars(TermsVars(args)) && InScope(b, bound) && FreshFree(b, k, ScanVars(args, bound, k).next)
    ensures var scan := ScanVars(args, bound, k);
            var src := AtomSource(pred, args, bound, scan.vars, cfg);
            && src.vars == scan.vars && SourceVars(src) <= b && VarSet(scan.vars) !! b
            && InScope(b + VarSet(scan.vars), bound + DirectVars(args))
            && (forall v :: v in VarSet(scan.vars) && v.Fresh? ==> InRange(v, k, scan.next))
  {
    var scan := ScanVars(args, bound, k);
    ScanVarsShape(args, bound, k);
    DirectAreVars(args);
    forall v | v in VarSet(scan.vars)
      ensures v !in b && (if v.User? then v in DirectVars(args) else InRange(v, k, scan.next))
    {
      var i :| 0 <= i < |scan.vars| && scan.vars[i] == v;
      if v.User? { assert args[i] == VarTerm(v) && args[i] in args; }
    }
    var look := FindLookup(args, bound, 0);
    if look.Some? {
      EvalOne(look.value.key, map[]);
      if look.value.key.OVar? {
        assert TermVars(args[look.value.col]) <= TermsVars(args);
        assert look.value.key.v in TermsVars(args);
      }
    }
  }

  lemma {:induction false} JoinScoped(ps: seq<Premise>, bound: set<Var>, k: nat, h: Head, cfg: Config)
    requires Planned'(ps, bound, k, h, cfg) && ps[0].Atom? && ps[0].pred.IsRelation() &&
             ChosenJoin(ps[0].args, ps, bound, cfg).Some?
    ensures RestScoped(PlanJoin(ps, bound, k, h, cfg).value.op, k, PlanJoin(ps, bound, k, h, cfg).value.next, ps,
                       bound, h)
    decreases |ps|, 0
  {
    var j := ChosenJoin(ps[0].args, ps, bound, cfg).value;
    var bound' := bound + VarSet(j.build) + VarSet(j.probe);
    PlannedJoin(ps, bound, k, h, cfg);
    JoinPlacedIff(ps, bound, h, cfg);
    hide PlanJoin, PlanAtom, ChosenJoin, WellPlaced, Scoped;
    var body := PlanJoin(ps[2..], bound', k, h, cfg).value;
    var op := HashJoin(ps[0].pred, j.build, j.probeRel, j.probe, j.keys, body.op);
    PlanScopedIff(ps[2..], bound', k, h, cfg);
    forall b: set<Var> | InScope(b, bound) && FreshFree(b, k, body.next)
      ensures Scoped(op, b) <==> WellPlaced(ps, bound, h)
    {
      JoinOpScoped(op, k, body.next, ps[2..], bound, h, b);
    }
  }

  lemma {:induction false} JoinOpScoped(op: Op, lo: nat, hi: nat, rest: seq<Premise>, bound: set<Var>, h: Head,
      b: set<Var>)
    requires op.HashJoin? && forall v :: v in op.keys ==> v in op.buildVars && v in op.probeVars
    requires RestScoped(op.body, lo, hi, rest, bound + VarSet(op.buildVars) + VarSet(op.probeVars), h)
    requires forall v :: v in VarSet(op.buildVars) + VarSet(op.probeVars) ==> v.User? && v !in bound
    requires InScope(b, bound) && FreshFree(b, lo, hi)
    ensures Scoped(op, b) <==> WellPlaced(rest, bound + VarSet(op.buildVars) + VarSet(op.probeVars), h)
  {
    hide WellPlaced;
    var b' := b + VarSet(op.buildVars) + VarSet(op.probeVars);
    assert InScope(b', bound + VarSet(op.buildVars) + VarSet(op.probeVars)) && FreshFree(b', lo, hi);
  }

  lemma {:induction false} JoinPlacedIff(ps: seq<Premise>, bound: set<Var>, h: Head, cfg: Config)
    requires ps != [] && UserVars(PremisesVars(ps)) && JoinsRelations(ps, bound, cfg) && ps[0].Atom? &&
             ps[0].pred.IsRelation()
    requires ChosenJoin(ps[0].args, ps, bound, cfg).Some?
    ensures var j := ChosenJoin(ps[0].args, ps, bound, cfg).value;
            var bound' := bound + VarSet(j.build) + VarSet(j.probe);
            && (WellPlaced(ps, bound, h) <==> WellPlaced(ps[2..], bound', h))
            && UserVars(PremisesVars(ps[2..]))
            && (forall v :: v in VarSet(j.build) + VarSet(j.probe) ==> v.User? && v !in bound)
            && (forall v :: v in j.keys ==> v in j.build && v in j.probe)
            && JoinsRelations(ps[2..], bound', cfg)
  {
    var j := ChosenJoin(ps[0].args, ps, bound, cfg).value;
    var bound' := bound + VarSet(j.build) + VarSet(j.probe);
    AtomSteps.AllFreshShape(ps[0].args, bound);
    AtomSteps.AllFreshShape(ps[1].args, bound);
    var tail := ps[1..];
    assert tail[0] == ps[1] && tail[1..] == ps[2..];
    assert PremisesVars(ps) == PremiseVars(ps[0]) + PremisesVars(tail);
    assert PremisesVars(tail) == PremiseVars(ps[1]) + PremisesVars(ps[2..]);
    assert BoundAfter(ps[1], BoundAfter(ps[0], bound)) == bound';
    assert WellPlaced(ps, bound, h) <==> WellPlaced(tail, BoundAfter(ps[0], bound), h);
    forall v | v in VarSet(j.build) + VarSet(j.probe) ensures v.User? && v !in bound {
      if v in VarSet(j.build) {
        var i :| 0 <= i < |j.build| && j.build[i] == v;
      } else {
        var i :| 0 <= i < |j.probe| && j.probe[i] == v;
      }
    }
  }

  // ----- Whole rules -----

  /** For an accepted rule, the plan reads only bound variables exactly when the variables
      inside compound arguments of its positive atoms are bound by then. */
  lemma {:induction false} RuleScopedIff(r: Rule, cfg: Config)
    requires Parsed(r) && Accepts(r) && PlanOf(r, cfg).Ok? && RelationJoins(r, cfg)
    ensures Scoped(PlanOf(r, cfg).value, {}) <==> AllCompoundReady(Delayed(r.premises), {})
  {
    AcceptedIsPlaced(r);
    DelayedUser(r);
    var ps := Delayed(r.premises);
    PlanScopedIff(ps, {}, 0, r.head, cfg);
    var planned := PlanJoin(ps, {}, 0, r.head, cfg).value;
    var none: set<Var> := {};
    assert InScope(none, {}) && FreshFree(none, 0, planned.next);
  }

  /** The interpreter, with its one environment, inserts exactly what the premises of a safe
      rule make derivable, whether its plan is full or for a delta. */
  lemma {:induction false} InterpreterCorrect(r: Rule, cfg: Config, m: Machine)
    requires Safe(r) && PlanOf(r, cfg).Ok? && RelationJoins(r, cfg) && m.IndexSound()
    ensures var run := Exec(PlanOf(r, cfg).value, map[], m);
            && (m.Total() ==> run.Ok?)
            && (run.Ok? ==> forall f :: f in run.value.facts <==>
                                        Derivable(Delayed(r.premises), {}, r.head, map[], cfg.delta, f, m))
  {
    RuleScopedIff(r, cfg);
    PlanCorrectFor(r, cfg, m);
    ExecRefines(PlanOf(r, cfg).value, {}, map[], map[], m);
  }

  lemma {:induction false} InterpreterExact(r: Rule, hashJoin: bool, m: Machine)
    requires Safe(r) && PlanOf(r, Config(None, hashJoin)).Ok? && RelationJoins(r, Config(None, hashJoin)) &&
             m.IndexSound()
    ensures var run := Exec(PlanOf(r, Config(None, hashJoin)).value, map[], m);
            && (m.Total() ==> run.Ok?)
            && (run.Ok? ==> forall f :: f in run.value.facts <==> Derives(r, f, m))
  {
    InterpreterCorrect(r, Config(None, hashJoin), m);
    forall f { DerivableMeans(r, f, m); }
  }

}
