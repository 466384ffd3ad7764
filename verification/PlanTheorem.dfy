/** The steps of the join sequence that bind variables, and the theorem: whatever mix of
    scans, index lookups, delta scans, hash joins, repeated variables, let-bindings, list and
    struct access and negation the planner chooses, the plan inserts exactly what is derivable. */
module PlanTheorem {
  import opened Datalog
  import opened Interp
  import opened Planner
  import opened Lowering
  import opened PlanCorrect

  // ----- Let-bindings -----

  lemma {:induction false} LetStep(b: (Var, Term), l: Lowered, k: nat, body: Op, ps: seq<Premise>, bound: set<Var>,
      h: Head, env: Env, delta: Option<Pred>, m: Machine)
    requires ps != [] && ps[0].Equal? && EqBinding(ps[0].l, ps[0].r, bound) == Some(b)
    requires Ok(l) == if b.1.Apply? then LowerTerms(b.1.args, k) else LowerTerm(b.1, k)
    requires UserVars(PremiseVars(ps[0])) && TermVars(b.1) <= bound && Fits(env, bound)
    requires RestCorrect(body, ps[1..], bound + {b.0}, h, delta, m)
    ensures Correct(WrapLets(l.lets, Let(b.0, BoundExpr(b.1, l.values), body)), ps, bound, h, env, delta, m)
  {
    var expr := BoundExpr(b.1, l.values);
    var op := WrapLets(l.lets, Let(b.0, expr, body));
    EvalTermsOne(b.1, env, m);
    if b.1.Apply? { LowerTermsCorrect(b.1.args, k, env, m); } else { LowerTermCorrect(b.1, k, env, m); }
    if m.Total() {
      if b.1.Apply? { TotalTerms(b.1.args, k, env, m); } else { TotalTerm(b.1, k, env, m); }
    }
    RunWrapLets(l.lets, Let(b.0, expr, body), env, m);
    if RunLets(l.lets, env, m).Ok? {
      var e := RunLets(l.lets, env, m).value;
      if !b.1.Apply? {
        assert l.values == [l.values[0]];
        EvalOne(l.values[0], e);
      }
      assert EvalExpr(expr, e, m) == EvalTerm(b.1, env, m);
      if EvalTerm(b.1, env, m).Ok? {
        var x := EvalTerm(b.1, env, m).value;
        EvalTermAgree(b.1, env, e, m);
        EqualCovers(b, x, ps[0], bound, e, RowsFor(ps[0], bound, delta, m), m);
        CoversStep(Let(b.0, expr, body), [e[b.0 := x]], body, ps, bound, h, e, delta, m);
        WrapStep(op, Let(b.0, expr, body), ps, bound, h, env, e, delta, m);
      } else {
        FailStep(op, ps, bound, h, env, delta, m);
      }
    }
  }

  lemma {:induction false} EqualCovers(b: (Var, Term), x: Value, p: Premise, bound: set<Var>, e: Env, rows: seq<Tuple>,
      m: Machine)
    requires p.Equal? && EqBinding(p.l, p.r, bound) == Some(b) && UserVars(PremiseVars(p))
    requires TermVars(b.1) <= bound && Fits(e, bound) && EvalTerm(b.1, e, m) == Ok(x)
    ensures Covers([e[b.0 := x]], p, e, rows, m)
  {
    var e' := e[b.0 := x];
    forall sigma ensures EvalTerms([p.l, p.r], sigma, m).Ok? ==> b.0 in sigma {
      PairTerms(p.l, p.r, sigma, m);
    }
    forall sigma | Extends(sigma, e)
      ensures HoldsIn(p, sigma, rows, m) <==> Extends(sigma, e')
    {
      PairTerms(p.l, p.r, sigma, m);
      EvalTermAgree(b.1, sigma, e, m);
    }
    assert forall sigma :: Extends(sigma, e') ==> Extends(sigma, e);
    assert e' in [e'];
  }

  // ----- Premises whose variables are all bound -----

  /** The plan runs the body, possibly more than once, when the premise holds. */
  lemma {:induction false} CheckStep(op: Op, envs: seq<Env>, body: Op, ps: seq<Premise>, bound: set<Var>, h: Head,
      env: Env, delta: Option<Pred>, m: Machine)
    requires ps != [] && UserVars(PremiseVars(ps[0])) && PremiseVars(ps[0]) <= bound && Fits(env, bound)
    requires Run(op, env, m) == RunAll(envs, body, m)
    requires forall e :: e in envs ==> SameUser(env, e)
    requires HoldsIn(ps[0], env, RowsFor(ps[0], bound, delta, m), m) <==> envs != []
    requires BoundAfter(ps[0], bound) == bound && RestCorrect(body, ps[1..], bound, h, delta, m)
    ensures Correct(op, ps, bound, h, env, delta, m)
  {
    RunAllOk(envs, body, m);
    assert forall e :: e in envs ==> Fits(e, bound);
    assert forall e :: e in envs ==> Correct(body, ps[1..], bound, h, e, delta, m);
    if Run(op, env, m).Ok? {
      forall f ensures f in Run(op, env, m).value <==> Derivable(ps, bound, h, env, delta, f, m) {
        RunAllFacts(envs, body, m, f);
        SplitTest(ps, bound, h, env, delta, f, m);
        forall e | e in envs { DerivableSame(ps[1..], bound, h, env, e, delta, f, m); }
        if envs != [] { assert envs[0] in envs; }
      }
    }
  }

  /** Environments in which the planner variable holds the expected value. */
  function Hits(envs: seq<Env>, tmp: Var, y: Value): (r: seq<Env>)
    requires forall e :: e in envs ==> tmp in e
    ensures forall e :: e in r <==> e in envs && e[tmp] == y
  {
    if envs == [] then []
    else
      assert envs[0] in envs;
      assert forall e :: e in envs[1..] ==> e in envs;
      (if envs[0][tmp] == y then [envs[0]] else []) + Hits(envs[1..], tmp, y)
  }

  /** A loop whose body compares a planner variable runs as a loop over the hits. */
  lemma {:induction false} RunHits(envs: seq<Env>, tmp: Var, o: Operand, y: Value, body: Op, m: Machine)
    requires forall e :: e in envs ==> tmp in e && EvalOperand(o, e) == Ok(y)
    ensures RunAll(envs, Filter(Cmp(Eq, OVar(tmp), o), body), m) == RunAll(Hits(envs, tmp, y), body, m)
    decreases |envs|
  {
    if envs != [] {
      var test := Filter(Cmp(Eq, OVar(tmp), o), body);
      assert envs[0] in envs;
      RunHits(envs[1..], tmp, o, y, body, m);
      PairOperands(OVar(tmp), o, envs[0]);
      RunFilter(test.cond, body, envs[0], m);
      var rest := Hits(envs[1..], tmp, y);
      if envs[0][tmp] == y {
        assert Hits(envs, tmp, y) == [envs[0]] + rest;
        assert ([envs[0]] + rest)[1..] == rest;
      } else {
        assert Hits(envs, tmp, y) == [] + rest == rest;
        if RunAll(rest, body, m).Ok? {
          assert {} + RunAll(rest, body, m).value == RunAll(rest, body, m).value;
        }
      }
    }
  }

  /** A planner variable numbered before the lowering started does not occur in its operands. */
  lemma {:induction false} OperandKept(l: Lowered, i: nat, ts: seq<Term>, k: nat, tmp: Var, e: Env)
    requires LowerTerms(ts, k) == Ok(l) && i < |ts| && tmp.Fresh? && tmp.id < k && UserVars(TermsVars(ts))
    ensures forall x {:trigger e[tmp := x]} :: EvalOperand(l.values[i], e[tmp := x]) == EvalOperand(l.values[i], e)
  {
    LowerTermsVars(ts, k);
    OperandVarsAt(l.values, i);
  }

  lemma {:induction false} OperandVarsAt(vs: seq<Operand>, i: nat)
    requires i < |vs|
    ensures vs[i].OVar? ==> vs[i].v in OperandVars(vs)
  {
    if i > 0 { OperandVarsAt(vs[1..], i - 1); }
  }

  // ----- Struct fields -----

  lemma {:induction false} FieldVars(args: seq<Term>)
    requires |args| == 3 && args[1].ConstTerm?
    ensures TermsVars(args) == TermVars(args[0]) + TermVars(args[2])
  {
    assert args[1..] == [args[1], args[2]];
    PairVars(args[1], args[2]);
  }

  ghost predicate FieldPremise(p: Premise) {
    p.Atom? && p.pred.MatchField? && |p.args| == 3 && p.args[1].ConstTerm? && p.args[1].c.CName?
  }

  lemma {:induction false} FieldBindStep(l: Lowered, k: nat, body: Op, ps: seq<Premise>, bound: set<Var>, h: Head,
      env: Env, delta: Option<Pred>, m: Machine)
    requires ps != [] && FieldPremise(ps[0]) && LowerTerm(ps[0].args[0], k) == Ok(l)
    requires UserVars(PremiseVars(ps[0])) && Ready(ps[0], bound) && Fits(env, bound) &&
             IsUnboundVar(ps[0].args[2], bound)
    requires RestCorrect(body, ps[1..], bound + {ps[0].args[2].v}, h, delta, m)
    ensures Correct(WrapLets(l.lets, BindField(l.values[0], ps[0].args[1].c.name, ps[0].args[2].v, body)), ps, bound,
                    h, env, delta, m)
  {
    var args := ps[0].args;
    FieldVars(args);
    var out, field := args[2].v, args[1].c.name;
    var inner := BindField(l.values[0], field, out, body);
    LowerTermCorrect(args[0], k, env, m);
    EvalTermsOne(args[0], env, m);
    RunWrapLets(l.lets, inner, env, m);
    if m.Total() { TotalTerm(args[0], k, env, m); }
    if RunLets(l.lets, env, m).Ok? {
      var e := RunLets(l.lets, env, m).value;
      assert l.values == [l.values[0]];
      EvalOne(l.values[0], e);
      var s := EvalTerm(args[0], env, m).value;
      var found := FieldOf(s, field);
      var envs := if found.Some? then [e[out := found.value]] else [];
      assert Branches(inner, e, m) == Ok(envs);
      EvalTermAgree(args[0], env, e, m);
      FieldCovers(args, s, envs, e, bound, RowsFor(ps[0], bound, delta, m), m);
      CoversStep(inner, envs, body, ps, bound, h, e, delta, m);
      WrapStep(WrapLets(l.lets, inner), inner, ps, bound, h, env, e, delta, m);
    }
  }

  lemma {:induction false} FieldCovers(args: seq<Term>, s: Value, envs: seq<Env>, e: Env, bound: set<Var>,
      rows: seq<Tuple>, m: Machine)
    requires |args| == 3 && args[1].ConstTerm? && args[1].c.CName? && IsUnboundVar(args[2], bound) && args[2].v.User?
    requires UserVars(TermVars(args[0])) && TermVars(args[0]) <= bound && Fits(e, bound) &&
             EvalTerm(args[0], e, m) == Ok(s)
    requires var found := FieldOf(s, args[1].c.name);
             envs == if found.Some? then [e[args[2].v := found.value]] else []
    ensures Covers(envs, Atom(MatchField, args), e, rows, m)
  {
    var p := Atom(MatchField, args);
    var out := args[2].v;
    forall sigma | Extends(sigma, e)
      ensures HoldsIn(p, sigma, rows, m) <==> out in sigma && FieldOf(s, args[1].c.name) == Some(sigma[out])
    {
      FieldArgs(args, sigma, m);
      PairTerms(args[0], args[2], sigma, m);
      EvalTermAgree(args[0], sigma, e, m);
    }
    if envs != [] {
      assert envs[0] in envs;
      assert forall sigma :: Extends(sigma, envs[0]) ==> Extends(sigma, e);
      assert forall sigma ::
             Extends(sigma, e) && out in sigma && sigma[out] == envs[0][out] ==> Extends(sigma, envs[0]);
    }
  }

  lemma {:induction false} FieldCheckStep(l: Lowered, k: nat, tmp: Var, body: Op, ps: seq<Premise>, bound: set<Var>,
      h: Head, env: Env, delta: Option<Pred>, m: Machine)
    requires ps != [] && FieldPremise(ps[0]) && LowerTerms([ps[0].args[0], ps[0].args[2]], k) == Ok(l)
    requires UserVars(PremiseVars(ps[0])) && Ready(ps[0], bound) && Fits(env, bound) &&
             !IsUnboundVar(ps[0].args[2], bound)
    requires tmp.Fresh? && tmp.id < k && RestCorrect(body, ps[1..], bound, h, delta, m)
    ensures Correct(WrapLets(l.lets,
                             BindField(l.values[0], ps[0].args[1].c.name, tmp,
                                       Filter(Cmp(Eq, OVar(tmp), l.values[1]), body))),
                    ps, bound, h, env, delta, m)
  {
    hide LowerTerms, Run, RunLets, WrapLets, Correct, RestCorrect;
    var args := ps[0].args;
    var ts := [args[0], args[2]];
    FieldVars(args);
    PairVars(args[0], args[2]);
    LowerTermsCorrect(ts, k, env, m);
    if m.Total() { TotalTerms(ts, k, env, m); }
    var inner := BindField(l.values[0], args[1].c.name, tmp, Filter(Cmp(Eq, OVar(tmp), l.values[1]), body));
    RunWrapLets(l.lets, inner, env, m);
    if RunLets(l.lets, env, m).Ok? {
      var e := RunLets(l.lets, env, m).value;
      var xs := EvalTerms(ts, env, m).value;
      assert l.values == [l.values[0], l.values[1]];
      PairOperands(l.values[0], l.values[1], e);
      FieldArgs(args, env, m);
      OperandKept(l, 1, ts, k, tmp, e);
      HoldsInAgree(ps[0], env, e, RowsFor(ps[0], bound, delta, m), m);
      FieldCheckCore(l.values[0], l.values[1], xs[0], xs[1], tmp, body, ps, bound, h, e, delta, m);
      WrapStep(WrapLets(l.lets, inner), inner, ps, bound, h, env, e, delta, m);
    } else {
      FailStep(WrapLets(l.lets, inner), ps, bound, h, env, delta, m);
    }
  }

  lemma {:induction false} FieldCheckCore(o: Operand, o': Operand, s: Value, y: Value, tmp: Var, body: Op,
                                          ps: seq<Premise>, bound: set<Var>, h: Head, e: Env, delta: Option<Pred>,
                                          m: Machine)
    requires ps != [] && FieldPremise(ps[0]) && tmp.Fresh?
    requires UserVars(PremiseVars(ps[0])) && PremiseVars(ps[0]) <= bound && Fits(e, bound)
    requires EvalOperand(o, e) == Ok(s) && EvalOperand(o', e) == Ok(y)
    requires forall x {:trigger e[tmp := x]} :: EvalOperand(o', e[tmp := x]) == EvalOperand(o', e)
    requires HoldsIn(ps[0], e, RowsFor(ps[0], bound, delta, m), m) <==> FieldOf(s, ps[0].args[1].c.name) == Some(y)
    requires BoundAfter(ps[0], bound) == bound && RestCorrect(body, ps[1..], bound, h, delta, m)
    ensures Correct(BindField(o, ps[0].args[1].c.name, tmp, Filter(Cmp(Eq, OVar(tmp), o'), body)), ps, bound, h, e,
                    delta, m)
  {
    var field := ps[0].args[1].c.name;
    var inner := BindField(o, field, tmp, Filter(Cmp(Eq, OVar(tmp), o'), body));
    var found := FieldOf(s, field);
    var envs := if found.Some? then [e[tmp := found.value]] else [];
    assert Branches(inner, e, m) == Ok(envs);
    RunHits(envs, tmp, o', y, body, m);
    var hits := Hits(envs, tmp, y);
    if hits != [] { assert hits[0] in hits; }
    if envs != [] { assert envs[0] in envs; }
    CheckStep(inner, hits, body, ps, bound, h, e, delta, m);
  }

  // ----- List members -----

  ghost predicate MemberPremise(p: Premise) {
    p.Atom? && p.pred.ListMember? && |p.args| == 2
  }

  lemma {:induction false} MemberBindStep(l: Lowered, k: nat, body: Op, ps: seq<Premise>, bound: set<Var>, h: Head,
      env: Env, delta: Option<Pred>, m: Machine)
    requires ps != [] && MemberPremise(ps[0]) && LowerTerm(ps[0].args[1], k) == Ok(l)
    requires UserVars(PremiseVars(ps[0])) && Ready(ps[0], bound) && Fits(env, bound) &&
             IsUnboundVar(ps[0].args[0], bound)
    requires RestCorrect(body, ps[1..], bound + {ps[0].args[0].v}, h, delta, m)
    ensures Correct(WrapLets(l.lets, IterateList(l.values[0], ps[0].args[0].v, body)), ps, bound, h, env, delta, m)
  {
    var args := ps[0].args;
    assert args == [args[0], args[1]];
    PairVars(args[0], args[1]);
    var out := args[0].v;
    var inner := IterateList(l.values[0], out, body);
    LowerTermCorrect(args[1], k, env, m);
    EvalTermsOne(args[1], env, m);
    RunWrapLets(l.lets, inner, env, m);
    if m.Total() { TotalTerm(args[1], k, env, m); }
    if RunLets(l.lets, env, m).Ok? {
      var e := RunLets(l.lets, env, m).value;
      assert l.values == [l.values[0]];
      EvalOne(l.values[0], e);
      EvalTermAgree(args[1], env, e, m);
      MemberBindCore(l.values[0], EvalTerm(args[1], env, m).value, body, ps, bound, h, e, delta, m);
      WrapStep(WrapLets(l.lets, inner), inner, ps, bound, h, env, e, delta, m);
    }
  }

  lemma {:induction false} MemberBindCore(o: Operand, list: Value, body: Op, ps: seq<Premise>, bound: set<Var>,
      h: Head, e: Env, delta: Option<Pred>, m: Machine)
    requires ps != [] && MemberPremise(ps[0]) && IsUnboundVar(ps[0].args[0], bound) && ps[0].args[0].v.User?
    requires UserVars(TermVars(ps[0].args[1])) && TermVars(ps[0].args[1]) <= bound && Fits(e, bound)
    requires EvalOperand(o, e) == Ok(list) && EvalTerm(ps[0].args[1], e, m) == Ok(list)
    requires RestCorrect(body, ps[1..], bound + {ps[0].args[0].v}, h, delta, m)
    ensures Correct(IterateList(o, ps[0].args[0].v, body), ps, bound, h, e, delta, m)
  {
    var out, elems := ps[0].args[0].v, ListElems(list);
    var envs := BindElems(e, out, elems);
    forall e' ensures e' in envs <==> exists x :: x in elems && e' == e[out := x] {
      BindElemsMember(e, out, elems, e');
    }
    MemberCovers(ps[0].args, elems, envs, e, bound, RowsFor(ps[0], bound, delta, m), m);
    forall e' | e' in envs ensures Fits(e', bound + {out}) {
      var x :| x in elems && e' == e[out := x];
    }
    CoversStep(IterateList(o, out, body), envs, body, ps, bound, h, e, delta, m);
  }

  lemma {:induction false} MemberCovers(args: seq<Term>, elems: seq<Value>, envs: seq<Env>, e: Env, bound: set<Var>,
      rows: seq<Tuple>, m: Machine)
    requires |args| == 2 && IsUnboundVar(args[0], bound) && args[0].v.User?
    requires UserVars(TermVars(args[1])) && TermVars(args[1]) <= bound && Fits(e, bound)
    requires EvalTerm(args[1], e, m).Ok? && elems == ListElems(EvalTerm(args[1], e, m).value)
    requires forall e' :: e' in envs <==> exists x :: x in elems && e' == e[args[0].v := x]
    ensures Covers(envs, Atom(ListMember, args), e, rows, m)
  {
    var p := Atom(ListMember, args);
    var out := args[0].v;
    forall sigma | Extends(sigma, e)
      ensures HoldsIn(p, sigma, rows, m) <==> out in sigma && sigma[out] in elems
    {
      assert args == [args[0], args[1]];
      PairTerms(args[0], args[1], sigma, m);
      EvalTermAgree(args[1], sigma, e, m);
    }
    forall e', sigma | e' in envs && Extends(sigma, e') ensures Extends(sigma, e) && HoldsIn(p, sigma, rows, m) {
      var x :| x in elems && e' == e[out := x];
      assert out in e' && sigma[out] == x;
      assert Extends(sigma, e);
    }
    forall sigma | Extends(sigma, e) && HoldsIn(p, sigma, rows, m)
      ensures exists e' :: e' in envs && Extends(sigma, e')
    {
      var e' := e[out := sigma[out]];
      assert e' in envs && Extends(sigma, e');
    }
  }

  lemma {:induction false} MemberCheckStep(l: Lowered, k: nat, tmp: Var, body: Op, ps: seq<Premise>, bound: set<Var>,
      h: Head, env: Env, delta: Option<Pred>, m: Machine)
    requires ps != [] && MemberPremise(ps[0]) && LowerTerms([ps[0].args[1], ps[0].args[0]], k) == Ok(l)
    requires UserVars(PremiseVars(ps[0])) && Ready(ps[0], bound) && Fits(env, bound) &&
             !IsUnboundVar(ps[0].args[0], bound)
    requires tmp.Fresh? && tmp.id < k && RestCorrect(body, ps[1..], bound, h, delta, m)
    ensures Correct(WrapLets(l.lets, IterateList(l.values[0], tmp, Filter(Cmp(Eq, OVar(tmp), l.values[1]), body))), ps,
                    bound, h, env, delta, m)
  {
    var args := ps[0].args;
    var ts := [args[1], args[0]];
    assert args == [args[0], args[1]];
    PairVars(args[0], args[1]);
    PairVars(args[1], args[0]);
    PairTerms(args[0], args[1], env, m);
    PairTerms(args[1], args[0], env, m);
    LowerTermsCorrect(ts, k, env, m);
    if m.Total() { TotalTerms(ts, k, env, m); }
    var inner := IterateList(l.values[0], tmp, Filter(Cmp(Eq, OVar(tmp), l.values[1]), body));
    RunWrapLets(l.lets, inner, env, m);
    if RunLets(l.lets, env, m).Ok? {
      var e := RunLets(l.lets, env, m).value;
      var xs := EvalTerms(ts, env, m).value;
      assert l.values == [l.values[0], l.values[1]];
      PairOperands(l.values[0], l.values[1], e);
      OperandKept(l, 1, ts, k, tmp, e);
      HoldsInAgree(ps[0], env, e, RowsFor(ps[0], bound, delta, m), m);
      MemberCheckCore(l.values[0], l.values[1], xs[0], xs[1], tmp, body, ps, bound, h, e, delta, m);
      WrapStep(WrapLets(l.lets, inner), inner, ps, bound, h, env, e, delta, m);
    }
  }

  lemma {:induction false} MemberCheckCore(o: Operand, o': Operand, list: Value, y: Value, tmp: Var, body: Op,
                                           ps: seq<Premise>, bound: set<Var>, h: Head, e: Env, delta: Option<Pred>,
                                           m: Machine)
    requires ps != [] && MemberPremise(ps[0]) && tmp.Fresh?
    requires UserVars(PremiseVars(ps[0])) && PremiseVars(ps[0]) <= bound && Fits(e, bound)
    requires EvalOperand(o, e) == Ok(list) && EvalOperand(o', e) == Ok(y)
    requires forall x {:trigger e[tmp := x]} :: EvalOperand(o', e[tmp := x]) == EvalOperand(o', e)
    requires HoldsIn(ps[0], e, RowsFor(ps[0], bound, delta, m), m) <==> y in ListElems(list)
    requires BoundAfter(ps[0], bound) == bound && RestCorrect(body, ps[1..], bound, h, delta, m)
    ensures Correct(IterateList(o, tmp, Filter(Cmp(Eq, OVar(tmp), o'), body)), ps, bound, h, e, delta, m)
  {
    hide Correct, RestCorrect, UserVars, Run, RunAll;
    var hits := MemberHits(o, o', list, y, tmp, body, e, m);
    CheckStep(IterateList(o, tmp, Filter(Cmp(Eq, OVar(tmp), o'), body)), hits, body, ps, bound, h, e, delta, m);
  }

  /** A membership loop runs its body once for each element that is the expected value. */
  lemma {:induction false} MemberHits(o: Operand, o': Operand, list: Value, y: Value, tmp: Var, body: Op, e: Env,
      m: Machine) returns (hits: seq<Env>)
    requires tmp.Fresh? && EvalOperand(o, e) == Ok(list) && EvalOperand(o', e) == Ok(y)
    requires forall x {:trigger e[tmp := x]} :: EvalOperand(o', e[tmp := x]) == EvalOperand(o', e)
    ensures Run(IterateList(o, tmp, Filter(Cmp(Eq, OVar(tmp), o'), body)), e, m) == RunAll(hits, body, m)
    ensures forall e' :: e' in hits ==> SameUser(e, e')
    ensures hits != [] <==> y in ListElems(list)
  {
    var elems := ListElems(list);
    var envs := BindElems(e, tmp, elems);
    forall e' ensures e' in envs <==> exists x :: x in elems && e' == e[tmp := x] {
      BindElemsMember(e, tmp, elems, e');
    }
    RunHits(envs, tmp, o', y, body, m);
    hits := Hits(envs, tmp, y);
    if hits != [] { assert hits[0] in hits; }
    if y in elems { assert e[tmp := y] in envs; }
  }
}
