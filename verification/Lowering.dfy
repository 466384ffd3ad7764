/** Lowered terms compute the value of the term, and filters around a scan compare each
    column with its argument. */
module Lowering {
  import opened Datalog
  import opened Interp
  import opened Planner

  // ----- Environments up to the planner's own variables -----

  predicate InRange(v: Var, lo: nat, hi: nat) {
    v.Fresh? && lo <= v.id < hi
  }

  /** The environments differ only on planner variables numbered from `lo` up to `hi`. */
  ghost predicate SameOutside(e1: Env, e2: Env, lo: nat, hi: nat) {
    forall v :: !InRange(v, lo, hi) ==> (v in e1 <==> v in e2) && (v in e1 ==> e1[v] == e2[v])
  }

  /** The environments agree on the variables of the program. */
  ghost predicate SameUser(e1: Env, e2: Env) {
    forall v: Var :: v.User? ==> (v in e1 <==> v in e2) && (v in e1 ==> e1[v] == e2[v])
  }

  // ----- Sequences of let-bindings -----

  function RunLets(lets: seq<Binding>, env: Env, m: Machine): Result<Env>
    decreases |lets|
  {
    if lets == [] then Ok(env)
    else
      match EvalExpr(lets[0].expr, env, m)
      case Err => Err
      case Ok(x) => RunLets(lets[1..], env[lets[0].v := x], m)
  }

  lemma {:induction false} RunWrapLets(lets: seq<Binding>, body: Op, env: Env, m: Machine)
    ensures Run(WrapLets(lets, body), env, m) ==
            (match RunLets(lets, env, m)
             case Err => Err
             case Ok(e) => Run(body, e, m))
    decreases |lets|
  {
    if lets != [] {
      var op := WrapLets(lets, body);
      var inner := WrapLets(lets[1..], body);
      match EvalExpr(lets[0].expr, env, m)
      case Err =>
      case Ok(x) =>
        var env' := env[lets[0].v := x];
        RunWrapLets(lets[1..], body, env', m);
        RunOne(env', inner, m);
        assert Branches(op, env, m) == Ok([env']);
    }
  }

  lemma {:induction false} RunOne(e: Env, body: Op, m: Machine)
    ensures RunAll([e], body, m) == Run(body, e, m)
  {
    assert [e][1..] == [];
    assert RunAll([], body, m) == Ok({});
    if Run(body, e, m).Ok? {
      assert Run(body, e, m).value + {} == Run(body, e, m).value;
    }
  }

  lemma {:induction false} RunLetsConcat(a: seq<Binding>, b: seq<Binding>, env: Env, m: Machine)
    ensures RunLets(a + b, env, m) ==
            (match RunLets(a, env, m)
             case Err => Err
             case Ok(e) => RunLets(b, e, m))
    decreases |a|
  {
    if a == [] {
      assert a + b == b;
    } else {
      assert (a + b)[0] == a[0] && (a + b)[1..] == a[1..] + b;
      match EvalExpr(a[0].expr, env, m)
      case Err =>
      case Ok(x) => RunLetsConcat(a[1..], b, env[a[0].v := x], m);
    }
  }

  // ----- Operands -----

  function OperandVars(os: seq<Operand>): set<Var> {
    if os == [] then {} else (if os[0].OVar? then {os[0].v} else {}) + OperandVars(os[1..])
  }

  lemma {:induction false} EvalOperandsAgree(os: seq<Operand>, e1: Env, e2: Env)
    requires AgreeOn(OperandVars(os), e1, e2)
    ensures EvalOperands(os, e1) == EvalOperands(os, e2)
  {
    if os != [] {
      EvalOperandsAgree(os[1..], e1, e2);
    }
  }

  lemma {:induction false} EvalOperandsConcat(a: seq<Operand>, b: seq<Operand>, env: Env)
    ensures EvalOperands(a + b, env) ==
            (match EvalOperands(a, env)
             case Err => Err
             case Ok(vs) =>
               match EvalOperands(b, env)
               case Err => Err
               case Ok(ws) => Ok(vs + ws))
    ensures OperandVars(a + b) == OperandVars(a) + OperandVars(b)
  {
    if a == [] {
      assert a + b == b;
      if EvalOperands(b, env).Ok? {
        assert [] + EvalOperands(b, env).value == EvalOperands(b, env).value;
      }
    } else {
      assert (a + b)[0] == a[0] && (a + b)[1..] == a[1..] + b;
      EvalOperandsConcat(a[1..], b, env);
      if EvalOperand(a[0], env).Ok? && EvalOperands(a[1..], env).Ok? && EvalOperands(b, env).Ok? {
        var v, vs, ws := EvalOperand(a[0], env).value, EvalOperands(a[1..], env).value, EvalOperands(b, env).value;
        assert [v] + (vs + ws) == [v] + vs + ws;
      }
    }
  }

  lemma {:induction false} EvalOne(o: Operand, env: Env)
    ensures EvalOperands([o], env) == (match EvalOperand(o, env) case Err => Err case Ok(v) => Ok([v]))
    ensures OperandVars([o]) == if o.OVar? then {o.v} else {}
  {
    assert [o][1..] == [];
    assert EvalOperands([], env) == Ok([]);
    if EvalOperand(o, env).Ok? { assert [EvalOperand(o, env).value] + [] == [EvalOperand(o, env).value]; }
    assert OperandVars([]) == {};
  }

  // ----- Lowering computes the term -----

  /** What the lowering of terms with assigned variables does: the bindings run exactly
      when the terms have values, they touch only planner variables from `k` on, and the
      operands then hold the values. */
  ghost predicate LowersTo(ts: seq<Term>, l: Lowered, k: nat, env: Env, m: Machine) {
    var r := RunLets(l.lets, env, m);
    && (r.Ok? <==> EvalTerms(ts, env, m).Ok?)
    && (forall v :: v in OperandVars(l.values) ==> v in TermsVars(ts) || InRange(v, k, l.next))
    && (r.Ok? ==>
          && SameOutside(env, r.value, k, l.next)
          && EvalOperands(l.values, r.value) == EvalTerms(ts, env, m))
  }

  lemma {:induction false} LowerTermCorrect(t: Term, k: nat, env: Env, m: Machine)
    requires LowerTerm(t, k).Ok? && UserVars(TermVars(t)) && TermVars(t) <= env.Keys
    ensures LowersTo([t], LowerTerm(t, k).value, k, env, m)
    decreases t, 1
  {
    EvalTermsOne(t, env, m);
    match t
    case VarTerm(v) => EvalOne(OVar(v), env);
    case ConstTerm(c) => EvalOne(OConst(c), env);
    case Apply(f, args) => LowerCallCorrect("call", f, args, k, env, m);
    case Literal(kind, parts) => LowerCallCorrect(LiteralPrefix(kind), LiteralFn(kind), parts, k, env, m);
  }

  lemma {:induction false} EvalTermsOne(t: Term, env: Env, m: Machine)
    ensures EvalTerms([t], env, m) == (match EvalTerm(t, env, m) case Err => Err case Ok(v) => Ok([v]))
    ensures TermsVars([t]) == TermVars(t)
  {
    assert [t][1..] == [];
    assert EvalTerms([], env, m) == Ok([]);
    if EvalTerm(t, env, m).Ok? { assert [EvalTerm(t, env, m).value] + [] == [EvalTerm(t, env, m).value]; }
    assert TermsVars([]) == {};
  }

  lemma {:induction false} LowerCallCorrect(prefix: string, f: string, args: seq<Term>, k: nat, env: Env, m: Machine)
    requires LowerCall(prefix, f, args, k).Ok? && UserVars(TermsVars(args)) && TermsVars(args) <= env.Keys
    ensures var l := LowerCall(prefix, f, args, k).value;
            var r := RunLets(l.lets, env, m);
            && (r.Ok? <==> EvalTerms(args, env, m).Ok? && m.fn(f, EvalTerms(args, env, m).value).Ok?)
            && (forall v :: v in OperandVars(l.values) ==> InRange(v, k, l.next))
            && (r.Ok? ==>
                  && SameOutside(env, r.value, k, l.next)
                  && EvalOperands(l.values, r.value) == Ok([m.fn(f, EvalTerms(args, env, m).value).value]))
    decreases args, 1
  {
    LowerTermsCorrect(args, k, env, m);
    var a := LowerTerms(args, k).value;
    var last := Binding(Fresh(prefix, a.next), Call(f, a.values));
    RunLetsConcat(a.lets, [last], env, m);
    if RunLets(a.lets, env, m).Ok? {
      var e := RunLets(a.lets, env, m).value;
      assert [last][1..] == [];
      match EvalExpr(last.expr, e, m)
      case Err => assert RunLets([last], e, m) == Err;
      case Ok(x) =>
        assert RunLets([last], e, m) == RunLets([], e[last.v := x], m) == Ok(e[last.v := x]);
        EvalOne(OVar(last.v), e[last.v := x]);
    }
    EvalOne(OVar(last.v), env);
  }

  lemma {:induction false} LowerTermsCorrect(ts: seq<Term>, k: nat, env: Env, m: Machine)
    requires LowerTerms(ts, k).Ok? && UserVars(TermsVars(ts)) && TermsVars(ts) <= env.Keys
    ensures LowersTo(ts, LowerTerms(ts, k).value, k, env, m)
    decreases ts, 0
  {
    if ts != [] {
      var a := LowerTerm(ts[0], k).value;
      var b := LowerTerms(ts[1..], a.next).value;
      LowerTermCorrect(ts[0], k, env, m);
      EvalTermsOne(ts[0], env, m);
      RunLetsConcat(a.lets, b.lets, env, m);
      EvalOperandsConcat(a.values, b.values, env);
      if RunLets(a.lets, env, m).Ok? {
        var e := RunLets(a.lets, env, m).value;
        LowerTermsCorrect(ts[1..], a.next, e, m);
        EvalTermsAgree(ts[1..], env, e, m);
        if RunLets(b.lets, e, m).Ok? {
          var e' := RunLets(b.lets, e, m).value;
          EvalOperandsConcat(a.values, b.values, e');
          EvalOperandsAgree(a.values, e, e');
        }
      }
      assert LowersTo(ts, LowerTerms(ts, k).value, k, env, m) by {
        assert forall v :: v in OperandVars(b.values) ==> v in TermsVars(ts[1..]) || InRange(v, a.next, b.next) by {
          LowerTermsVars(ts[1..], a.next);
        }
      }
    }
  }

  lemma {:induction false} LowerTermVars(t: Term, k: nat)
    requires LowerTerm(t, k).Ok?
    ensures forall v ::
            v in OperandVars(LowerTerm(t, k).value.values) ==>
            v in TermVars(t) || InRange(v, k, LowerTerm(t, k).value.next)
  {
    EvalOne(LowerTerm(t, k).value.values[0], map[]);
    assert LowerTerm(t, k).value.values == [LowerTerm(t, k).value.values[0]];
  }

  lemma {:induction false} LowerTermsVars(ts: seq<Term>, k: nat)
    requires LowerTerms(ts, k).Ok?
    ensures forall v ::
            v in OperandVars(LowerTerms(ts, k).value.values) ==>
            v in TermsVars(ts) || InRange(v, k, LowerTerms(ts, k).value.next)
    decreases |ts|
  {
    if ts != [] {
      var a := LowerTerm(ts[0], k).value;
      var b := LowerTerms(ts[1..], a.next).value;
      LowerTermVars(ts[0], k);
      LowerTermsVars(ts[1..], a.next);
      EvalOperandsConcat(a.values, b.values, map[]);
    }
  }

  // ----- Evaluation never fails on a total machine -----

  lemma {:induction false} TotalTerm(t: Term, k: nat, env: Env, m: Machine)
    requires m.Total() && LowerTerm(t, k).Ok? && TermVars(t) <= env.Keys
    ensures EvalTerm(t, env, m).Ok?
    decreases t, 1
  {
    match t
    case Apply(_, args) => TotalTerms(args, k, env, m);
    case Literal(_, parts) => TotalTerms(parts, k, env, m);
    case _ =>
  }

  lemma {:induction false} TotalTerms(ts: seq<Term>, k: nat, env: Env, m: Machine)
    requires m.Total() && LowerTerms(ts, k).Ok? && TermsVars(ts) <= env.Keys
    ensures EvalTerms(ts, env, m).Ok?
    decreases ts, 0
  {
    if ts != [] {
      TotalTerm(ts[0], k, env, m);
      TotalTerms(ts[1..], LowerTerm(ts[0], k).value.next, env, m);
    }
  }

  // ----- Scan variables -----

  lemma {:induction false} ScanVarsShape(args: seq<Term>, bound: set<Var>, k: nat)
    requires UserVars(TermsVars(args))
    ensures var s := ScanVars(args, bound, k);
            && Distinct(s.vars)
            && (forall i :: 0 <= i < |args| ==>
                  if s.vars[i].User? then args[i] == VarTerm(s.vars[i]) && s.vars[i] !in bound
                  else InRange(s.vars[i], k, s.next))
            && (forall v :: v in DirectVars(args) && v !in bound ==> v in s.vars)
    decreases |args|
  {
    if args != [] {
      if IsUnboundVar(args[0], bound) {
        var bound' := bound + {args[0].v};
        ScanVarsShape(args[1..], bound', k);
        var rest := ScanVars(args[1..], bound', k);
        assert args[0].v in TermsVars(args);
        assert args[0].v !in rest.vars;
        forall v | v in DirectVars(args) && v !in bound ensures v in [args[0].v] + rest.vars {
          if v != args[0].v { assert v in rest.vars; }
        }
      } else {
        ScanVarsShape(args[1..], bound, k + 1);
        var rest := ScanVars(args[1..], bound, k + 1);
        assert Fresh("scan", k) !in rest.vars;
        forall v | v in DirectVars(args) && v !in bound ensures v in [Fresh("scan", k)] + rest.vars {
          assert v in rest.vars;
        }
      }
    }
  }

  lemma {:induction false} DirectAreVars(args: seq<Term>)
    ensures DirectVars(args) <= TermsVars(args)
    ensures forall v :: v in DirectVars(args) <==> VarTerm(v) in args
    ensures forall i :: 0 <= i < |args| ==> TermVars(args[i]) <= TermsVars(args)
    decreases |args|
  {
    if args != [] {
      DirectAreVars(args[1..]);
      SplitHead(args);
      forall i | 0 <= i < |args| ensures TermVars(args[i]) <= TermsVars(args) {
        if i > 0 { assert args[i] == args[1..][i - 1]; }
      }
    }
  }

  // ----- Filters around a scan -----

  /** Each argument evaluates to the value of its column. */
  ghost predicate Passes(args: seq<Term>, vars: seq<Var>, e: Env, m: Machine)
    requires |vars| == |args| && forall v :: v in vars ==> v in e
  {
    forall i :: 0 <= i < |args| ==> EvalTerm(args[i], e, m) == Ok(e[vars[i]])
  }

  /** The filters run the body, in an environment extended by planner variables only, when
      every argument matches its column, and otherwise insert nothing. */
  lemma {:induction false} ConstraintsRun(args: seq<Term>, vars: seq<Var>, body: Planned, e: Env, m: Machine)
      returns (e': Env)
    requires |vars| == |args| && ApplyConstraints(args, vars, body).Ok?
    requires UserVars(TermsVars(args)) && TermsVars(args) <= e.Keys
    requires forall v :: v in vars ==> v in e && !(v.Fresh? && v.id >= body.next)
    ensures var op := ApplyConstraints(args, vars, body).value.op;
            && SameOutside(e, e', body.next, ApplyConstraints(args, vars, body).value.next)
            && (Passes(args, vars, e, m) ==> Run(op, e, m) == Run(body.op, e', m))
            && (!Passes(args, vars, e, m) && Run(op, e, m).Ok? ==> Run(op, e, m).value == {})
            && (!Passes(args, vars, e, m) && m.Total() ==> Run(op, e, m).Ok?)
    decreases |args|
  {
    if args == [] {
      e' := e;
    } else {
      var n := |args| - 1;
      var inner := Constrain(args[n], vars[n], body).value;
      DirectAreVars(args);
      InitVars(args, n);
      PassesInit(args, vars, e, m, n);
      var e1 := ConstraintsRun(args[..n], vars[..n], inner, e, m);
      assert vars[n] in vars;
      assert TermVars(args[n]) <= TermsVars(args);
      EvalTermAgree(args[n], e, e1, m);
      e' := ConstrainRun(args[n], vars[n], body, e1, m);
    }
  }

  lemma {:induction false} PassesInit(args: seq<Term>, vars: seq<Var>, e: Env, m: Machine, n: nat)
    requires |vars| == |args| == n + 1 && forall v :: v in vars ==> v in e
    ensures forall v :: v in vars[..n] ==> v in vars
    ensures Passes(args, vars, e, m) <==>
            Passes(args[..n], vars[..n], e, m) && EvalTerm(args[n], e, m) == Ok(e[vars[n]])
  {
    assert forall i :: 0 <= i < n ==> args[..n][i] == args[i] && vars[..n][i] == vars[i];
    if Passes(args[..n], vars[..n], e, m) && EvalTerm(args[n], e, m) == Ok(e[vars[n]]) {
      forall i | 0 <= i < |args| ensures EvalTerm(args[i], e, m) == Ok(e[vars[i]]) {
        if i < n { assert EvalTerm(args[..n][i], e, m) == Ok(e[vars[..n][i]]); }
      }
    }
  }

  lemma {:induction false} InitVars(args: seq<Term>, n: nat)
    requires n <= |args|
    ensures TermsVars(args[..n]) <= TermsVars(args)
    decreases n
  {
    if n > 0 {
      assert args[..n][0] == args[0] && args[..n][1..] == args[1..][..n - 1];
      InitVars(args[1..], n - 1);
    }
  }

  lemma {:induction false} ConstrainRun(arg: Term, v: Var, body: Planned, e: Env, m: Machine) returns (e': Env)
    requires Constrain(arg, v, body).Ok?
    requires UserVars(TermVars(arg)) && TermVars(arg) <= e.Keys
    requires v in e && !(v.Fresh? && v.id >= body.next)
    ensures var op := Constrain(arg, v, body).value.op;
            var hit := EvalTerm(arg, e, m) == Ok(e[v]);
            && SameOutside(e, e', body.next, Constrain(arg, v, body).value.next)
            && (hit ==> Run(op, e, m) == Run(body.op, e', m))
            && (!hit && Run(op, e, m).Ok? ==> Run(op, e, m).value == {})
            && (!hit && m.Total() ==> Run(op, e, m).Ok?)
  {
    e' := e;
    if arg != VarTerm(v) {
      var l := LowerTerm(arg, body.next).value;
      var test := Filter(Cmp(Eq, OVar(v), l.values[0]), body.op);
      RunWrapLets(l.lets, test, e, m);
      LowerTermCorrect(arg, body.next, e, m);
      EvalTermsOne(arg, e, m);
      if m.Total() { TotalTerm(arg, body.next, e, m); }
      if RunLets(l.lets, e, m).Ok? {
        e' := RunLets(l.lets, e, m).value;
        assert l.values == [l.values[0]];
        EvalOne(l.values[0], e');
        PairOperands(OVar(v), l.values[0], e');
        RunFilter(test.cond, body.op, e', m);
      }
    }
  }

  lemma {:induction false} PairOperands(a: Operand, b: Operand, e: Env)
    ensures EvalOperands([a, b], e) ==
            (match EvalOperand(a, e) case Err => Err
             case Ok(x) => match EvalOperand(b, e) case Err => Err case Ok(y) => Ok([x, y]))
  {
    assert [a, b][1..] == [b];
    EvalOne(b, e);
    if EvalOperand(a, e).Ok? && EvalOperand(b, e).Ok? {
      assert [EvalOperand(a, e).value] + [EvalOperand(b, e).value] ==
             [EvalOperand(a, e).value, EvalOperand(b, e).value];
    }
  }

  lemma {:induction false} RunFilter(c: Cond, body: Op, e: Env, m: Machine)
    ensures Run(Filter(c, body), e, m) ==
            (match EvalCond(c, e, m) case Err => Err
             case Ok(b) => if b then Run(body, e, m) else Ok({}))
  {
    RunOne(e, body, m);
    assert RunAll([], body, m) == Ok({});
  }
}
