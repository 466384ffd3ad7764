/** Scoping of plans: which plans read only variables that are bound, and why the
    interpreter's single mutable environment is then as good as a scoped one. */
module Scope {
  import opened Datalog
  import opened Interp
  import opened Planner
  import opened Lowering
  function CondVars(c: Cond): set<Var> {
    match c
    case Cmp(_, l, r) => OperandVars([l, r])
    case Negation(_, args) => OperandVars(args)
    case CallCheck(_, args) => OperandVars(args)
    case Not(inner) => CondVars(inner)
  }

  function ExprVars(e: Expr): set<Var> {
    match e
    case ValueOf(o) => OperandVars([o])
    case Call(_, args) => OperandVars(args)
  }

  function SourceVars(src: Source): set<Var> {
    if src.IndexLookup? then OperandVars([src.key]) else {}
  }

  /** Every variable is bound before it is read, and none is bound twice on a path. */
  predicate Scoped(op: Op, b: set<Var>) {
    match op
    case Nop => true
    case Insert(_, args) => OperandVars(args) <= b
    case Filter(c, body) => CondVars(c) <= b && Scoped(body, b)
    case Let(v, e, body) => ExprVars(e) <= b && v !in b && Scoped(body, b + {v})
    case Iterate(src, body) => SourceVars(src) <= b && VarSet(src.vars) !! b && Scoped(body, b + VarSet(src.vars))
    case HashJoin(_, build, _, probe, keys, body) =>
      && (forall k :: k in keys ==> k in build && k in probe)
      && VarSet(build) + VarSet(probe) !! b && Scoped(body, b + VarSet(build) + VarSet(probe))
    case BindField(o, _, v, body) => OperandVars([o]) <= b && v !in b && Scoped(body, b + {v})
    case IterateList(o, v, body) => OperandVars([o]) <= b && v !in b && Scoped(body, b + {v})
  }

  // ----- The interpreter's environment -----

  datatype Outcome = Outcome(env: Env, facts: set<Fact>)

  function Then(o: Outcome, rest: Result<Outcome>): Result<Outcome> {
    match rest
    case Err => Err
    case Ok(p) => Ok(Outcome(p.env, o.facts + p.facts))
  }

  /** The interpreter: bindings overwrite, and stay after the loop that made them; only
      struct and list access remove theirs. */
  function Exec(op: Op, env: Env, m: Machine): Result<Outcome>
    decreases op, 0, 0
  {
    match op
    case Nop => Ok(Outcome(env, {}))
    case Insert(rel, args) =>
      (match EvalOperands(args, env)
       case Err => Err
       case Ok(vs) => Ok(Outcome(env, {Fact(rel, vs)})))
    case Filter(c, body) =>
      (match EvalCond(c, env, m)
       case Err => Err
       case Ok(hit) => if hit then Exec(body, env, m) else Ok(Outcome(env, {})))
    case Let(v, e, body) =>
      (match EvalExpr(e, env, m)
       case Err => Err
       case Ok(x) => Exec(body, env[v := x], m))
    case Iterate(src, body) =>
      (match SourceRows(src, env, m)
       case Err => Err
       case Ok(rows) => ExecRows(rows, src.vars, body, env, m))
    case HashJoin(buildRel, buildVars, probeRel, probeVars, keys, body) =>
      if forall k :: k in keys ==> k in buildVars && k in probeVars then
        ExecProbe(m.full(probeRel), probeVars, m.full(buildRel), buildVars, keys, body, env, m)
      else Err
    case BindField(o, field, v, body) =>
      (match EvalOperand(o, env)
       case Err => Err
       case Ok(s) =>
         match FieldOf(s, field)
         case None => Ok(Outcome(env, {}))
         case Some(x) =>
           match Exec(body, env[v := x], m)
           case Err => Err
           case Ok(r) => Ok(Outcome(r.env - {v}, r.facts)))
    case IterateList(o, v, body) =>
      match EvalOperand(o, env)
      case Err => Err
      case Ok(l) =>
        if !(l.Compound? && l.kind == ListKind) then Ok(Outcome(env, {}))
        else
          match ExecElems(l.elems, v, body, env, m)
          case Err => Err
          case Ok(r) => Ok(Outcome(r.env - {v}, r.facts))
  }

  function ExecRows(rows: seq<Tuple>, vars: seq<Var>, body: Op, env: Env, m: Machine): Result<Outcome>
    decreases body, 1, |rows|
  {
    if rows == [] then Ok(Outcome(env, {}))
    else if |rows[0]| != |vars| then ExecRows(rows[1..], vars, body, env, m)
    else
      match Exec(body, BindRow(env, vars, rows[0]), m)
      case Err => Err
      case Ok(r) => Then(r, ExecRows(rows[1..], vars, body, r.env, m))
  }

  function ExecElems(elems: seq<Value>, v: Var, body: Op, env: Env, m: Machine): Result<Outcome>
    decreases body, 1, |elems|
  {
    if elems == [] then Ok(Outcome(env, {}))
    else
      match Exec(body, env[v := elems[0]], m)
      case Err => Err
      case Ok(r) => Then(r, ExecElems(elems[1..], v, body, r.env, m))
  }

  function ExecProbe(probeRows: seq<Tuple>, probeVars: seq<Var>, buildRows: seq<Tuple>, buildVars: seq<Var>,
      keys: seq<Var>,
                     body: Op, env: Env, m: Machine): Result<Outcome>
    requires forall k :: k in keys ==> k in buildVars && k in probeVars
    decreases body, 2, |probeRows|
  {
    if probeRows == [] then Ok(Outcome(env, {}))
    else if |probeRows[0]| != |probeVars| then
    ExecProbe(probeRows[1..], probeVars, buildRows, buildVars, keys, body, env, m)
    else
      var bucket := Bucket(keys, buildVars, buildRows, KeyOf(keys, probeVars, probeRows[0]));
      if bucket == [] then ExecProbe(probeRows[1..], probeVars, buildRows, buildVars, keys, body, env, m)
      else
        match ExecRows(bucket, buildVars, body, BindRow(env, probeVars, probeRows[0]), m)
        case Err => Err
        case Ok(r) => Then(r, ExecProbe(probeRows[1..], probeVars, buildRows, buildVars, keys, body, r.env, m))
  }

  // ----- A scoped plan does not see leftover bindings -----

  /** Same facts or same failure, and the variables in scope keep their values. */
  ghost predicate Agrees(x: Result<Outcome>, env: Env, r: Result<set<Fact>>, b: set<Var>) {
    && (x.Ok? <==> r.Ok?)
    && (x.Ok? ==> x.value.facts == r.value && AgreeOn(b, x.value.env, env))
  }

  lemma {:induction false} EvalCondAgree(c: Cond, e1: Env, e2: Env, m: Machine)
    requires AgreeOn(CondVars(c), e1, e2)
    ensures EvalCond(c, e1, m) == EvalCond(c, e2, m)
    decreases c
  {
    match c
    case Cmp(_, l, r) => EvalOperandsAgree([l, r], e1, e2);
    case Negation(rel, args) => NoMatchAgree(m.full(rel), args, e1, e2);
    case CallCheck(_, args) => EvalOperandsAgree(args, e1, e2);
    case Not(inner) => EvalCondAgree(inner, e1, e2, m);
  }

  lemma {:induction false} NoMatchAgree(rows: seq<Tuple>, args: seq<Operand>, e1: Env, e2: Env)
    requires AgreeOn(OperandVars(args), e1, e2)
    ensures NoMatch(rows, args, e1) == NoMatch(rows, args, e2)
    decreases |rows|
  {
    if rows != [] {
      if |rows[0]| == |args| { MatchesRowAgree(rows[0], args, e1, e2); }
      NoMatchAgree(rows[1..], args, e1, e2);
    }
  }

  lemma {:induction false} MatchesRowAgree(row: Tuple, args: seq<Operand>, e1: Env, e2: Env)
    requires |row| == |args| && AgreeOn(OperandVars(args), e1, e2)
    ensures MatchesRow(row, args, e1) == MatchesRow(row, args, e2)
    decreases |args|
  {
    if args != [] { MatchesRowAgree(row[1..], args[1..], e1, e2); }
  }

  lemma {:induction false} BindRowAgree(e1: Env, e2: Env, vars: seq<Var>, row: Tuple, b: set<Var>)
    requires |vars| == |row| && AgreeOn(b, e1, e2)
    ensures AgreeOn(b + VarSet(vars), BindRow(e1, vars, row), BindRow(e2, vars, row))
    decreases |vars|
  {
    if vars == [] {
      assert b + VarSet(vars) == b;
    } else {
      BindRowAgree(e1[vars[0] := row[0]], e2[vars[0] := row[0]], vars[1..], row[1..], b + {vars[0]});
      assert b + {vars[0]} + VarSet(vars[1..]) == b + VarSet(vars);
    }
  }

  /** The interpreter and the scoped meaning agree on every scoped plan, from any two
      environments that agree on the variables in scope. */
  lemma {:induction false} ExecRefines(op: Op, b: set<Var>, env: Env, e: Env, m: Machine)
    requires Scoped(op, b) && AgreeOn(b, env, e)
    ensures Agrees(Exec(op, env, m), env, Run(op, e, m), b)
    decreases op, 0, 0
  {
    match op
    case Nop =>
    case Insert(_, args) => EvalOperandsAgree(args, env, e);
    case Filter(c, body) =>
      EvalCondAgree(c, env, e, m);
      RunFilter(c, body, e, m);
      ExecRefines(body, b, env, e, m);
    case Let(v, ex, body) =>
      EvalExprAgree(ex, b, env, e, m);
      if EvalExpr(ex, e, m).Ok? { BindRefines(v, EvalExpr(ex, e, m).value, body, b, env, e, m); }
    case Iterate(src, body) =>
      if src.IndexLookup? { EvalOperandAgree(src.key, b, env, e); }
      if SourceRows(src, e, m).Ok? { RowsRefine(SourceRows(src, e, m).value, src.vars, body, b, env, e, m); }
    case HashJoin(buildRel, buildVars, probeRel, probeVars, keys, body) =>
      ProbeRefines(m.full(probeRel), probeVars, m.full(buildRel), buildVars, keys, body, b, env, e, m);
    case BindField(o, field, v, body) =>
      EvalOperandAgree(o, b, env, e);
      if EvalOperand(o, e).Ok? && FieldOf(EvalOperand(o, e).value, field).Some? {
        BindRefines(v, FieldOf(EvalOperand(o, e).value, field).value, body, b, env, e, m);
      }
    case IterateList(o, v, body) =>
      EvalOperandAgree(o, b, env, e);
      if EvalOperand(o, e).Ok? { ElemsRefine(ListElems(EvalOperand(o, e).value), v, body, b, env, e, m); }
  }

  lemma {:induction false} EvalOperandAgree(o: Operand, b: set<Var>, e1: Env, e2: Env)
    requires OperandVars([o]) <= b && AgreeOn(b, e1, e2)
    ensures EvalOperand(o, e1) == EvalOperand(o, e2)
  {
    EvalOne(o, e1);
  }

  lemma {:induction false} EvalExprAgree(ex: Expr, b: set<Var>, e1: Env, e2: Env, m: Machine)
    requires ExprVars(ex) <= b && AgreeOn(b, e1, e2)
    ensures EvalExpr(ex, e1, m) == EvalExpr(ex, e2, m)
  {
    match ex
    case ValueOf(o) => EvalOperandAgree(o, b, e1, e2);
    case Call(_, args) => EvalOperandsAgree(args, e1, e2);
  }

  lemma {:induction false} BindRefines(v: Var, x: Value, body: Op, b: set<Var>, env: Env, e: Env, m: Machine)
    requires v !in b && Scoped(body, b + {v}) && AgreeOn(b, env, e)
    ensures Agrees(Exec(body, env[v := x], m), env, RunAll([e[v := x]], body, m), b)
    decreases body, 1, 0
  {
    RunOne(e[v := x], body, m);
    ExecRefines(body, b + {v}, env[v := x], e[v := x], m);
  }

  lemma {:induction false} RowsRefine(rows: seq<Tuple>, vars: seq<Var>, body: Op, b: set<Var>, env: Env, e: Env,
      m: Machine)
    requires VarSet(vars) !! b && Scoped(body, b + VarSet(vars)) && AgreeOn(b, env, e)
    ensures Agrees(ExecRows(rows, vars, body, env, m), env, RunAll(BindRows(e, vars, rows), body, m), b)
    decreases body, 1, |rows|
  {
    if rows != [] {
      if |rows[0]| != |vars| {
        assert BindRows(e, vars, rows) == BindRows(e, vars, rows[1..]);
        RowsRefine(rows[1..], vars, body, b, env, e, m);
      } else {
        var env', e' := BindRow(env, vars, rows[0]), BindRow(e, vars, rows[0]);
        BindRowAgree(env, e, vars, rows[0], b);
        BindRowKeys(env, vars, rows[0]);
        ExecRefines(body, b + VarSet(vars), env', e', m);
        assert BindRows(e, vars, rows)[0] == e' && BindRows(e, vars, rows)[1..] == BindRows(e, vars, rows[1..]);
        if Exec(body, env', m).Ok? {
          var r := Exec(body, env', m).value;
          assert AgreeOn(b, r.env, env);
          RowsRefine(rows[1..], vars, body, b, r.env, e, m);
        }
      }
    }
  }

  lemma {:induction false} ElemsRefine(elems: seq<Value>, v: Var, body: Op, b: set<Var>, env: Env, e: Env, m: Machine)
    requires v !in b && Scoped(body, b + {v}) && AgreeOn(b, env, e)
    ensures Agrees(ExecElems(elems, v, body, env, m), env, RunAll(BindElems(e, v, elems), body, m), b)
    decreases body, 1, |elems|
  {
    if elems != [] {
      var env', e' := env[v := elems[0]], e[v := elems[0]];
      ExecRefines(body, b + {v}, env', e', m);
      assert BindElems(e, v, elems)[0] == e' && BindElems(e, v, elems)[1..] == BindElems(e, v, elems[1..]);
      if Exec(body, env', m).Ok? {
        ElemsRefine(elems[1..], v, body, b, Exec(body, env', m).value.env, e, m);
      }
    }
  }

  lemma {:induction false} RunAllConcat(xs: seq<Env>, ys: seq<Env>, body: Op, m: Machine)
    ensures var x, y, xy := RunAll(xs, body, m), RunAll(ys, body, m), RunAll(xs + ys, body, m);
            (xy.Ok? <==> x.Ok? && y.Ok?) && (xy.Ok? ==> xy.value == x.value + y.value)
    decreases |xs|
  {
    if xs == [] {
      assert xs + ys == ys;
    } else {
      assert (xs + ys)[0] == xs[0] && (xs + ys)[1..] == xs[1..] + ys;
      RunAllConcat(xs[1..], ys, body, m);
    }
  }

  lemma {:induction false} ProbeRefines(probeRows: seq<Tuple>, probeVars: seq<Var>, buildRows: seq<Tuple>,
      buildVars: seq<Var>, keys: seq<Var>,
                                        body: Op, b: set<Var>, env: Env, e: Env, m: Machine)
    requires forall k :: k in keys ==> k in buildVars && k in probeVars
    requires VarSet(buildVars) + VarSet(probeVars) !! b && Scoped(body, b + VarSet(buildVars) + VarSet(probeVars)) &&
             AgreeOn(b, env, e)
    ensures Agrees(ExecProbe(probeRows, probeVars, buildRows, buildVars, keys, body, env, m), env,
                   RunAll(JoinRows(e, keys, buildVars, buildRows, probeVars, probeRows), body, m), b)
    decreases body, 2, |probeRows|
  {
    hide Exec, Run, Scoped;
    if probeRows != [] {
      if |probeRows[0]| != |probeVars| {
        ProbeRefines(probeRows[1..], probeVars, buildRows, buildVars, keys, body, b, env, e, m);
      } else {
        var bucket := Bucket(keys, buildVars, buildRows, KeyOf(keys, probeVars, probeRows[0]));
        var env', e' := BindRow(env, probeVars, probeRows[0]), BindRow(e, probeVars, probeRows[0]);
        var rest := JoinRows(e, keys, buildVars, buildRows, probeVars, probeRows[1..]);
        assert JoinRows(e, keys, buildVars, buildRows, probeVars, probeRows) == BindRows(e', buildVars, bucket) + rest;
        RunAllConcat(BindRows(e', buildVars, bucket), rest, body, m);
        if bucket == [] {
          assert BindRows(e', buildVars, bucket) == [];
          assert [] + rest == rest;
          ProbeRefines(probeRows[1..], probeVars, buildRows, buildVars, keys, body, b, env, e, m);
        } else {
          BindRowAgree(env, e, probeVars, probeRows[0], b);
          BindRowKeys(env, probeVars, probeRows[0]);
          // The build variables may rebind shared probe variables; the others stay in scope.
          var keep := b + (VarSet(probeVars) - VarSet(buildVars));
          assert keep + VarSet(buildVars) == b + VarSet(buildVars) + VarSet(probeVars);
          RowsRefine(bucket, buildVars, body, keep, env', e', m);
          if ExecRows(bucket, buildVars, body, env', m).Ok? {
            var r := ExecRows(bucket, buildVars, body, env', m).value;
            assert AgreeOn(b, r.env, env);
            ProbeRefines(probeRows[1..], probeVars, buildRows, buildVars, keys, body, b, r.env, e, m);
          }
        }
      }
    }
  }
}
