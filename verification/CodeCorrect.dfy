/** The emitted code of a plan inserts what the plan inserts. */
module CodeCorrect {
  import opened Datalog
  import opened Interp
  import opened Planner
  import opened Lowering
  import opened Scope
  import opened Wasm
  import opened Emit
  import opened CodeSteps
  import opened CodeLoops
  import opened CodeJoins

  /** Relations have the width of the scans over them, and the sides of a join name their
      columns apart. */
  ghost predicate Fitting(op: Op, m: Machine) {
    match op
    case Nop => true
    case Insert(_, _) => true
    case Filter(_, body) => Fitting(body, m)
    case Let(_, _, body) => Fitting(body, m)
    case BindField(_, _, _, body) => Fitting(body, m)
    case IterateList(_, _, body) => Fitting(body, m)
    case Iterate(src, body) =>
      Fitting(body, m) &&
      forall env, r :: SourceRows(src, env, m).Ok? && r in SourceRows(src, env, m).value ==> |r| == |src.vars|
    case HashJoin(buildRel, buildVars, probeRel, probeVars, keys, body) =>
      && Fitting(body, m) && Distinct(buildVars) && Distinct(probeVars) && Distinct(keys)
      && AllWide(m.full(buildRel), |buildVars|) && AllWide(m.full(probeRel), |probeVars|)
  }

  /** The plan reads only what is in scope, and there are locals for what it binds. */
  ghost predicate Fits(op: Op, b: set<Var>, vm: VarMap, m: Machine) {
    Scoped(op, b) && Fitting(op, m) && b + Binders(op) <= vm.Keys
  }

  /** Everything in scope is loaded, and the locals up to the last iterator exist. */
  ghost predicate Standing(st: State, env: Env, b: set<Var>, vm: VarMap, base: nat, n: nat) {
    && Layout(vm, base) && base >= FIRST_VAR && Declared(st, base + n)
    && Loaded(st, vm, env, b) && HostOk(st.host)
  }

  lemma {:induction false} StandingParts(st: State, env: Env, b: set<Var>, vm: VarMap, base: nat, n: nat)
    requires Standing(st, env, b, vm, base, n)
    ensures Layout(vm, base) && base >= FIRST_VAR && Declared(st, base + n) && Loaded(st, vm, env, b) && HostOk(st.host)
    ensures SCRATCH in st.locals && TUPLE in st.locals && forall i: nat :: i < base + n ==> i in st.locals
  {
  }

  lemma {:induction false} StillStanding(st: State, s: State, env: Env, b: set<Var>, vm: VarMap, base: nat, n: nat,
      iters: nat, joins: nat, own: set<int>)
    requires Standing(st, env, b, vm, base, n) && Kept(st, s, vm, b, base, iters, joins, own)
    ensures Standing(s, env, b, vm, base, n)
  {
    KeptLoaded(st, s, vm, env, b, base, iters, joins, own);
  }

  /** The code ends in `s`, with the facts inserted and everything around it kept. */
  ghost predicate Achieves(code: seq<Instr>, st: State, s: State, facts: set<Fact>, vm: VarMap, b: set<Var>, base: nat,
      iters: nat, joins: nat, m: Machine) {
    && Ends(code, st, m, Done(s))
    && Kept(st, s, vm, b, base, iters, joins, {})
    && s.host.facts == st.host.facts + facts
  }

  /** After straight code that keeps everything, the rest continues. */
  lemma {:induction false} AfterStraight(code: seq<Instr>, rest: seq<Instr>, st: State, t: State, s: State,
      facts: set<Fact>, vm: VarMap, b: set<Var>, base: nat, iters: nat, joins: nat, m: Machine)
    requires Straight(code, st, m) == Some(t) && Kept(st, t, vm, b, base, iters, joins, {}) &&
             t.host.facts == st.host.facts
    requires Achieves(rest, t, s, facts, vm, b, base, iters, joins, m)
    ensures Achieves(code + rest, st, s, facts, vm, b, base, iters, joins, m)
  {
    StraightEnds(code, st, m);
    EndsConcat(code, rest, st, m, t, Done(s));
    KeptThen(st, t, s, vm, b, base, iters, joins, {});
  }

  /** The code of a scoped plan, started with its variables loaded, inserts exactly the facts
      of the plan and leaves alone what the code around it uses. */
  lemma {:induction false} OpRuns(op: Op, e: Emitted, b: set<Var>, env: Env, vm: VarMap, base: nat, iters: nat,
      joins: nat, st: State, m: Machine) returns (s: State)
    requires e == EmitOp(op, vm, base, iters, joins)
    requires Fits(op, b, vm, m) && Standing(st, env, b, vm, base, e.iters) && Run(op, env, m).Ok?
    ensures Achieves(e.code, st, s, Run(op, env, m).value, vm, b, base, iters, joins, m)
    decreases op, 0, 1
  {
    hide Standing, Kept, Ends, Layout, Loaded, Declared, HostOk, ScanLoop, LoopBody, SendVars, Pushes, OpenSource;
    StandingParts(st, env, b, vm, base, e.iters);
    match op
    case Nop => s := NopRuns(b, vm, base, iters, joins, st, m);
    case Insert(rel, args) => s := InsertOpRuns(rel, args, b, env, vm, base, iters, joins, st, m);
    case Filter(c, body) =>
      var f := EmitOp(body, vm, base, iters, joins);
      RunFilter(c, body, env, m);
      s := FilterRuns(c, body, f, b, env, vm, base, iters, joins, st, m);
    case Let(v, ex, body) =>
      var f := EmitOp(body, vm, base, iters, joins);
      var x := EvalExpr(ex, env, m).value;
      RunOne(env[v := x], body, m);
      s := LetRuns(v, ex, body, f, b, env, vm, base, iters, joins, st, m);
    case BindField(o, field, v, body) =>
      var f := EmitOp(body, vm, base, iters, joins);
      s := FieldRuns(o, field, v, body, f, b, env, vm, base, iters, joins, st, m);
    case HashJoin(_, _, _, _, _, _) => s := JoinOpRuns(op, e, b, env, vm, base, iters, joins, st, m);
    case _ => s := LoopOpRuns(op, e, b, env, vm, base, iters, joins, st, m);
  }

  lemma {:induction false} LoopOpRuns(op: Op, e: Emitted, b: set<Var>, env: Env, vm: VarMap, base: nat, iters: nat,
      joins: nat, st: State, m: Machine) returns (s: State)
    requires e == EmitOp(op, vm, base, iters, joins) && (op.Iterate? || op.IterateList?)
    requires Fits(op, b, vm, m) && Standing(st, env, b, vm, base, e.iters) && Run(op, env, m).Ok?
    ensures Achieves(e.code, st, s, Run(op, env, m).value, vm, b, base, iters, joins, m)
    decreases op, 0, 0
  {
    hide Standing, Kept, Ends, ScanLoop, LoopBody, SendVars, OpenSource;
    match op
    case Iterate(src, body) =>
      var f := EmitOp(body, vm, base, iters + 1, joins);
      ItersGrow(body, vm, base, iters + 1, joins);
      s := IterateRuns(src, body, f, b, env, vm, base, iters, joins, st, m);
    case IterateList(o, v, body) =>
      var f := EmitOp(body, vm, base, iters + 1, joins);
      ItersGrow(body, vm, base, iters + 1, joins);
      s := ListRuns(o, v, body, f, b, env, vm, base, iters, joins, st, m);
  }

  lemma {:induction false} JoinOpRuns(op: Op, e: Emitted, b: set<Var>, env: Env, vm: VarMap, base: nat, iters: nat,
      joins: nat, st: State, m: Machine) returns (s: State)
    requires e == EmitOp(op, vm, base, iters, joins) && op.HashJoin?
    requires Fits(op, b, vm, m) && Standing(st, env, b, vm, base, e.iters) && Run(op, env, m).Ok?
    ensures Achieves(e.code, st, s, Run(op, env, m).value, vm, b, base, iters, joins, m)
    decreases op, 0, 0
  {
    hide Standing, Kept, Ends, ScanLoop, LoopBody, SendVars;
    var HashJoin(buildRel, buildVars, probeRel, probeVars, keys, body) := op;
    var f := EmitOp(body, vm, base, iters + 3, joins + 1);
    ItersGrow(body, vm, base, iters + 3, joins + 1);
    s := JoinRuns(buildRel, buildVars, probeRel, probeVars, keys, body, f, b, env, vm, base, iters, joins, st, m);
  }

  lemma {:induction false} NopRuns(b: set<Var>, vm: VarMap, base: nat, iters: nat, joins: nat, st: State, m: Machine)
      returns (s: State)
    requires HostOk(st.host)
    ensures Achieves([], st, s, {}, vm, b, base, iters, joins, m)
  {
    s := st;
    ExitIs([], st, m, Done(st), 0);
  }

  lemma {:induction false} InsertOpRuns(rel: Pred, args: seq<Operand>, b: set<Var>, env: Env, vm: VarMap, base: nat,
      iters: nat, joins: nat, st: State, m: Machine) returns (s: State)
    requires OperandVars(args) <= b && Loaded(st, vm, env, b) && HostOk(st.host) && EvalOperands(args, env).Ok?
    ensures Achieves([Begin(InsertBuffer, rel)] + (Pushes(args, vm, InsertBuffer) + [InsertEnd]), st, s,
                     {Fact(rel, EvalOperands(args, env).value)},
                     vm, b, base, iters, joins, m)
  {
    s := InsertRuns(rel, args, vm, env, b, st, m);
    StraightEnds([Begin(InsertBuffer, rel)] + (Pushes(args, vm, InsertBuffer) + [InsertEnd]), st, m);
  }

  lemma {:induction false} FilterRuns(c: Cond, body: Op, f: Emitted, b: set<Var>, env: Env, vm: VarMap, base: nat,
      iters: nat, joins: nat, st: State, m: Machine) returns (s: State)
    requires f == EmitOp(body, vm, base, iters, joins) && CondVars(c) <= b && EvalCond(c, env, m).Ok?
    requires Fits(body, b, vm, m) && Standing(st, env, b, vm, base, f.iters)
    requires EvalCond(c, env, m).value ==> Run(body, env, m).Ok?
    ensures Achieves(EmitCond(c, vm) + [If(f.code)], st, s,
                     if EvalCond(c, env, m).value then Run(body, env, m).value else {}, vm, b, base, iters, joins, m)
    decreases body, 1, 0
  {
    hide EmitOp, Scoped, Fitting, Binders;
    var t := CondRuns(c, vm, env, b, st, m);
    StraightEnds(EmitCond(c, vm), st, m);
    var p := t.Popped(1);
    assert p.stack == st.stack;
    assert Kept(st, p, vm, b, base, iters, joins, {});
    if EvalCond(c, env, m).value {
      StillStanding(st, p, env, b, vm, base, f.iters, iters, joins, {});
      s := OpRuns(body, f, b, env, vm, base, iters, joins, p, m);
      EndsIf(f.code, t, m, Done(s));
      KeptThen(st, p, s, vm, b, base, iters, joins, {});
    } else {
      s := p;
      EndsIfNot(f.code, t, m);
    }
    EndsConcat(EmitCond(c, vm), [If(f.code)], st, m, t, Done(s));
  }

  /** Binding one variable. */
  lemma {:induction false} SetKeeps(st: State, v: Var, x: Value, vm: VarMap, env: Env, b: set<Var>, base: nat, n: nat,
      iters: nat, joins: nat)
    requires Standing(st, env, b, vm, base, n) && v in vm && v !in b
    ensures vm[v] in st.locals
    ensures var t := st.(locals := st.locals[vm[v] := Ref(x)]);
            Kept(st, t, vm, b, base, iters, joins, {}) && Standing(t, env[v := x], b + {v}, vm, base, n)
  {
  }

  lemma {:induction false} SetRuns(st: State, v: Var, x: Value, vm: VarMap, m: Machine)
    requires v in vm && vm[v] in st.locals
    ensures Step(SetVar(v, vm), st.Pushed(Ref(x)), m) == Some(st.(locals := st.locals[vm[v] := Ref(x)]))
  {
    assert st.Pushed(Ref(x)).Popped(1) == st && st.Pushed(Ref(x)).Top(0) == Ref(x);
  }

  lemma {:induction false} ExprSets(ex: Expr, v: Var, vm: VarMap, env: Env, b: set<Var>, st: State, m: Machine)
    requires Loaded(st, vm, env, b) && ExprVars(ex) <= b && EvalExpr(ex, env, m).Ok? && v in vm && vm[v] in st.locals
    ensures Straight(EmitExpr(ex, vm) + [SetVar(v, vm)], st, m) ==
            Some(st.(locals := st.locals[vm[v] := Ref(EvalExpr(ex, env, m).value)]))
  {
    var x := EvalExpr(ex, env, m).value;
    ExprRuns(ex, vm, env, b, st, m);
    SetRuns(st, v, x, vm, m);
    StraightOne(SetVar(v, vm), st.Pushed(Ref(x)), m);
    StraightConcat(EmitExpr(ex, vm), [SetVar(v, vm)], st, m);
  }

  lemma {:induction false} LetRuns(v: Var, ex: Expr, body: Op, f: Emitted, b: set<Var>, env: Env, vm: VarMap,
      base: nat, iters: nat, joins: nat, st: State, m: Machine) returns (s: State)
    requires f == EmitOp(body, vm, base, iters, joins) && ExprVars(ex) <= b && v !in b && v in vm &&
             EvalExpr(ex, env, m).Ok?
    requires Fits(body, b + {v}, vm, m) && Standing(st, env, b, vm, base, f.iters) &&
             Run(body, env[v := EvalExpr(ex, env, m).value], m).Ok?
    ensures Achieves((EmitExpr(ex, vm) + [SetVar(v, vm)]) + f.code, st, s,
                     Run(body, env[v := EvalExpr(ex, env, m).value], m).value, vm, b, base, iters, joins, m)
    decreases body, 1, 0
  {
    hide EmitOp, Scoped, Fitting, Binders;
    var x := EvalExpr(ex, env, m).value;
    SetKeeps(st, v, x, vm, env, b, base, f.iters, iters, joins);
    var t := st.(locals := st.locals[vm[v] := Ref(x)]);
    ExprSets(ex, v, vm, env, b, st, m);
    s := OpRuns(body, f, b + {v}, env[v := x], vm, base, iters, joins, t, m);
    KeptLess(t, s, vm, b + {v}, base, iters, joins, {}, b, iters, joins, {});
    AfterStraight(EmitExpr(ex, vm) + [SetVar(v, vm)], f.code, st, t, s, Run(body, env[v := x], m).value, vm, b, base,
                  iters, joins, m);
  }

  // ----- Struct fields -----

  /** Fetching the struct into scratch and testing for the field. */
  lemma {:induction false} ProbeField(o: Operand, field: string, vm: VarMap, env: Env, b: set<Var>, st: State,
      m: Machine)
    requires Loaded(st, vm, env, b) && OperandVars([o]) <= b && SCRATCH in st.locals
    ensures EvalOperand(o, env).Ok?
    ensures var x := EvalOperand(o, env).value;
            Straight(EmitOperand(o, vm) + [LocalTee(SCRATCH), ConstRef(CName(field)), FieldPresent], st, m) ==
            Some(st.(locals := st.locals[SCRATCH := Ref(x)]).Pushed(Truth(FieldOf(x, field).Some?)))
  {
    hide EmitOperand, FieldOf, Loaded;
    OperandRuns(o, vm, env, b, st, m);
    var x := EvalOperand(o, env).value;
    var t := st.(locals := st.locals[SCRATCH := Ref(x)]);
    var s1, s2, s3 := st.Pushed(Ref(x)), t.Pushed(Ref(x)), t.Pushed(Ref(x)).Pushed(Ref(Name(field)));
    var tail := [LocalTee(SCRATCH), ConstRef(CName(field)), FieldPresent];
    assert s1.Top(0) == Ref(x);
    assert s3.Top(0) == Ref(Name(field)) && s3.Top(1) == Ref(x) && s3.Popped(2) == t;
    StraightOne(FieldPresent, s3, m);
    StraightCons(ConstRef(CName(field)), [FieldPresent], s2, s3, m);
    StraightCons(LocalTee(SCRATCH), [ConstRef(CName(field))] + [FieldPresent], s1, s2, m);
    assert [LocalTee(SCRATCH)] + ([ConstRef(CName(field))] + [FieldPresent]) == tail;
    StraightConcat(EmitOperand(o, vm), tail, st, m);
  }

  lemma {:induction false} TakeField(t: State, x: Value, field: string, v: Var, vm: VarMap, m: Machine)
    requires SCRATCH in t.locals && t.locals[SCRATCH] == Ref(x) && FieldOf(x, field).Some? && v in vm &&
             vm[v] in t.locals
    ensures Straight([LocalGet(SCRATCH), ConstRef(CName(field)), CompoundGet, SetVar(v, vm)], t, m) ==
            Some(t.(locals := t.locals[vm[v] := Ref(FieldOf(x, field).value)]))
  {
    var y := FieldOf(x, field).value;
    var s1, s2, s3 := t.Pushed(Ref(x)), t.Pushed(Ref(x)).Pushed(Ref(Name(field))), t.Pushed(Ref(y));
    assert s2.Top(0) == Ref(Name(field)) && s2.Top(1) == Ref(x) && s2.Popped(2) == t;
    SetRuns(t, v, y, vm, m);
    StraightFour(LocalGet(SCRATCH), ConstRef(CName(field)), CompoundGet, SetVar(v, vm),
                 t, s1, s2, s3, t.(locals := t.locals[vm[v] := Ref(y)]), m);
  }

  lemma {:induction false} FieldRuns(o: Operand, field: string, v: Var, body: Op, f: Emitted, b: set<Var>, env: Env,
      vm: VarMap, base: nat, iters: nat, joins: nat, st: State, m: Machine) returns (s: State)
    requires f == EmitOp(body, vm, base, iters, joins) && OperandVars([o]) <= b && v !in b && v in vm
    requires Fits(body, b + {v}, vm, m) && Standing(st, env, b, vm, base, f.iters)
    requires Run(BindField(o, field, v, body), env, m).Ok?
    ensures Achieves((EmitOperand(o, vm) + [LocalTee(SCRATCH), ConstRef(CName(field)), FieldPresent]) +
                     [If([LocalGet(SCRATCH), ConstRef(CName(field)), CompoundGet, SetVar(v, vm)] + f.code)],
                     st, s, Run(BindField(o, field, v, body), env, m).value, vm, b, base, iters, joins, m)
    decreases body, 1, 0
  {
    hide EmitOp, Scoped, Fitting, Binders;
    ProbeField(o, field, vm, env, b, st, m);
    var x := EvalOperand(o, env).value;
    var t := st.(locals := st.locals[SCRATCH := Ref(x)]);
    var probe := EmitOperand(o, vm) + [LocalTee(SCRATCH), ConstRef(CName(field)), FieldPresent];
    var take := [LocalGet(SCRATCH), ConstRef(CName(field)), CompoundGet, SetVar(v, vm)];
    var p := t.Pushed(Truth(FieldOf(x, field).Some?));
    assert p.Popped(1) == t && p.Top(0) == Truth(FieldOf(x, field).Some?);
    ScratchKeeps(st, Ref(x), vm, b, base, iters, joins);
    StillStanding(st, t, env, b, vm, base, f.iters, iters, joins, {});
    if FieldOf(x, field).Some? {
      var y := FieldOf(x, field).value;
      RunOne(env[v := y], body, m);
      s := FieldBodyRuns(v, x, field, body, f, b, env, vm, base, iters, joins, t, m);
      EndsIf(take + f.code, p, m, Done(s));
      KeptThen(st, t, s, vm, b, base, iters, joins, {});
    } else {
      s := t;
      EndsIfNot(take + f.code, p, m);
      assert Run(BindField(o, field, v, body), env, m).value == {};
    }
    StraightEnds(probe, st, m);
    EndsConcat(probe, [If(take + f.code)], st, m, p, Done(s));
  }

  lemma {:induction false} FieldBodyRuns(v: Var, x: Value, field: string, body: Op, f: Emitted, b: set<Var>, env: Env,
      vm: VarMap, base: nat, iters: nat, joins: nat, t: State, m: Machine) returns (s: State)
    requires f == EmitOp(body, vm, base, iters, joins) && v !in b && v in vm && FieldOf(x, field).Some?
    requires Fits(body, b + {v}, vm, m) && Standing(t, env, b, vm, base, f.iters)
    requires SCRATCH in t.locals && t.locals[SCRATCH] == Ref(x) && Run(body, env[v := FieldOf(x, field).value], m).Ok?
    ensures Achieves([LocalGet(SCRATCH), ConstRef(CName(field)), CompoundGet, SetVar(v, vm)] + f.code, t, s,
                     Run(body, env[v := FieldOf(x, field).value], m).value, vm, b, base, iters, joins, m)
    decreases body, 0, 2
  {
    hide EmitOp, Scoped, Fitting, Binders;
    var y := FieldOf(x, field).value;
    SetKeeps(t, v, y, vm, env, b, base, f.iters, iters, joins);
    var u := t.(locals := t.locals[vm[v] := Ref(y)]);
    TakeField(t, x, field, v, vm, m);
    s := OpRuns(body, f, b + {v}, env[v := y], vm, base, iters, joins, u, m);
    KeptLess(u, s, vm, b + {v}, base, iters, joins, {}, b, iters, joins, {});
    AfterStraight([LocalGet(SCRATCH), ConstRef(CName(field)), CompoundGet, SetVar(v, vm)], f.code, t, u, s,
                  Run(body, env[v := y], m).value,
                  vm, b, base, iters, joins, m);
  }

  // ----- Loops over an iterator -----

  /** Without a row the loop leaves. */
  lemma {:induction false} LeaveLoop(id: int, vars: seq<Var>, code: seq<Instr>, b: set<Var>, env: Env, vm: VarMap,
      base: nat, n: nat, iters: nat, joins: nat, st: State, m: Machine) returns (s: State)
    requires Standing(st, env, b, vm, base, n) && iters < n && AtRows(st, base + iters, id, [])
    ensures Ends([Loop(LoopBody(base + iters, vars, vm, code))], st, m, Jump(0, s))
    ensures Kept(st, s, vm, b, base, iters, joins, {id}) && s.host.facts == st.host.facts
  {
    s := st.(locals := st.locals[TUPLE := Int(0)]);
    LoopLeaves(base + iters, id, vars, vm, code, st, m);
  }

  /** A loop runs its body for each remaining row, then leaves. */
  lemma {:induction false} RowsRun(rows: seq<Tuple>, id: int, vars: seq<Var>, body: Op, f: Emitted, b: set<Var>,
      env: Env, vm: VarMap, base: nat, iters: nat, joins: nat, st: State, m: Machine) returns (s: State)
    requires f == EmitOp(body, vm, base, iters + 1, joins) && iters < f.iters && VarSet(vars) !! b
    requires Fits(body, b + VarSet(vars), vm, m) && Standing(st, env, b, vm, base, f.iters) &&
             AtRows(st, base + iters, id, rows)
    requires AllWide(rows, |vars|) && RunAll(BindRows(env, vars, rows), body, m).Ok?
    ensures Ends([Loop(LoopBody(base + iters, vars, vm, f.code))], st, m, Jump(0, s))
    ensures Kept(st, s, vm, b, base, iters, joins, {id})
    ensures s.host.facts == st.host.facts + RunAll(BindRows(env, vars, rows), body, m).value
    decreases body, 1, |rows|
  {
    hide EmitOp, Scoped, Fitting, Binders;
    if rows == [] {
      s := LeaveLoop(id, vars, f.code, b, env, vm, base, f.iters, iters, joins, st, m);
    } else {
      assert rows[0] in rows;
      var e := BindRow(env, vars, rows[0]);
      assert BindRows(env, vars, rows) == [e] + BindRows(env, vars, rows[1..]);
      RunAllConcat([e], BindRows(env, vars, rows[1..]), body, m);
      RunOne(e, body, m);
      var t := TurnRuns(rows, id, vars, body, f, b, env, vm, base, iters, joins, st, m);
      StillStanding(st, t, env, b, vm, base, f.iters, iters, joins, {id});
      assert AllWide(rows[1..], |vars|);
      s := RowsRun(rows[1..], id, vars, body, f, b, env, vm, base, iters, joins, t, m);
      assert t.(stack := st.stack) == t;
      EndsAgain(LoopBody(base + iters, vars, vm, f.code), st, m, t, Jump(0, s));
      KeptThen(st, t, s, vm, b, base, iters, joins, {id});
    }
  }

  /** The state in which the body of a loop starts. */
  lemma {:induction false} TurnStands(id: int, vars: seq<Var>, b: set<Var>, env: Env, vm: VarMap, base: nat, n: nat,
      iters: nat, joins: nat, st: State)
    requires Standing(st, env, b, vm, base, n) && VarSet(vars) !! b && b + VarSet(vars) <= vm.Keys && iters < n
    requires id in st.host.iters && st.host.iters[id] != [] && |st.host.iters[id][0]| == |vars| &&
             AtRows(st, base + iters, id, st.host.iters[id])
    ensures var u := Turned(st, id, vm, vars);
            && Standing(u, BindRow(env, vars, st.host.iters[id][0]), b + VarSet(vars), vm, base, n)
            && Kept(st, u, vm, b, base, iters + 1, joins, {id}) && u.host.facts == st.host.facts
            && AtRows(u, base + iters, id, st.host.iters[id][1..])
  {
    TurnKeeps(st, id, vm, base, vars, b, iters + 1, joins, n);
    TurnLoads(st, id, vm, base, vars, env, b, n);
  }

  /** One turn of the loop, ready for the next. */
  lemma {:induction false} TurnRuns(rows: seq<Tuple>, id: int, vars: seq<Var>, body: Op, f: Emitted, b: set<Var>,
      env: Env, vm: VarMap, base: nat, iters: nat, joins: nat, st: State, m: Machine) returns (t: State)
    requires f == EmitOp(body, vm, base, iters + 1, joins) && iters < f.iters && VarSet(vars) !! b
    requires Fits(body, b + VarSet(vars), vm, m) && Standing(st, env, b, vm, base, f.iters) &&
             AtRows(st, base + iters, id, rows)
    requires rows != [] && |rows[0]| == |vars| && Run(body, BindRow(env, vars, rows[0]), m).Ok?
    ensures Ends(LoopBody(base + iters, vars, vm, f.code), st, m, Jump(0, t))
    ensures Kept(st, t, vm, b, base, iters, joins, {id}) && AtRows(t, base + iters, id, rows[1..])
    ensures t.host.facts == st.host.facts + Run(body, BindRow(env, vars, rows[0]), m).value
    decreases body, 0, 2
  {
    hide EmitOp, Scoped, Fitting, Binders;
    var u := Turned(st, id, vm, vars);
    TurnStands(id, vars, b, env, vm, base, f.iters, iters, joins, st);
    t := OpRuns(body, f, b + VarSet(vars), BindRow(env, vars, rows[0]), vm, base, iters + 1, joins, u, m);
    KeptLess(u, t, vm, b + VarSet(vars), base, iters + 1, joins, {}, b, iters + 1, joins, {});
    FinishTurn(id, vars, f.code, b, vm, base, f.iters, iters, joins, st, t, m);
  }

  lemma {:induction false} FinishTurn(id: int, vars: seq<Var>, code: seq<Instr>, b: set<Var>, vm: VarMap, base: nat,
      n: nat, iters: nat, joins: nat, st: State, t: State, m: Machine)
    requires Layout(vm, base) && base >= FIRST_VAR && Declared(st, base + n) && iters < n && HostOk(st.host) &&
             VarSet(vars) <= vm.Keys
    requires id in st.host.iters && st.host.iters[id] != [] && |st.host.iters[id][0]| == |vars| &&
             AtRows(st, base + iters, id, st.host.iters[id])
    requires var u := Turned(st, id, vm, vars);
             && Kept(st, u, vm, b, base, iters + 1, joins, {id}) && AtRows(u, base + iters, id, st.host.iters[id][1..])
             && Ends(code, u, m, Done(t)) && Kept(u, t, vm, b, base, iters + 1, joins, {})
    ensures Ends(LoopBody(base + iters, vars, vm, code), st, m, Jump(0, t))
    ensures Kept(st, t, vm, b, base, iters, joins, {id}) && AtRows(t, base + iters, id, st.host.iters[id][1..])
  {
    var u := Turned(st, id, vm, vars);
    assert forall w :: w in vars ==> w in VarSet(vars);
    LoopTurn(base + iters, id, vars, vm, base, code, st, m, t);
    KeptLess(u, t, vm, b, base, iters + 1, joins, {}, b, iters, joins, {id});
    KeptLess(st, u, vm, b, base, iters + 1, joins, {id}, b, iters, joins, {id});
    KeptThen(st, u, t, vm, b, base, iters, joins, {id});
  }

  /** A whole scan loop, once its iterator is open. */
  lemma {:induction false} ScanLoopRuns(rows: seq<Tuple>, vars: seq<Var>, body: Op, f: Emitted, b: set<Var>, env: Env,
      vm: VarMap, base: nat, iters: nat, joins: nat, st: State, m: Machine) returns (s: State)
    requires f == EmitOp(body, vm, base, iters + 1, joins) && iters < f.iters && VarSet(vars) !! b
    requires Fits(body, b + VarSet(vars), vm, m) && Standing(st, env, b, vm, base, f.iters)
    requires AllWide(rows, |vars|) && RunAll(BindRows(env, vars, rows), body, m).Ok?
    ensures Ends(ScanLoop(base + iters, vars, vm, f.code), Opened(st, base + iters, rows), m, Done(s))
    ensures Kept(st, s, vm, b, base, iters, joins, {})
    ensures s.host.facts == st.host.facts + RunAll(BindRows(env, vars, rows), body, m).value
    decreases body, 2, 0
  {
    hide EmitOp, Scoped, Fitting, Binders;
    var id, o := st.host.nextIter, Opened(st, base + iters, rows);
    OpenLoop(st, rows, env, b, vm, base, iters, joins, f.iters);
    s := RowsRun(rows, id, vars, body, f, b, env, vm, base, iters, joins, o, m);
    CloseLoop(st, o, s, id, base + iters, vars, f.code, vm, b, base, iters, joins, m);
  }

  // ----- Scans -----

  lemma {:induction false} SourceOpens(src: Source, it: nat, vm: VarMap, env: Env, b: set<Var>, st: State, m: Machine)
      returns (t: State)
    requires Loaded(st, vm, env, b) && SourceVars(src) <= b && SCRATCH in st.locals && it in st.locals
    ensures SourceRows(src, env, m).Ok?
    ensures Straight(OpenSource(src, vm) + [LocalSet(it)], st, m) == Some(Opened(t, it, SourceRows(src, env, m).value))
    ensures ScratchOnly(st, t)
  {
    t := st;
    match src
    case Scan(rel, _) =>
      OpenRuns(st, it, m.full(rel), m);
      StraightOne(LocalSet(it), OpenIter(st, m.full(rel)), m);
      StraightCons(ScanStart(rel), [LocalSet(it)], st, OpenIter(st, m.full(rel)), m);
    case ScanDelta(rel, _) =>
      OpenRuns(st, it, m.delta(rel), m);
      StraightOne(LocalSet(it), OpenIter(st, m.delta(rel)), m);
      StraightCons(ScanDeltaStart(rel), [LocalSet(it)], st, OpenIter(st, m.delta(rel)), m);
    case IndexLookup(rel, col, key, vars) => t := LookupOpens(rel, col, key, vars, it, vm, env, b, st, m);
  }

  lemma {:induction false} KeySteps(st: State, k: Value, rel: Pred, col: nat, m: Machine)
    requires SCRATCH in st.locals
    ensures var t := st.(locals := st.locals[SCRATCH := Ref(k)]);
            && Step(LocalSet(SCRATCH), st.Pushed(Ref(k)), m) == Some(t)
            && Step(LocalGet(SCRATCH), t, m) == Some(t.Pushed(Ref(k)))
            && Step(ScanIndexStart(rel, col), t.Pushed(Ref(k)), m) == Some(OpenIter(t, m.index(rel, col, k)))
  {
    var t := st.(locals := st.locals[SCRATCH := Ref(k)]);
    var s1, s2 := st.Pushed(Ref(k)), t.Pushed(Ref(k));
    assert s1.Top(0) == Ref(k) && s1.Popped(1) == st && s2.Top(0) == Ref(k) && s2.Popped(1) == t;
  }

  lemma {:induction false} LookupOpens(rel: Pred, col: nat, key: Operand, vars: seq<Var>, it: nat, vm: VarMap,
      env: Env, b: set<Var>, st: State, m: Machine) returns (t: State)
    requires Loaded(st, vm, env, b) && OperandVars([key]) <= b && SCRATCH in st.locals && it in st.locals
    ensures EvalOperand(key, env).Ok?
    ensures Straight(OpenSource(IndexLookup(rel, col, key, vars), vm) + [LocalSet(it)], st, m) ==
            Some(Opened(t, it, m.index(rel, col, EvalOperand(key, env).value)))
    ensures ScratchOnly(st, t)
  {
    OperandRuns(key, vm, env, b, st, m);
    var k := EvalOperand(key, env).value;
    t := st.(locals := st.locals[SCRATCH := Ref(k)]);
    var rows := m.index(rel, col, k);
    var tail := [LocalSet(SCRATCH), LocalGet(SCRATCH), ScanIndexStart(rel, col), LocalSet(it)];
    KeySteps(st, k, rel, col, m);
    OpenRuns(t, it, rows, m);
    StraightFour(LocalSet(SCRATCH), LocalGet(SCRATCH), ScanIndexStart(rel, col), LocalSet(it),
                 st.Pushed(Ref(k)), t, t.Pushed(Ref(k)), OpenIter(t, rows), Opened(t, it, rows), m);
    StraightConcat(EmitOperand(key, vm), tail, st, m);
    assert OpenSource(IndexLookup(rel, col, key, vars), vm) + [LocalSet(it)] == EmitOperand(key, vm) + tail;
  }

  /** At most the scratch local differs. */
  ghost predicate ScratchOnly(st: State, t: State) {
    && t == st.(locals := t.locals) && t.locals.Keys == st.locals.Keys
    && forall i :: i in st.locals && i != SCRATCH ==> t.locals[i] == st.locals[i]
  }

  lemma {:induction false} IterateRuns(src: Source, body: Op, f: Emitted, b: set<Var>, env: Env, vm: VarMap, base: nat,
      iters: nat, joins: nat, st: State, m: Machine) returns (s: State)
    requires f == EmitOp(body, vm, base, iters + 1, joins) && iters < f.iters && VarSet(src.vars) !! b &&
             SourceVars(src) <= b
    requires Fits(body, b + VarSet(src.vars), vm, m) && Standing(st, env, b, vm, base, f.iters)
    requires SourceRows(src, env, m).Ok? && AllWide(SourceRows(src, env, m).value, |src.vars|)
    requires RunAll(BindRows(env, src.vars, SourceRows(src, env, m).value), body, m).Ok?
    ensures Achieves((OpenSource(src, vm) + [LocalSet(base + iters)]) + ScanLoop(base + iters, src.vars, vm, f.code),
                     st, s,
                     RunAll(BindRows(env, src.vars, SourceRows(src, env, m).value), body, m).value, vm, b, base, iters,
                     joins, m)
    decreases body, 3, 0
  {
    hide EmitOp, Scoped, Fitting, Binders, Fits, Kept, Standing, Ends, Loaded, Layout, Declared, HostOk, Run, RunAll;
    StandingParts(st, env, b, vm, base, f.iters);
    var t := SourceOpens(src, base + iters, vm, env, b, st, m);
    var rows := SourceRows(src, env, m).value;
    ScratchOrSame(st, t, vm, b, base, iters, joins);
    StillStanding(st, t, env, b, vm, base, f.iters, iters, joins, {});
    s := ScanLoopRuns(rows, src.vars, body, f, b, env, vm, base, iters, joins, t, m);
    OpenThen(OpenSource(src, vm) + [LocalSet(base + iters)], ScanLoop(base + iters, src.vars, vm, f.code),
             st, t, Opened(t, base + iters, rows), s, vm, b, base, iters, joins, m);
  }

  lemma {:induction false} ScratchOrSame(st: State, t: State, vm: VarMap, b: set<Var>, base: nat, iters: nat,
      joins: nat)
    requires Layout(vm, base) && base >= FIRST_VAR && HostOk(st.host) && ScratchOnly(st, t)
    ensures Kept(st, t, vm, b, base, iters, joins, {})
  {
  }

  // ----- Lists -----

  lemma {:induction false} SinglesBind(env: Env, v: Var, elems: seq<Value>)
    ensures BindElems(env, v, elems) == BindRows(env, [v], Singles(elems)) && AllWide(Singles(elems), 1)
    decreases |elems|
  {
    if elems != [] {
      SinglesBind(env, v, elems[1..]);
      var row := [elems[0]];
      assert Singles(elems) == [row] + Singles(elems[1..]);
      assert [v][1..] == [] && row[1..] == [];
      assert BindRow(env, [v], row) == env[v := elems[0]];
    }
  }

  lemma {:induction false} ListOpens(o: Operand, it: nat, vm: VarMap, env: Env, b: set<Var>, st: State, m: Machine)
    requires Loaded(st, vm, env, b) && OperandVars([o]) <= b && it in st.locals
    ensures EvalOperand(o, env).Ok?
    ensures Straight(EmitOperand(o, vm) + [ListIterStart, LocalSet(it)], st, m) ==
            Some(Opened(st, it, Singles(ListElems(EvalOperand(o, env).value))))
  {
    OperandRuns(o, vm, env, b, st, m);
    var x := EvalOperand(o, env).value;
    var rows := Singles(ListElems(x));
    var p := st.Pushed(Ref(x));
    assert p.Top(0) == Ref(x) && p.Popped(1) == st;
    OpenRuns(st, it, rows, m);
    StraightOne(LocalSet(it), OpenIter(st, rows), m);
    StraightCons(ListIterStart, [LocalSet(it)], p, OpenIter(st, rows), m);
    assert [ListIterStart] + [LocalSet(it)] == [ListIterStart, LocalSet(it)];
    StraightConcat(EmitOperand(o, vm), [ListIterStart, LocalSet(it)], st, m);
  }

  lemma {:induction false} ListRuns(o: Operand, v: Var, body: Op, f: Emitted, b: set<Var>, env: Env, vm: VarMap,
      base: nat, iters: nat, joins: nat, st: State, m: Machine) returns (s: State)
    requires f == EmitOp(body, vm, base, iters + 1, joins) && iters < f.iters && v !in b && OperandVars([o]) <= b
    requires Fits(body, b + {v}, vm, m) && Standing(st, env, b, vm, base, f.iters)
    requires EvalOperand(o, env).Ok? && RunAll(BindElems(env, v, ListElems(EvalOperand(o, env).value)), body, m).Ok?
    ensures Achieves((EmitOperand(o, vm) + [ListIterStart, LocalSet(base + iters)]) +
                     ScanLoop(base + iters, [v], vm, f.code), st, s,
                     RunAll(BindElems(env, v, ListElems(EvalOperand(o, env).value)), body, m).value, vm, b, base,
                     iters, joins, m)
    decreases body, 3, 0
  {
    hide EmitOp, Scoped, Fitting, Binders, Fits, Kept, Standing, Ends, Loaded, Layout, Declared, HostOk, Run, RunAll,
      ScanLoop, LoopBody;
    StandingParts(st, env, b, vm, base, f.iters);
    ListOpens(o, base + iters, vm, env, b, st, m);
    var elems := ListElems(EvalOperand(o, env).value);
    var rows := Singles(elems);
    SinglesBind(env, v, elems);
    assert VarSet([v]) == {v};
    s := ScanLoopRuns(rows, [v], body, f, b, env, vm, base, iters, joins, st, m);
    KeptSelf(st, vm, b, base, iters, joins);
    OpenThen(EmitOperand(o, vm) + [ListIterStart, LocalSet(base + iters)], ScanLoop(base + iters, [v], vm, f.code),
             st, st, Opened(st, base + iters, rows), s, vm, b, base, iters, joins, m);
  }

  // ----- Hash joins -----

  /** The sides of a join, as the code needs them. */
  ghost predicate Sides(buildVars: seq<Var>, probeVars: seq<Var>, keys: seq<Var>, b: set<Var>, vm: VarMap) {
    && Distinct(buildVars) && Distinct(probeVars) && Distinct(keys) && Among(keys, buildVars) && Among(keys, probeVars)
    && VarSet(buildVars) + VarSet(probeVars) !! b && VarSet(buildVars) + VarSet(probeVars) <= vm.Keys
  }

  function ProbeCode(keys: seq<Var>, order: seq<Var>, vm: VarMap, it: nat, j: nat, code: seq<Instr>): seq<Instr> {
    (SendVars(keys, vm) + [JoinProbe(j), LocalSet(it)]) + ScanLoop(it, order, vm, code)
  }

  /** What a probe row finds and does: the body for each row of its bucket. */
  lemma {:induction false} BucketRuns(e: Env, bucket: seq<Tuple>, buildVars: seq<Var>, order: seq<Var>,
      probeVars: seq<Var>, keys: seq<Var>, body: Op, f: Emitted, b: set<Var>, vm: VarMap, base: nat, iters: nat,
      j: nat, u: State, m: Machine) returns (s: State)
    requires f == EmitOp(body, vm, base, iters + 3, j + 1) && iters + 2 < f.iters &&
             Sides(buildVars, probeVars, keys, b, vm)
    requires order == BuildOrder(buildVars, keys) && Among(order, buildVars) && AllWide(bucket, |buildVars|)
    requires Fits(body, b + VarSet(buildVars) + VarSet(probeVars), vm, m)
    requires Standing(u, e, b + VarSet(probeVars), vm, base, f.iters)
    requires RunAll(BindRows(e, buildVars, bucket), body, m).Ok?
    ensures Ends(ScanLoop(base + (iters + 2), order, vm, f.code),
                 Opened(u, base + (iters + 2), Reordered(order, buildVars, bucket)), m, Done(s))
    ensures Kept(u, s, vm, b, base, iters + 2, j + 1, {})
    ensures s.host.facts == u.host.facts + RunAll(BindRows(e, buildVars, bucket), body, m).value
    decreases body, 3, 0
  {
    hide EmitOp, Scoped, Fitting, Binders, Fits, Kept, Standing, Ends, Run, RunAll, ScanLoop, LoopBody, Opened,
      Reordered, BindRows;
    var keep := b + (VarSet(probeVars) - VarSet(buildVars));
    OrderShape(buildVars, keys);
    ReorderedWide(order, buildVars, bucket);
    ReorderBindRows(e, buildVars, keys, bucket);
    assert keep + VarSet(order) == b + VarSet(buildVars) + VarSet(probeVars);
    FewerLoaded(u, e, b + VarSet(probeVars), keep, vm, base, f.iters);
    s := ScanLoopRuns(Reordered(order, buildVars, bucket), order, body, f, keep, e, vm, base, iters + 2, j + 1, u, m);
    KeptLess(u, s, vm, keep, base, iters + 2, j + 1, {}, b, iters + 2, j + 1, {});
  }

  lemma {:induction false} FewerLoaded(st: State, env: Env, b: set<Var>, b': set<Var>, vm: VarMap, base: nat, n: nat)
    requires Standing(st, env, b, vm, base, n) && b' <= b
    ensures Standing(st, env, b', vm, base, n)
  {
  }

  /** The table of the join holds the build rows. */
  ghost predicate TableReady(st: State, j: nat, buildVars: seq<Var>, keys: seq<Var>, buildRows: seq<Tuple>) {
    && Among(BuildOrder(buildVars, keys), buildVars) && AllWide(buildRows, |buildVars|)
    && JoinReady(st.host) && j in st.host.joins &&
       st.host.joins[j] == Reordered(BuildOrder(buildVars, keys), buildVars, buildRows)
  }

  /** The code for one probe row, from the state in which the row is bound. */
  lemma {:induction false} ProbeBodyRuns(row: Tuple, locals: map<nat, Slot>, buildVars: seq<Var>,
      buildRows: seq<Tuple>, probeVars: seq<Var>, keys: seq<Var>, body: Op, f: Emitted, b: set<Var>, env: Env,
      vm: VarMap, base: nat, iters: nat, j: nat, u: State, m: Machine) returns (s: State)
    requires f == EmitOp(body, vm, base, iters + 3, j + 1) && iters + 2 < f.iters &&
             Sides(buildVars, probeVars, keys, b, vm)
    requires Fits(body, b + VarSet(buildVars) + VarSet(probeVars), vm, m)
    requires |row| == |probeVars| && TableReady(u, j, buildVars, keys, buildRows)
    requires Standing(u, BindRow(env, probeVars, row), b + VarSet(probeVars), vm, base, f.iters)
    requires u.locals == BindLocals(locals, vm, probeVars, row) &&
             forall v :: v in probeVars ==> v in vm && vm[v] in locals
    requires var bucket := Bucket(keys, buildVars, buildRows, KeyOf(keys, probeVars, row));
             RunAll(BindRows(BindRow(env, probeVars, row), buildVars, bucket), body, m).Ok?
    ensures Ends(ProbeCode(keys, BuildOrder(buildVars, keys), vm, base + (iters + 2), j, f.code), u, m, Done(s))
    ensures Kept(u, s, vm, b, base, iters + 2, j + 1, {})
    ensures var bucket := Bucket(keys, buildVars, buildRows, KeyOf(keys, probeVars, row));
            s.host.facts ==
            u.host.facts + RunAll(BindRows(BindRow(env, probeVars, row), buildVars, bucket), body, m).value
    decreases body, 3, 1
  {
    hide EmitOp, Scoped, Fitting, Binders, Fits, Kept, Standing, Ends, Layout, Loaded, Declared, HostOk, Run, RunAll,
      ScanLoop, LoopBody, Opened, Matches, Bucket;
    var key, it := KeyOf(keys, probeVars, row), base + (iters + 2);
    var order := BuildOrder(buildVars, keys);
    StandingParts(u, BindRow(env, probeVars, row), b + VarSet(probeVars), vm, base, f.iters);
    var bucket := Bucket(keys, buildVars, buildRows, key);
    BucketWide(keys, buildVars, buildRows, key);
    MatchesAreBucket(keys, buildVars, order, buildRows, key);
    s := BucketRuns(BindRow(env, probeVars, row), bucket, buildVars, order, probeVars, keys, body, f, b, vm, base,
                    iters, j, u, m);
    ProbeSends(row, locals, probeVars, keys, vm, base, it, j, u, m);
    var open := SendVars(keys, vm) + [JoinProbe(j), LocalSet(it)];
    StraightEnds(open, u, m);
    EndsConcat(open, ScanLoop(it, order, vm, f.code), u, m, Opened(u, it, Matches(u.host.joins[j], key)), Done(s));
  }

  lemma {:induction false} ProbeSends(row: Tuple, locals: map<nat, Slot>, probeVars: seq<Var>, keys: seq<Var>,
      vm: VarMap, base: nat, it: nat, j: nat, u: State, m: Machine)
    requires Layout(vm, base) && |probeVars| == |row| && Distinct(probeVars) && Among(keys, probeVars) && it in u.locals
    requires u.locals == BindLocals(locals, vm, probeVars, row) &&
             forall v :: v in probeVars ==> v in vm && vm[v] in locals
    requires JoinReady(u.host) && j in u.host.joins
    ensures Straight(SendVars(keys, vm) + [JoinProbe(j), LocalSet(it)], u, m) ==
            Some(Opened(u, it, Matches(u.host.joins[j], KeyOf(keys, probeVars, row))))
  {
    var key := KeyOf(keys, probeVars, row);
    SendBound(keys, probeVars, row, locals, vm, base, u, m);
    ProbeOpens(u, j, it, key, m);
    StraightConcat(SendVars(keys, vm), [JoinProbe(j), LocalSet(it)], u, m);
  }

  lemma {:induction false} TableKept(st: State, s: State, vm: VarMap, b: set<Var>, base: nat, iters: nat,
      own: set<int>, j: nat, buildVars: seq<Var>, keys: seq<Var>, buildRows: seq<Tuple>)
    requires TableReady(st, j, buildVars, keys, buildRows) && Kept(st, s, vm, b, base, iters, j + 1, own)
    ensures TableReady(s, j, buildVars, keys, buildRows)
  {
  }

  lemma {:induction false} VarsDeclared(st: State, env: Env, b: set<Var>, vm: VarMap, base: nat, n: nat)
    requires Standing(st, env, b, vm, base, n)
    ensures forall v :: v in vm ==> vm[v] in st.locals
  {
  }

  /** One turn of the probe loop. */
  lemma {:induction false} ProbeTurn(rows: seq<Tuple>, id: int, buildVars: seq<Var>, buildRows: seq<Tuple>,
      probeVars: seq<Var>, keys: seq<Var>, body: Op, f: Emitted, b: set<Var>, env: Env, vm: VarMap, base: nat,
      iters: nat, j: nat, st: State, m: Machine) returns (t: State)
    requires f == EmitOp(body, vm, base, iters + 3, j + 1) && iters + 2 < f.iters &&
             Sides(buildVars, probeVars, keys, b, vm)
    requires Fits(body, b + VarSet(buildVars) + VarSet(probeVars), vm, m) && Standing(st, env, b, vm, base, f.iters)
    requires rows != [] && |rows[0]| == |probeVars| && TableReady(st, j, buildVars, keys, buildRows) &&
             AtRows(st, base + (iters + 1), id, rows)
    requires var bucket := Bucket(keys, buildVars, buildRows, KeyOf(keys, probeVars, rows[0]));
             RunAll(BindRows(BindRow(env, probeVars, rows[0]), buildVars, bucket), body, m).Ok?
    ensures Ends(LoopBody(base + (iters + 1), probeVars, vm,
                          ProbeCode(keys, BuildOrder(buildVars, keys), vm, base + (iters + 2), j, f.code)), st, m,
                          Jump(0, t))
    ensures Kept(st, t, vm, b, base, iters + 1, j + 1, {id}) && AtRows(t, base + (iters + 1), id, rows[1..]) &&
            TableReady(t, j, buildVars, keys, buildRows)
    ensures var bucket := Bucket(keys, buildVars, buildRows, KeyOf(keys, probeVars, rows[0]));
            t.host.facts ==
            st.host.facts + RunAll(BindRows(BindRow(env, probeVars, rows[0]), buildVars, bucket), body, m).value
    decreases body, 3, 2
  {
    hide EmitOp, Scoped, Fitting, Binders, Fits, Kept, Standing, Ends, Layout, Loaded, Declared, HostOk, TableReady,
      Run, RunAll, LoopBody, ProbeCode, BuildOrder, Bucket, BindRows, KeyOf;
    StandingParts(st, env, b, vm, base, f.iters);
    var u := Turned(st, id, vm, probeVars);
    TurnStands(id, probeVars, b, env, vm, base, f.iters, iters + 1, j + 1, st);
    TableKept(st, u, vm, b, base, iters + 2, {id}, j, buildVars, keys, buildRows);
    assert forall w :: w in probeVars ==> w in VarSet(probeVars);
    VarsDeclared(st, env, b, vm, base, f.iters);
    t := ProbeBodyRuns(rows[0], Advanced(st, id).locals, buildVars, buildRows, probeVars, keys, body, f, b, env, vm,
                       base, iters, j, u, m);
    TableKept(u, t, vm, b, base, iters + 2, {}, j, buildVars, keys, buildRows);
    FinishTurn(id, probeVars, ProbeCode(keys, BuildOrder(buildVars, keys), vm, base + (iters + 2), j, f.code), b, vm,
               base, f.iters, iters + 1, j + 1, st, t, m);
  }

  /** The probe loop runs the body for each pair of rows that join. */
  lemma {:induction false} ProbeRuns(rows: seq<Tuple>, id: int, buildVars: seq<Var>, buildRows: seq<Tuple>,
      probeVars: seq<Var>, keys: seq<Var>, body: Op, f: Emitted, b: set<Var>, env: Env, vm: VarMap, base: nat,
      iters: nat, j: nat, st: State, m: Machine) returns (s: State)
    requires f == EmitOp(body, vm, base, iters + 3, j + 1) && iters + 2 < f.iters &&
             Sides(buildVars, probeVars, keys, b, vm)
    requires Fits(body, b + VarSet(buildVars) + VarSet(probeVars), vm, m) && Standing(st, env, b, vm, base, f.iters)
    requires AllWide(rows, |probeVars|) && TableReady(st, j, buildVars, keys, buildRows) &&
             AtRows(st, base + (iters + 1), id, rows)
    requires RunAll(JoinRows(env, keys, buildVars, buildRows, probeVars, rows), body, m).Ok?
    ensures Ends([Loop(LoopBody(base + (iters + 1), probeVars, vm,
                                ProbeCode(keys, BuildOrder(buildVars, keys), vm, base + (iters + 2), j, f.code)))], st,
                                m, Jump(0, s))
    ensures Kept(st, s, vm, b, base, iters + 1, j + 1, {id})
    ensures s.host.facts ==
            st.host.facts + RunAll(JoinRows(env, keys, buildVars, buildRows, probeVars, rows), body, m).value
    decreases body, 4, |rows|
  {
    hide EmitOp, Scoped, Fitting, Binders, Fits, Run, Standing, Ends, Loaded, Layout, Declared, TableReady, LoopBody,
      ProbeCode;
    var code := ProbeCode(keys, BuildOrder(buildVars, keys), vm, base + (iters + 2), j, f.code);
    if rows == [] {
      s := LeaveLoop(id, probeVars, code, b, env, vm, base, f.iters, iters + 1, j + 1, st, m);
    } else {
      assert rows[0] in rows;
      var bucket := Bucket(keys, buildVars, buildRows, KeyOf(keys, probeVars, rows[0]));
      var now := BindRows(BindRow(env, probeVars, rows[0]), buildVars, bucket);
      var later := JoinRows(env, keys, buildVars, buildRows, probeVars, rows[1..]);
      assert JoinRows(env, keys, buildVars, buildRows, probeVars, rows) == now + later;
      RunAllConcat(now, later, body, m);
      var t := ProbeTurn(rows, id, buildVars, buildRows, probeVars, keys, body, f, b, env, vm, base, iters, j, st, m);
      StillStanding(st, t, env, b, vm, base, f.iters, iters + 1, j + 1, {id});
      assert AllWide(rows[1..], |probeVars|);
      s := ProbeRuns(rows[1..], id, buildVars, buildRows, probeVars, keys, body, f, b, env, vm, base, iters, j, t, m);
      assert t.(stack := st.stack) == t;
      EndsAgain(LoopBody(base + (iters + 1), probeVars, vm, code), st, m, t, Jump(0, s));
      KeptThen(st, t, s, vm, b, base, iters + 1, j + 1, {id});
    }
  }

  function BuildCode(buildRel: Pred, buildVars: seq<Var>, order: seq<Var>, keys: nat, vm: VarMap, it: nat,
      j: nat): seq<Instr> {
    [JoinBegin(j), ScanStart(buildRel), LocalSet(it)] +
    ScanLoop(it, buildVars, vm, SendVars(order, vm) + [JoinCommit(j, keys)])
  }

  function Begun(st: State, j: nat): State {
    st.(host := st.host.(joins := st.host.joins[j := []], buffers := st.host.buffers[JoinBuffer := []]))
  }

  lemma {:induction false} BeginRuns(st: State, it: nat, buildRel: Pred, j: nat, m: Machine)
    requires it in st.locals
    ensures Straight([JoinBegin(j), ScanStart(buildRel), LocalSet(it)], st, m) ==
            Some(Opened(Begun(st, j), it, m.full(buildRel)))
  {
    var rows := m.full(buildRel);
    OpenRuns(Begun(st, j), it, rows, m);
    StraightOne(LocalSet(it), OpenIter(Begun(st, j), rows), m);
    StraightCons(ScanStart(buildRel), [LocalSet(it)], Begun(st, j), OpenIter(Begun(st, j), rows), m);
    StraightCons(JoinBegin(j), [ScanStart(buildRel)] + [LocalSet(it)], st, Begun(st, j), m);
    assert [JoinBegin(j)] + ([ScanStart(buildRel)] + [LocalSet(it)]) ==
           [JoinBegin(j), ScanStart(buildRel), LocalSet(it)];
  }

  lemma {:induction false} BeginKeeps(st: State, env: Env, b: set<Var>, vm: VarMap, base: nat, n: nat, iters: nat,
      j: nat)
    requires Standing(st, env, b, vm, base, n)
    ensures Kept(st, Begun(st, j), vm, b, base, iters, j, {}) && Standing(Begun(st, j), env, b, vm, base, n)
  {
  }

  /** After the begin, with the iterator open, the build loop can start. */
  lemma {:induction false} BuildStart(rows: seq<Tuple>, buildVars: seq<Var>, order: seq<Var>, b: set<Var>, env: Env,
      vm: VarMap, base: nat, n: nat, iters: nat, j: nat, st: State)
    requires Standing(st, env, b, vm, base, n) && iters < n && Distinct(buildVars) && Among(order, buildVars)
    requires VarSet(buildVars) <= vm.Keys && AllWide(rows, |buildVars|)
    ensures var o := Opened(Begun(st, j), base + iters, rows);
            && Building(o, st.host.nextIter, rows, buildVars, order, vm, base, n, iters, j)
            && Kept(st, Begun(st, j), vm, b, base, iters, j, {}) && Kept(Begun(st, j), o, vm, b, base, iters, j, {})
            && st.host.nextIter !in st.host.iters && o.host.facts == st.host.facts && j in o.host.joins &&
               o.host.joins[j] == []
  {
    hide Kept, Loaded;
    BeginKeeps(st, env, b, vm, base, n, iters, j);
    OpenLoop(Begun(st, j), rows, env, b, vm, base, iters, j, n);
  }

  /** The build phase fills the table. */
  lemma {:induction false} BuildPhase(buildRel: Pred, buildVars: seq<Var>, keys: seq<Var>, b: set<Var>, env: Env,
      vm: VarMap, base: nat, n: nat, iters: nat, j: nat, st: State, m: Machine) returns (s: State)
    requires Standing(st, env, b, vm, base, n) && iters < n && Distinct(buildVars) && Among(keys, buildVars)
    requires VarSet(buildVars) !! b && VarSet(buildVars) <= vm.Keys && AllWide(m.full(buildRel), |buildVars|)
    ensures Ends(BuildCode(buildRel, buildVars, BuildOrder(buildVars, keys), |keys|, vm, base + iters, j), st, m,
                 Done(s))
    ensures Kept(st, s, vm, b, base, iters, j, {}) && s.host.facts == st.host.facts &&
            TableReady(s, j, buildVars, keys, m.full(buildRel))
  {
    hide Kept, Standing, Ends, Layout, Loaded, Declared, HostOk, ScanLoop, LoopBody, SendVars, BuildOrder, Building,
      Opened, Reordered;
    var rows, order, it := m.full(buildRel), BuildOrder(buildVars, keys), base + iters;
    var t, id := Begun(st, j), st.host.nextIter;
    OrderShape(buildVars, keys);
    StandingParts(st, env, b, vm, base, n);
    BuildStart(rows, buildVars, order, b, env, vm, base, n, iters, j, st);
    var o := Opened(t, it, rows);
    BeginRuns(st, it, buildRel, j, m);
    s := BuildRuns(o, id, rows, buildVars, order, |keys|, b, vm, base, n, iters, j, m);
    CloseLoop(t, o, s, id, it, buildVars, SendVars(order, vm) + [JoinCommit(j, |keys|)], vm, b, base, iters, j, m);
    OpenThen([JoinBegin(j), ScanStart(buildRel), LocalSet(it)],
             ScanLoop(it, buildVars, vm, SendVars(order, vm) + [JoinCommit(j, |keys|)]),
             st, t, o, s, vm, b, base, iters, j, m);
    assert [] + Reordered(order, buildVars, rows) == Reordered(order, buildVars, rows);
  }

  /** The probe phase runs the body for each joined pair. */
  lemma {:induction false} ProbePhase(probeRel: Pred, probeVars: seq<Var>, buildVars: seq<Var>, buildRows: seq<Tuple>,
      keys: seq<Var>, body: Op, f: Emitted, b: set<Var>, env: Env, vm: VarMap, base: nat, iters: nat, j: nat,
      st: State, m: Machine) returns (s: State)
    requires f == EmitOp(body, vm, base, iters + 3, j + 1) && iters + 2 < f.iters &&
             Sides(buildVars, probeVars, keys, b, vm)
    requires Fits(body, b + VarSet(buildVars) + VarSet(probeVars), vm, m) && Standing(st, env, b, vm, base, f.iters)
    requires AllWide(m.full(probeRel), |probeVars|) && TableReady(st, j, buildVars, keys, buildRows)
    requires RunAll(JoinRows(env, keys, buildVars, buildRows, probeVars, m.full(probeRel)), body, m).Ok?
    ensures Achieves([ScanStart(probeRel), LocalSet(base + (iters + 1))] +
                     ScanLoop(base + (iters + 1), probeVars, vm,
                              ProbeCode(keys, BuildOrder(buildVars, keys), vm, base + (iters + 2), j, f.code)),
                     st, s, RunAll(JoinRows(env, keys, buildVars, buildRows, probeVars, m.full(probeRel)), body,
                                   m).value, vm, b, base, iters + 1, j + 1, m)
    decreases body, 5, 0
  {
    hide EmitOp, Scoped, Fitting, Binders, Fits, Kept, Ends, Layout, Loaded, Declared, HostOk, TableReady, Run, RunAll,
      ScanLoop, LoopBody, Opened, ProbeCode, JoinRows, BuildOrder;
    var rows, it, id := m.full(probeRel), base + (iters + 1), st.host.nextIter;
    var code := ProbeCode(keys, BuildOrder(buildVars, keys), vm, base + (iters + 2), j, f.code);
    StandingParts(st, env, b, vm, base, f.iters);
    OpenLoop(st, rows, env, b, vm, base, iters + 1, j + 1, f.iters);
    var o := Opened(st, it, rows);
    TableKept(st, o, vm, b, base, iters + 1, {}, j, buildVars, keys, buildRows);
    s := ProbeRuns(rows, id, buildVars, buildRows, probeVars, keys, body, f, b, env, vm, base, iters, j, o, m);
    CloseLoop(st, o, s, id, it, probeVars, code, vm, b, base, iters + 1, j + 1, m);
    ScanOpens(probeRel, it, st, m);
    KeptSelf(st, vm, b, base, iters + 1, j + 1);
    OpenThen([ScanStart(probeRel), LocalSet(it)], ScanLoop(it, probeVars, vm, code), st, st, o, s, vm, b, base,
             iters + 1, j + 1, m);
  }

  lemma {:induction false} ScanOpens(rel: Pred, it: nat, st: State, m: Machine)
    requires it in st.locals
    ensures Straight([ScanStart(rel), LocalSet(it)], st, m) == Some(Opened(st, it, m.full(rel)))
  {
    OpenRuns(st, it, m.full(rel), m);
    StraightOne(LocalSet(it), OpenIter(st, m.full(rel)), m);
    StraightCons(ScanStart(rel), [LocalSet(it)], st, OpenIter(st, m.full(rel)), m);
    assert [ScanStart(rel)] + [LocalSet(it)] == [ScanStart(rel), LocalSet(it)];
  }

  /** Build, probe, tear down. */
  lemma {:induction false} PhasesRun(a: seq<Instr>, p: seq<Instr>, st: State, s1: State, s2: State, facts: set<Fact>,
      vm: VarMap, b: set<Var>, base: nat, iters: nat, j: nat, m: Machine) returns (s: State)
    requires Ends(a, st, m, Done(s1)) && Kept(st, s1, vm, b, base, iters, j, {}) && s1.host.facts == st.host.facts
    requires Achieves(p, s1, s2, facts, vm, b, base, iters + 1, j + 1, m)
    ensures Achieves(a + (p + [JoinEnd(j)]), st, s, facts, vm, b, base, iters, j, m)
  {
    s := s2.(host := s2.host.(joins := s2.host.joins - {j}));
    EndsOne(JoinEnd(j), s2, m, Done(s));
    EndsConcat(p, [JoinEnd(j)], s1, m, s2, Done(s));
    EndsConcat(a, p + [JoinEnd(j)], st, m, s1, Done(s));
    KeptLess(s1, s2, vm, b, base, iters + 1, j + 1, {}, b, iters, j, {});
    KeptThen(st, s1, s2, vm, b, base, iters, j, {});
  }

  lemma {:induction false} JoinRuns(buildRel: Pred, buildVars: seq<Var>, probeRel: Pred, probeVars: seq<Var>,
      keys: seq<Var>, body: Op, f: Emitted, b: set<Var>, env: Env, vm: VarMap, base: nat, iters: nat, j: nat,
      st: State, m: Machine) returns (s: State)
    requires f == EmitOp(body, vm, base, iters + 3, j + 1) && iters + 2 < f.iters &&
             Sides(buildVars, probeVars, keys, b, vm)
    requires Fits(body, b + VarSet(buildVars) + VarSet(probeVars), vm, m) && Standing(st, env, b, vm, base, f.iters)
    requires AllWide(m.full(buildRel), |buildVars|) && AllWide(m.full(probeRel), |probeVars|)
    requires RunAll(JoinRows(env, keys, buildVars, m.full(buildRel), probeVars, m.full(probeRel)), body, m).Ok?
    ensures Achieves(BuildCode(buildRel, buildVars, BuildOrder(buildVars, keys), |keys|, vm, base + iters, j) +
                     (([ScanStart(probeRel), LocalSet(base + (iters + 1))] +
                       ScanLoop(base + (iters + 1), probeVars, vm,
                                ProbeCode(keys, BuildOrder(buildVars, keys), vm, base + (iters + 2), j, f.code))) +
                      [JoinEnd(j)]),
                     st, s, RunAll(JoinRows(env, keys, buildVars, m.full(buildRel), probeVars, m.full(probeRel)), body,
                                   m).value, vm, b, base, iters, j, m)
    decreases body, 6, 0
  {
    hide EmitOp, Scoped, Fitting, Binders, Run, RunAll;
    var s1 := BuildPhase(buildRel, buildVars, keys, b, env, vm, base, f.iters, iters, j, st, m);
    StillStanding(st, s1, env, b, vm, base, f.iters, iters, j, {});
    var s2 :=
      ProbePhase(probeRel, probeVars, buildVars, m.full(buildRel), keys, body, f, b, env, vm, base, iters, j, s1, m);
    s := PhasesRun(BuildCode(buildRel, buildVars, BuildOrder(buildVars, keys), |keys|, vm, base + iters, j),
                   [ScanStart(probeRel), LocalSet(base + (iters + 1))] +
                   ScanLoop(base + (iters + 1), probeVars, vm,
                            ProbeCode(keys, BuildOrder(buildVars, keys), vm, base + (iters + 2), j, f.code)),
                   st, s1, s2,
                   RunAll(JoinRows(env, keys, buildVars, m.full(buildRel), probeVars, m.full(probeRel)), body, m).value,
                   vm, b, base, iters, j, m);
  }
}
