/** What the straight pieces of the emitted code do. */
module CodeSteps {
  import opened Datalog
  import opened Interp
  import opened Planner
  import opened Lowering
  import opened Scope
  import opened Wasm
  import opened Emit

  /** The locals hold the values of the variables in scope. */
  ghost predicate Loaded(st: State, vm: VarMap, env: Env, b: set<Var>) {
    forall v :: v in b ==> v in vm && v in env && vm[v] in st.locals && st.locals[vm[v]] == Ref(env[v])
  }

  /** Nothing has changed but a buffer other than that of the joins. */
  ghost predicate SameStore(h: Host, k: Host) {
    && k == h.(buffers := k.buffers, targets := k.targets)
    && (JoinBuffer in h.buffers ==> JoinBuffer in k.buffers && k.buffers[JoinBuffer] == h.buffers[JoinBuffer])
  }

  ghost predicate JoinReady(h: Host) {
    JoinBuffer in h.buffers && h.buffers[JoinBuffer] == []
  }

  lemma {:induction false} OperandRuns(o: Operand, vm: VarMap, env: Env, b: set<Var>, st: State, m: Machine)
    requires Loaded(st, vm, env, b) && OperandVars([o]) <= b
    ensures EvalOperand(o, env).Ok?
    ensures Straight(EmitOperand(o, vm), st, m) == Some(st.Pushed(Ref(EvalOperand(o, env).value)))
  {
    StraightOne(EmitOperand(o, vm)[0], st, m);
    if o.OVar? { assert o.v in OperandVars([o]); }
  }

  lemma {:induction false} OperandsRun(os: seq<Operand>, vm: VarMap, env: Env, b: set<Var>, st: State, m: Machine)
    requires Loaded(st, vm, env, b) && OperandVars(os) <= b
    ensures EvalOperands(os, env).Ok?
    ensures Straight(EmitOperands(os, vm), st, m) == Some(st.(stack := st.stack + Refs(EvalOperands(os, env).value)))
    decreases |os|
  {
    if os == [] {
      assert st.stack + Refs([]) == st.stack;
    } else {
      assert OperandVars(os) == OperandVars([os[0]]) + OperandVars(os[1..]);
      OperandRuns(os[0], vm, env, b, st, m);
      var s := st.Pushed(Ref(EvalOperand(os[0], env).value));
      OperandsRun(os[1..], vm, env, b, s, m);
      StraightConcat(EmitOperand(os[0], vm), EmitOperands(os[1..], vm), st, m);
      assert s.stack + Refs(EvalOperands(os[1..], env).value) == st.stack + Refs(EvalOperands(os, env).value);
    }
  }

  function Sent(st: State, k: Buffer, vs: Tuple): State {
    if k in st.host.buffers then st.(host := st.host.(buffers := st.host.buffers[k := st.host.buffers[k] + vs])) else st
  }

  lemma {:induction false} SentTwice(st: State, k: Buffer, a: Tuple, b: Tuple)
    requires k in st.host.buffers
    ensures Sent(Sent(st, k, a), k, b) == Sent(st, k, a + b)
  {
    assert st.host.buffers[k] + a + b == st.host.buffers[k] + (a + b);
  }

  lemma {:induction false} PushRuns(st: State, v: Value, k: Buffer, m: Machine)
    requires k in st.host.buffers
    ensures Straight([Push(k)], st.Pushed(Ref(v)), m) == Some(Sent(st, k, [v]))
  {
    var s := st.Pushed(Ref(v));
    StraightOne(Push(k), s, m);
    assert s.Popped(1) == st && s.Top(0) == Ref(v);
  }

  lemma {:induction false} PushesRun(os: seq<Operand>, vm: VarMap, k: Buffer, env: Env, b: set<Var>, st: State,
      m: Machine)
    requires Loaded(st, vm, env, b) && OperandVars(os) <= b && k in st.host.buffers
    ensures EvalOperands(os, env).Ok?
    ensures Straight(Pushes(os, vm, k), st, m) == Some(Sent(st, k, EvalOperands(os, env).value))
    decreases |os|
  {
    if os == [] {
      assert st.host.buffers[k] + [] == st.host.buffers[k];
      assert Sent(st, k, []) == st;
    } else {
      assert OperandVars(os) == OperandVars([os[0]]) + OperandVars(os[1..]);
      OperandRuns(os[0], vm, env, b, st, m);
      var v := EvalOperand(os[0], env).value;
      PushRuns(st, v, k, m);
      StraightConcat(EmitOperand(os[0], vm), [Push(k)], st, m);
      PushesRun(os[1..], vm, k, env, b, Sent(st, k, [v]), m);
      StraightConcat(EmitOperand(os[0], vm) + [Push(k)], Pushes(os[1..], vm, k), st, m);
      SentTwice(st, k, [v], EvalOperands(os[1..], env).value);
    }
  }

  lemma {:induction false} RefsValues(vs: seq<Value>)
    ensures Wasm.Values(Refs(vs)) == Some(vs)
  {
    var r := Refs(vs);
    forall s | s in r ensures s.Ref? {
      var i :| 0 <= i < |r| && r[i] == s;
    }
    var u := Wasm.Values(r).value;
    forall i | 0 <= i < |vs| ensures u[i] == vs[i] { assert r[i] == Ref(u[i]); }
    assert u == vs;
  }

  lemma {:induction false} ExprRuns(ex: Expr, vm: VarMap, env: Env, b: set<Var>, st: State, m: Machine)
    requires Loaded(st, vm, env, b) && ExprVars(ex) <= b && EvalExpr(ex, env, m).Ok?
    ensures Straight(EmitExpr(ex, vm), st, m) == Some(st.Pushed(Ref(EvalExpr(ex, env, m).value)))
  {
    match ex
    case ValueOf(o) => OperandRuns(o, vm, env, b, st, m);
    case Call(f, args) =>
      OperandsRun(args, vm, env, b, st, m);
      var vs := EvalOperands(args, env).value;
      var s := st.(stack := st.stack + Refs(vs));
      StraightConcat(EmitOperands(args, vm), [CallFn(f, |args|)], st, m);
      StraightOne(CallFn(f, |args|), s, m);
      RefsValues(vs);
      assert s.stack[|s.stack| - |args|..] == Refs(vs) && s.Popped(|args|) == st;
  }

  /** A condition leaves its truth value and changes at most a buffer. */
  lemma {:induction false} CondRuns(c: Cond, vm: VarMap, env: Env, b: set<Var>, st: State, m: Machine)
      returns (s: State)
    requires Loaded(st, vm, env, b) && CondVars(c) <= b && EvalCond(c, env, m).Ok?
    ensures Straight(EmitCond(c, vm), st, m) == Some(s)
    ensures s.stack == st.stack + [Truth(EvalCond(c, env, m).value)] && s.locals == st.locals &&
            SameStore(st.host, s.host)
    decreases c
  {
    match c
    case Cmp(op, l, r) => s := CmpRuns(op, l, r, vm, env, b, st, m);
    case Negation(rel, args) => s := NegationRuns(rel, args, vm, env, b, st, m);
    case CallCheck(p, args) => s := TestRuns(p, args, vm, env, b, st, m);
    case Not(inner) =>
      var t := CondRuns(inner, vm, env, b, st, m);
      StraightConcat(EmitCond(inner, vm), [I32Eqz], st, m);
      StraightOne(I32Eqz, t, m);
      assert t.Popped(1).stack == st.stack;
      s := Step(I32Eqz, t, m).value;
  }

  lemma {:induction false} CmpRuns(op: CmpOp, l: Operand, r: Operand, vm: VarMap, env: Env, b: set<Var>, st: State,
      m: Machine) returns (s: State)
    requires Loaded(st, vm, env, b) && OperandVars([l, r]) <= b
    ensures EvalCond(Cmp(op, l, r), env, m).Ok? && Straight(EmitCond(Cmp(op, l, r), vm), st, m) == Some(s)
    ensures s == st.Pushed(Truth(EvalCond(Cmp(op, l, r), env, m).value))
  {
    OperandsRun([l, r], vm, env, b, st, m);
    var vs := EvalOperands([l, r], env).value;
    var t := st.(stack := st.stack + Refs(vs));
    StraightConcat(EmitOperands([l, r], vm), [CallCmp(op)], st, m);
    StraightOne(CallCmp(op), t, m);
    assert t.Top(0) == Ref(vs[1]) && t.Top(1) == Ref(vs[0]) && t.Popped(2) == st;
    s := st.Pushed(Truth(EvalCond(Cmp(op, l, r), env, m).value));
  }

  lemma {:induction false} SplitTop(a: seq<Slot>, b: seq<Slot>, n: nat)
    requires n == |b|
    ensures (a + b)[|a + b| - n..] == b && (a + b)[..|a + b| - n] == a
  {
  }

  /** The test takes the values sent, and leaves its answer. */
  lemma {:induction false} TestAnswers(p: Pred, vs: Tuple, st: State, m: Machine)
    requires EvalCheck(p, vs, m).Ok?
    ensures HostTest(p, st.(stack := st.stack + Refs(vs)), m) == Some(st.Pushed(Truth(EvalCheck(p, vs, m).value)))
  {
    assert HasImport(p) && TestArity(p) == |vs|;
    hide EvalCheck, Wasm.Values, TestArity;
    RefsValues(vs);
    SplitTop(st.stack, Refs(vs), |vs|);
    assert st.(stack := st.stack + Refs(vs)).Popped(|vs|) == st;
  }

  lemma {:induction false} TestRuns(p: Pred, args: seq<Operand>, vm: VarMap, env: Env, b: set<Var>, st: State,
      m: Machine) returns (s: State)
    requires Loaded(st, vm, env, b) && OperandVars(args) <= b && EvalCond(CallCheck(p, args), env, m).Ok?
    ensures Straight(EmitCond(CallCheck(p, args), vm), st, m) == Some(s)
    ensures s == st.Pushed(Truth(EvalCond(CallCheck(p, args), env, m).value))
  {
    hide Straight, EmitOperands, EmitOperand, Loaded, HostTest, EvalCheck;
    OperandsRun(args, vm, env, b, st, m);
    var vs := EvalOperands(args, env).value;
    var t := st.(stack := st.stack + Refs(vs));
    StraightConcat(EmitOperands(args, vm), [CallTest(p)], st, m);
    TestAnswers(p, vs, st, m);
    StraightOne(CallTest(p), t, m);
    s := st.Pushed(Truth(EvalCond(CallCheck(p, args), env, m).value));
  }

  lemma {:induction false} NegationRuns(rel: Pred, args: seq<Operand>, vm: VarMap, env: Env, b: set<Var>, st: State,
      m: Machine) returns (s: State)
    requires Loaded(st, vm, env, b) && OperandVars(args) <= b
    ensures EvalCond(Negation(rel, args), env, m).Ok? && Straight(EmitCond(Negation(rel, args), vm), st, m) == Some(s)
    ensures s.stack == st.stack + [Truth(EvalCond(Negation(rel, args), env, m).value)] && s.locals == st.locals &&
            SameStore(st.host, s.host)
  {
    hide Straight, Pushes, EmitOperand;
    var k := NegationBuffer;
    var start := Step(Begin(k, rel), st, m).value;
    StraightOne(Begin(k, rel), st, m);
    PushesRun(args, vm, k, env, b, start, m);
    var vs := EvalOperands(args, env).value;
    var t := Sent(start, k, vs);
    assert [] + vs == vs;
    StraightOne(NegationEnd, t, m);
    s := Step(NegationEnd, t, m).value;
    StraightConcat(Pushes(args, vm, k), [NegationEnd], start, m);
    StraightConcat([Begin(k, rel)], Pushes(args, vm, k) + [NegationEnd], st, m);
    NoMatchMeans(m.full(rel), args, env);
  }

  /** Sending a fact. */
  lemma {:induction false} InsertRuns(rel: Pred, args: seq<Operand>, vm: VarMap, env: Env, b: set<Var>, st: State,
      m: Machine) returns (s: State)
    requires Loaded(st, vm, env, b) && OperandVars(args) <= b
    ensures EvalOperands(args, env).Ok?
    ensures Straight([Begin(InsertBuffer, rel)] + (Pushes(args, vm, InsertBuffer) + [InsertEnd]), st, m) == Some(s)
    ensures s.stack == st.stack && s.locals == st.locals
    ensures SameStore(st.host.(facts := st.host.facts + {Fact(rel, EvalOperands(args, env).value)}), s.host)
  {
    var k := InsertBuffer;
    var start := Step(Begin(k, rel), st, m).value;
    StraightOne(Begin(k, rel), st, m);
    PushesRun(args, vm, k, env, b, start, m);
    var vs := EvalOperands(args, env).value;
    var t := Sent(start, k, vs);
    assert [] + vs == vs;
    StraightOne(InsertEnd, t, m);
    s := Step(InsertEnd, t, m).value;
    StraightConcat(Pushes(args, vm, k), [InsertEnd], start, m);
    StraightConcat([Begin(k, rel)], Pushes(args, vm, k) + [InsertEnd], st, m);
  }

  // ----- Binding the columns of a tuple -----

  function BindLocals(locals: map<nat, Slot>, vm: VarMap, vars: seq<Var>, row: Tuple): map<nat, Slot>
    requires |vars| == |row|
    decreases |vars|
  {
    if vars == [] then locals
    else BindLocals(if vars[0] in vm then locals[vm[vars[0]] := Ref(row[0])] else locals, vm, vars[1..], row[1..])
  }

  /** The current tuple ends with these columns from `col` on. */
  ghost predicate AtTuple(st: State, row: Tuple, col: nat) {
    && TUPLE in st.locals && st.locals[TUPLE].Int? && st.locals[TUPLE].n in st.host.rows
    && col <= |st.host.rows[st.locals[TUPLE].n]| && st.host.rows[st.locals[TUPLE].n][col..] == row
  }

  /** Locals of variables: apart from the two fixed ones, and one for each. */
  ghost predicate Layout(vm: VarMap, base: nat) {
    && (forall v :: v in vm ==> FIRST_VAR <= vm[v] < base)
    && (forall v, w :: v in vm && w in vm && vm[v] == vm[w] ==> v == w)
  }

  lemma {:induction false} BindOne(v: Var, vm: VarMap, base: nat, row: Tuple, col: nat, st: State, m: Machine)
    requires Layout(vm, base) && v in vm && vm[v] in st.locals && row != [] && AtTuple(st, row, col)
    ensures var s := st.(locals := st.locals[vm[v] := Ref(row[0])]);
            Straight([LocalGet(TUPLE), GetCol(col), LocalSet(vm[v])], st, m) == Some(s) && AtTuple(s, row[1..], col + 1)
  {
    var code := [LocalGet(TUPLE), GetCol(col), LocalSet(vm[v])];
    var all := st.host.rows[st.locals[TUPLE].n];
    assert all[col] == row[0] && all[col + 1..] == row[1..];
    var s1 := st.Pushed(st.locals[TUPLE]);
    var s2 := st.Pushed(Ref(row[0]));
    assert s1.Top(0) == st.locals[TUPLE] && s1.Popped(1) == st && s2.Popped(1) == st && s2.Top(0) == Ref(row[0]);
    assert code[1..] == [GetCol(col), LocalSet(vm[v])] && code[1..][1..] == [LocalSet(vm[v])];
    assert Step(code[0], st, m) == Some(s1) && Step(GetCol(col), s1, m) == Some(s2);
    StraightOne(LocalSet(vm[v]), s2, m);
    assert Straight(code[1..], s1, m) == Straight([LocalSet(vm[v])], s2, m);
  }

  lemma {:induction false} BindsRun(vars: seq<Var>, vm: VarMap, base: nat, row: Tuple, col: nat, st: State, m: Machine)
    requires Layout(vm, base) && |vars| == |row| && AtTuple(st, row, col)
    requires forall v :: v in vars && v in vm ==> vm[v] in st.locals
    ensures Straight(Binds(vars, vm, col), st, m) == Some(st.(locals := BindLocals(st.locals, vm, vars, row)))
    decreases |vars|
  {
    if vars != [] {
      var first := if vars[0] in vm then [LocalGet(TUPLE), GetCol(col), LocalSet(vm[vars[0]])] else [];
      var s := if vars[0] in vm then st.(locals := st.locals[vm[vars[0]] := Ref(row[0])]) else st;
      if vars[0] in vm { BindOne(vars[0], vm, base, row, col, st, m); } else {
        var all := st.host.rows[st.locals[TUPLE].n];
        assert all[col + 1..] == row[1..];
      }
      StraightConcat(first, Binds(vars[1..], vm, col + 1), st, m);
      BindsRun(vars[1..], vm, base, row[1..], col + 1, s, m);
    }
  }

  /** Binding touches the locals of the variables only. */
  lemma {:induction false} BindLocalsFrame(locals: map<nat, Slot>, vm: VarMap, vars: seq<Var>, row: Tuple, i: nat)
    requires |vars| == |row| && forall v :: v in vars && v in vm ==> vm[v] in locals && vm[v] != i
    ensures var l := BindLocals(locals, vm, vars, row);
            l.Keys == locals.Keys && (i in locals ==> l[i] == locals[i])
    decreases |vars|
  {
    if vars != [] {
      BindLocalsFrame(if vars[0] in vm then locals[vm[vars[0]] := Ref(row[0])] else locals, vm, vars[1..], row[1..], i);
    }
  }

  /** Afterwards the locals hold the environment with the row bound. */
  lemma {:induction false} BindLoads(st: State, vm: VarMap, base: nat, env: Env, b: set<Var>, vars: seq<Var>,
      row: Tuple)
    requires Layout(vm, base) && Loaded(st, vm, env, b) && |vars| == |row|
    requires forall v :: v in vars ==> v in vm && vm[v] in st.locals
    ensures Loaded(st.(locals := BindLocals(st.locals, vm, vars, row)), vm, BindRow(env, vars, row), b + VarSet(vars))
    decreases |vars|
  {
    if vars == [] {
      assert b + VarSet(vars) == b;
    } else {
      var s, e := st.(locals := st.locals[vm[vars[0]] := Ref(row[0])]), env[vars[0] := row[0]];
      assert vars[0] in vars;
      assert Loaded(s, vm, e, b + {vars[0]});
      BindLoads(s, vm, base, e, b + {vars[0]}, vars[1..], row[1..]);
      assert b + {vars[0]} + VarSet(vars[1..]) == b + VarSet(vars);
    }
  }

  // ----- The head of a loop -----

  ghost predicate HostOk(h: Host) {
    h.nextRow >= 1 && forall id :: id in h.iters ==> id < h.nextIter
  }

  function Advanced(st: State, id: int): State
    requires id in st.host.iters && st.host.iters[id] != [] && TUPLE in st.locals
  {
    var h := st.host;
    State(st.locals[TUPLE := Int(h.nextRow)], st.stack,
          h.(iters := h.iters[id := h.iters[id][1..]], rows := h.rows[h.nextRow := h.iters[id][0]],
                                                               nextRow := h.nextRow + 1))
  }

  lemma {:induction false} GetNext(id: int, st: State, m: Machine)
    requires TUPLE in st.locals && id in st.host.iters && st.host.iters[id] != []
    ensures Step(ScanNext, st.Pushed(Int(id)), m) ==
            Some(Advanced(st, id).(locals := st.locals).Pushed(Int(st.host.nextRow)))
  {
    assert st.Pushed(Int(id)).Top(0) == Int(id) && st.Pushed(Int(id)).Popped(1) == st;
  }

  lemma {:induction false} GetNone(id: int, st: State, m: Machine)
    requires id in st.host.iters && st.host.iters[id] == []
    ensures Step(ScanNext, st.Pushed(Int(id)), m) == Some(st.Pushed(Int(0)))
  {
    assert st.Pushed(Int(id)).Top(0) == Int(id) && st.Pushed(Int(id)).Popped(1) == st;
  }

  lemma {:induction false} TeeAndTest(st: State, p: int, m: Machine)
    requires TUPLE in st.locals
    ensures var s := st.(locals := st.locals[TUPLE := Int(p)]);
            && Step(LocalTee(TUPLE), st.Pushed(Int(p)), m) == Some(s.Pushed(Int(p)))
            && Step(I32Eqz, s.Pushed(Int(p)), m) == Some(s.Pushed(Truth(p == 0)))
  {
    var s := st.(locals := st.locals[TUPLE := Int(p)]);
    assert st.Pushed(Int(p)).Top(0) == Int(p) && s.Pushed(Int(p)).Top(0) == Int(p) && s.Pushed(Int(p)).Popped(1) == s;
  }

  lemma {:induction false} LeaveOrNot(st: State, leave: bool, m: Machine)
    ensures Ends([BrIf(1)], st.Pushed(Truth(leave)), m, if leave then Jump(1, st) else Done(st))
  {
    var s := st.Pushed(Truth(leave));
    assert s.Top(0) == Truth(leave) && s.Popped(1) == st;
    EndsOne(BrIf(1), s, m, if leave then Jump(1, st) else Done(st));
  }

  /** The four instructions that fetch a row, given what the fetch does. */
  lemma {:induction false} FetchRuns(it: nat, id: int, st: State, a: State, p: int, m: Machine)
    requires it in st.locals && st.locals[it] == Int(id) && TUPLE in a.locals
    requires Step(ScanNext, st.Pushed(Int(id)), m) == Some(a.Pushed(Int(p)))
    ensures var s := a.(locals := a.locals[TUPLE := Int(p)]);
            Ends(NextOrLeave(it), st, m, if p == 0 then Jump(1, s) else Done(s))
  {
    var s := a.(locals := a.locals[TUPLE := Int(p)]);
    var scan := [LocalGet(it), ScanNext, LocalTee(TUPLE), I32Eqz];
    var e := if p == 0 then Jump(1, s) else Done(s);
    TeeAndTest(a, p, m);
    StraightFour(LocalGet(it), ScanNext, LocalTee(TUPLE), I32Eqz,
                 st, st.Pushed(Int(id)), a.Pushed(Int(p)), s.Pushed(Int(p)), s.Pushed(Truth(p == 0)), m);
    StraightEnds(scan, st, m);
    LeaveOrNot(s, p == 0, m);
    EndsConcat(scan, [BrIf(1)], st, m, s.Pushed(Truth(p == 0)), e);
    assert scan + [BrIf(1)] == NextOrLeave(it);
  }

  lemma {:induction false} NextRow(it: nat, id: int, st: State, m: Machine)
    requires it in st.locals && st.locals[it] == Int(id) && TUPLE in st.locals
    requires id in st.host.iters && st.host.iters[id] != [] && st.host.nextRow >= 1
    ensures Ends(NextOrLeave(it), st, m, Done(Advanced(st, id)))
  {
    GetNext(id, st, m);
    FetchRuns(it, id, st, Advanced(st, id).(locals := st.locals), st.host.nextRow, m);
  }

  lemma {:induction false} NoRow(it: nat, id: int, st: State, m: Machine)
    requires it in st.locals && st.locals[it] == Int(id) && TUPLE in st.locals
    requires id in st.host.iters && st.host.iters[id] == []
    ensures Ends(NextOrLeave(it), st, m, Jump(1, st.(locals := st.locals[TUPLE := Int(0)])))
  {
    GetNone(id, st, m);
    FetchRuns(it, id, st, st, 0, m);
  }

  /** One turn of a loop: take the row, bind it, run the body, go back. */
  lemma {:induction false} LoopTurn(it: nat, id: int, vars: seq<Var>, vm: VarMap, base: nat, body: seq<Instr>,
      st: State, m: Machine, s: State)
    requires Layout(vm, base) && it in st.locals && st.locals[it] == Int(id) && TUPLE in st.locals
    requires id in st.host.iters && st.host.iters[id] != [] && st.host.nextRow >= 1 && |st.host.iters[id][0]| == |vars|
    requires forall v :: v in vars && v in vm ==> vm[v] in st.locals
    requires var a := Advanced(st, id);
             Ends(body, a.(locals := BindLocals(a.locals, vm, vars, st.host.iters[id][0])), m, Done(s))
    ensures Ends(LoopBody(it, vars, vm, body), st, m, Jump(0, s))
  {
    var a, row := Advanced(st, id), st.host.iters[id][0];
    var bound := a.(locals := BindLocals(a.locals, vm, vars, row));
    NextRow(it, id, st, m);
    assert row[0..] == row;
    assert AtTuple(a, row, 0);
    BindsRun(vars, vm, base, row, 0, a, m);
    StraightEnds(Binds(vars, vm, 0), a, m);
    EndsOne(Br(0), s, m, Jump(0, s));
    EndsConcat(body, [Br(0)], bound, m, s, Jump(0, s));
    EndsConcat(Binds(vars, vm, 0), body + [Br(0)], a, m, bound, Jump(0, s));
    EndsConcat(NextOrLeave(it), Binds(vars, vm, 0) + (body + [Br(0)]), st, m, a, Jump(0, s));
  }

  lemma {:induction false} LoopLeaves(it: nat, id: int, vars: seq<Var>, vm: VarMap, body: seq<Instr>, st: State,
      m: Machine)
    requires it in st.locals && st.locals[it] == Int(id) && TUPLE in st.locals
    requires id in st.host.iters && st.host.iters[id] == []
    ensures Ends([Loop(LoopBody(it, vars, vm, body))], st, m, Jump(0, st.(locals := st.locals[TUPLE := Int(0)])))
  {
    var s := st.(locals := st.locals[TUPLE := Int(0)]);
    NoRow(it, id, st, m);
    EndsEarly(NextOrLeave(it), Binds(vars, vm, 0) + (body + [Br(0)]), st, m, Jump(1, s));
    EndsLoop(LoopBody(it, vars, vm, body), st, m, 0, s);
  }
}
