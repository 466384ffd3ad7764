/** Code generation: a plan becomes structured code over numbered locals. */
module Emit {
  import opened Datalog
  import opened Planner
  import opened Wasm

  /** Local 0 is scratch for a reference, local 1 holds the current tuple; variables come next,
      then one local per iterator. */
  const SCRATCH: nat := 0
  const TUPLE: nat := 1
  const FIRST_VAR: nat := 2

  type VarMap = map<Var, nat>

  // ----- First pass: locals for variables, count of iterators -----

  datatype Collected = Collected(vm: VarMap, next: nat, iters: nat)

  function AddVar(c: Collected, v: Var): Collected {
    if v in c.vm then c else c.(vm := c.vm[v := c.next], next := c.next + 1)
  }

  function AddVars(c: Collected, vars: seq<Var>): Collected
    decreases |vars|
  {
    if vars == [] then c else AddVars(AddVar(c, vars[0]), vars[1..])
  }

  function CollectVars(op: Op, c: Collected): Collected {
    match op
    case Nop => c
    case Insert(_, _) => c
    case Filter(_, body) => CollectVars(body, c)
    case Let(v, _, body) => CollectVars(body, AddVar(c, v))
    case Iterate(src, body) => CollectVars(body, AddVars(c, src.vars).(iters := c.iters + 1))
    case HashJoin(_, build, _, probe, _, body) =>
      CollectVars(body, AddVars(AddVars(c, build), probe).(iters := c.iters + 3))
    case BindField(_, _, v, body) => CollectVars(body, AddVar(c, v))
    case IterateList(_, v, body) => CollectVars(body, AddVar(c, v).(iters := c.iters + 1))
  }

  // ----- Second pass: code -----

  function SetVar(v: Var, vm: VarMap): Instr {
    if v in vm then LocalSet(vm[v]) else Drop
  }

  function EmitOperand(o: Operand, vm: VarMap): seq<Instr> {
    match o
    case OVar(v) => if v in vm then [LocalGet(vm[v])] else [RefNull]
    case OConst(c) => [ConstRef(c)]
  }

  function EmitOperands(os: seq<Operand>, vm: VarMap): seq<Instr> {
    if os == [] then [] else EmitOperand(os[0], vm) + EmitOperands(os[1..], vm)
  }

  function Pushes(os: seq<Operand>, vm: VarMap, b: Buffer): seq<Instr> {
    if os == [] then [] else (EmitOperand(os[0], vm) + [Push(b)]) + Pushes(os[1..], vm, b)
  }

  function EmitCond(c: Cond, vm: VarMap): seq<Instr> {
    match c
    case Cmp(op, l, r) => EmitOperands([l, r], vm) + [CallCmp(op)]
    case Negation(rel, args) => [Begin(NegationBuffer, rel)] + (Pushes(args, vm, NegationBuffer) + [NegationEnd])
    case CallCheck(p, args) => EmitOperands(args, vm) + [CallTest(p)]
    case Not(inner) => EmitCond(inner, vm) + [I32Eqz]
  }

  function EmitExpr(e: Expr, vm: VarMap): seq<Instr> {
    match e
    case ValueOf(o) => EmitOperand(o, vm)
    case Call(f, args) => EmitOperands(args, vm) + [CallFn(f, |args|)]
  }

  /** Bind the variables to the columns of the current tuple. */
  function Binds(vars: seq<Var>, vm: VarMap, col: nat): seq<Instr> {
    if vars == [] then []
    else
      (if vars[0] in vm then [LocalGet(TUPLE), GetCol(col), LocalSet(vm[vars[0]])] else []) +
      Binds(vars[1..], vm, col + 1)
  }

  /** Send the values of the variables to the join buffer. */
  function SendVars(vars: seq<Var>, vm: VarMap): seq<Instr> {
    if vars == [] then []
    else (if vars[0] in vm then [LocalGet(vm[vars[0]]), Push(JoinBuffer)] else []) + SendVars(vars[1..], vm)
  }

  function NextOrLeave(it: nat): seq<Instr> {
    [LocalGet(it), ScanNext, LocalTee(TUPLE), I32Eqz, BrIf(1)]
  }

  function LoopBody(it: nat, vars: seq<Var>, vm: VarMap, body: seq<Instr>): seq<Instr> {
    NextOrLeave(it) + (Binds(vars, vm, 0) + (body + [Br(0)]))
  }

  /** The loop over the rows of an iterator. */
  function ScanLoop(it: nat, vars: seq<Var>, vm: VarMap, body: seq<Instr>): seq<Instr> {
    [Block([Loop(LoopBody(it, vars, vm, body))])]
  }

  function OpenSource(src: Source, vm: VarMap): seq<Instr> {
    match src
    case Scan(rel, _) => [ScanStart(rel)]
    case ScanDelta(rel, _) => [ScanDeltaStart(rel)]
    case IndexLookup(rel, col, key, _) =>
      EmitOperand(key, vm) + [LocalSet(SCRATCH), LocalGet(SCRATCH), ScanIndexStart(rel, col)]
  }

  function Without(vars: seq<Var>, keys: seq<Var>): seq<Var> {
    if vars == [] then [] else (if vars[0] in keys then [] else [vars[0]]) + Without(vars[1..], keys)
  }

  /** Build rows travel with the join keys first. */
  function BuildOrder(buildVars: seq<Var>, keys: seq<Var>): seq<Var> {
    keys + Without(buildVars, keys)
  }

  datatype Emitted = Emitted(code: seq<Instr>, iters: nat, joins: nat)

  /** The code of a plan; `iters` and `joins` count the iterator locals and hash tables
      handed out so far. */
  function EmitOp(op: Op, vm: VarMap, base: nat, iters: nat, joins: nat): Emitted {
    match op
    case Nop => Emitted([], iters, joins)
    case Insert(rel, args) =>
      Emitted([Begin(InsertBuffer, rel)] + (Pushes(args, vm, InsertBuffer) + [InsertEnd]), iters, joins)
    case Filter(c, body) =>
      var e := EmitOp(body, vm, base, iters, joins);
      Emitted(EmitCond(c, vm) + [If(e.code)], e.iters, e.joins)
    case Let(v, ex, body) =>
      var e := EmitOp(body, vm, base, iters, joins);
      Emitted((EmitExpr(ex, vm) + [SetVar(v, vm)]) + e.code, e.iters, e.joins)
    case Iterate(src, body) =>
      var it := base + iters;
      var e := EmitOp(body, vm, base, iters + 1, joins);
      Emitted((OpenSource(src, vm) + [LocalSet(it)]) + ScanLoop(it, src.vars, vm, e.code), e.iters, e.joins)
    case IterateList(o, v, body) =>
      var it := base + iters;
      var e := EmitOp(body, vm, base, iters + 1, joins);
      Emitted((EmitOperand(o, vm) + [ListIterStart, LocalSet(it)]) + ScanLoop(it, [v], vm, e.code), e.iters, e.joins)
    case BindField(o, field, v, body) =>
      var e := EmitOp(body, vm, base, iters, joins);
      var name := ConstRef(CName(field));
      Emitted((EmitOperand(o, vm) + [LocalTee(SCRATCH), name, FieldPresent]) +
              [If([LocalGet(SCRATCH), name, CompoundGet, SetVar(v, vm)] + e.code)], e.iters, e.joins)
    case HashJoin(buildRel, buildVars, probeRel, probeVars, keys, body) =>
      var it := base + iters;
      var order := BuildOrder(buildVars, keys);
      var e := EmitOp(body, vm, base, iters + 3, joins + 1);
      Emitted(
        ([JoinBegin(joins), ScanStart(buildRel), LocalSet(it)] +
         ScanLoop(it, buildVars, vm, SendVars(order, vm) + [JoinCommit(joins, |keys|)])) +
        (([ScanStart(probeRel), LocalSet(it + 1)] +
          ScanLoop(it + 1, probeVars, vm,
                   (SendVars(keys, vm) + [JoinProbe(joins), LocalSet(it + 2)]) + ScanLoop(it + 2, order, vm, e.code))) +
         [JoinEnd(joins)]),
        e.iters, e.joins)
  }

  // ----- The two passes agree -----

  /** The second pass uses exactly the iterators that the first counted. */
  lemma {:induction false} ItersCounted(op: Op, c: Collected, vm: VarMap, base: nat, iters: nat, joins: nat)
    ensures EmitOp(op, vm, base, iters, joins).iters - iters == CollectVars(op, c).iters - c.iters
    decreases op
  {
    hide ScanLoop, BuildOrder, OpenSource, EmitCond, EmitExpr, Pushes, SendVars, AddVars, EmitOperand, SetVar;
    match op
    case Nop =>
    case Insert(_, _) =>
    case Filter(_, body) => ItersCounted(body, c, vm, base, iters, joins);
    case Let(v, _, body) => ItersCounted(body, AddVar(c, v), vm, base, iters, joins);
    case Iterate(src, body) =>
      ItersCounted(body, AddVars(c, src.vars).(iters := c.iters + 1), vm, base, iters + 1, joins);
    case HashJoin(_, build, _, probe, _, body) =>
      ItersCounted(body, AddVars(AddVars(c, build), probe).(iters := c.iters + 3), vm, base, iters + 3, joins + 1);
    case BindField(_, _, v, body) => ItersCounted(body, AddVar(c, v), vm, base, iters, joins);
    case IterateList(_, v, body) =>
      ItersCounted(body, AddVar(c, v).(iters := c.iters + 1), vm, base, iters + 1, joins);
  }

  /** Variables have locals of their own, below `next`. */
  ghost predicate Numbered(c: Collected) {
    && (forall v :: v in c.vm ==> FIRST_VAR <= c.vm[v] < c.next)
    && (forall v, w :: v in c.vm && w in c.vm && c.vm[v] == c.vm[w] ==> v == w)
  }

  function Binders(op: Op): set<Var> {
    match op
    case Nop => {}
    case Insert(_, _) => {}
    case Filter(_, body) => Binders(body)
    case Let(v, _, body) => {v} + Binders(body)
    case Iterate(src, body) => VarSet(src.vars) + Binders(body)
    case HashJoin(_, build, _, probe, _, body) => VarSet(build) + VarSet(probe) + Binders(body)
    case BindField(_, _, v, body) => {v} + Binders(body)
    case IterateList(_, v, body) => {v} + Binders(body)
  }

  /** The second numbering adds exactly these variables and keeps the locals of the others. */
  ghost predicate Grows(c: Collected, d: Collected, vs: set<Var>) {
    && Numbered(d) && FIRST_VAR <= c.next <= d.next
    && d.vm.Keys == c.vm.Keys + vs
    && (forall v :: v in c.vm && v in d.vm ==> d.vm[v] == c.vm[v])
  }

  lemma {:induction false} AddVarGrows(c: Collected, v: Var)
    requires Numbered(c) && c.next >= FIRST_VAR
    ensures Grows(c, AddVar(c, v), {v})
  {
  }

  lemma {:induction false} GrowsThen(c: Collected, d: Collected, e: Collected, vs: set<Var>, ws: set<Var>)
    requires Grows(c, d, vs) && Grows(d, e, ws)
    ensures Grows(c, e, vs + ws)
  {
  }

  lemma {:induction false} AddVarsGrows(c: Collected, vars: seq<Var>)
    requires Numbered(c) && c.next >= FIRST_VAR
    ensures Grows(c, AddVars(c, vars), VarSet(vars))
    decreases |vars|
  {
    if vars == [] {
      assert VarSet(vars) == {};
    } else {
      var d := AddVar(c, vars[0]);
      AddVarGrows(c, vars[0]);
      AddVarsGrows(d, vars[1..]);
      GrowsThen(c, d, AddVars(d, vars[1..]), {vars[0]}, VarSet(vars[1..]));
      assert VarSet(vars) == {vars[0]} + VarSet(vars[1..]);
    }
  }

  lemma {:induction false} CountKeeps(c: Collected, d: Collected, vs: set<Var>, n: nat)
    requires Grows(c, d, vs)
    ensures Grows(c, d.(iters := n), vs)
  {
  }

  lemma {:induction false} GrowsNone(c: Collected)
    requires Numbered(c) && c.next >= FIRST_VAR
    ensures Grows(c, c, {})
  {
  }

  lemma {:induction false} ElemGrows(c: Collected, v: Var)
    requires Numbered(c) && c.next >= FIRST_VAR
    ensures Grows(c, AddVar(c, v).(iters := c.iters + 1), {v})
  {
    AddVarGrows(c, v);
    CountKeeps(c, AddVar(c, v), {v}, c.iters + 1);
  }

  /** The first pass gives every variable that the plan binds a local of its own, and keeps
      the locals that earlier plans have. */
  lemma {:induction false} CollectNumbers(op: Op, c: Collected)
    requires Numbered(c) && c.next >= FIRST_VAR
    ensures Grows(c, CollectVars(op, c), Binders(op))
    decreases op, 0
  {
    match op
    case Nop => GrowsNone(c);
    case Insert(_, _) => GrowsNone(c);
    case Filter(_, body) => CollectNumbers(body, c);
    case Let(v, _, body) =>
      AddVarGrows(c, v);
      CollectAfter(op, body, c, AddVar(c, v), {v});
    case BindField(_, _, v, body) =>
      AddVarGrows(c, v);
      CollectAfter(op, body, c, AddVar(c, v), {v});
    case IterateList(_, v, body) =>
      ElemGrows(c, v);
      CollectAfter(op, body, c, AddVar(c, v).(iters := c.iters + 1), {v});
    case Iterate(src, body) =>
      ScanGrows(c, src.vars);
      CollectAfter(op, body, c, AddVars(c, src.vars).(iters := c.iters + 1), VarSet(src.vars));
    case HashJoin(_, build, _, probe, _, body) =>
      JoinGrows(c, build, probe);
      CollectAfter(op, body, c, AddVars(AddVars(c, build), probe).(iters := c.iters + 3),
                   VarSet(build) + VarSet(probe));
  }

  lemma {:induction false} ScanGrows(c: Collected, vars: seq<Var>)
    requires Numbered(c) && c.next >= FIRST_VAR
    ensures Grows(c, AddVars(c, vars).(iters := c.iters + 1), VarSet(vars))
  {
    AddVarsGrows(c, vars);
    CountKeeps(c, AddVars(c, vars), VarSet(vars), c.iters + 1);
  }

  lemma {:induction false} JoinGrows(c: Collected, build: seq<Var>, probe: seq<Var>)
    requires Numbered(c) && c.next >= FIRST_VAR
    ensures Grows(c, AddVars(AddVars(c, build), probe).(iters := c.iters + 3), VarSet(build) + VarSet(probe))
  {
    var d := AddVars(c, build);
    AddVarsGrows(c, build);
    AddVarsGrows(d, probe);
    GrowsThen(c, d, AddVars(d, probe), VarSet(build), VarSet(probe));
    CountKeeps(c, AddVars(d, probe), VarSet(build) + VarSet(probe), c.iters + 3);
  }

  lemma {:induction false} CollectAfter(op: Op, body: Op, c: Collected, d: Collected, vs: set<Var>)
    requires Grows(c, d, vs) && body < op
    requires CollectVars(op, c) == CollectVars(body, d) && Binders(op) == vs + Binders(body)
    ensures Grows(c, CollectVars(op, c), Binders(op))
    decreases body, 1
  {
    CollectNumbers(body, d);
    GrowsThen(c, d, CollectVars(body, d), vs, Binders(body));
  }

  // ----- All plans of a pass -----

  lemma {:induction false} ItersGrow(op: Op, vm: VarMap, base: nat, iters: nat, joins: nat)
    ensures EmitOp(op, vm, base, iters, joins).iters >= iters
    decreases op
  {
    match op
    case Nop =>
    case Insert(_, _) =>
    case Filter(_, body) => ItersGrow(body, vm, base, iters, joins);
    case Let(_, _, body) => ItersGrow(body, vm, base, iters, joins);
    case BindField(_, _, _, body) => ItersGrow(body, vm, base, iters, joins);
    case IterateList(_, _, body) => ItersGrow(body, vm, base, iters + 1, joins);
    case Iterate(_, body) => ItersGrow(body, vm, base, iters + 1, joins);
    case HashJoin(_, _, _, _, _, body) => ItersGrow(body, vm, base, iters + 3, joins + 1);
  }

  function CollectAll(ops: seq<Op>, c: Collected): Collected {
    if ops == [] then c else CollectAll(ops[1..], CollectVars(ops[0], c))
  }

  function EmitAll(ops: seq<Op>, vm: VarMap, base: nat, iters: nat, joins: nat): Emitted {
    if ops == [] then Emitted([], iters, joins)
    else
      var first := EmitOp(ops[0], vm, base, iters, joins);
      var rest := EmitAll(ops[1..], vm, base, first.iters, first.joins);
      Emitted(first.code + rest.code, rest.iters, rest.joins)
  }

  function AllBinders(ops: seq<Op>): set<Var> {
    if ops == [] then {} else Binders(ops[0]) + AllBinders(ops[1..])
  }

  lemma {:induction false} CollectAllGrows(ops: seq<Op>, c: Collected)
    requires Numbered(c) && c.next >= FIRST_VAR
    ensures Grows(c, CollectAll(ops, c), AllBinders(ops))
    decreases |ops|
  {
    if ops == [] {
      GrowsNone(c);
    } else {
      var d := CollectVars(ops[0], c);
      CollectNumbers(ops[0], c);
      CollectAllGrows(ops[1..], d);
      GrowsThen(c, d, CollectAll(ops[1..], d), Binders(ops[0]), AllBinders(ops[1..]));
    }
  }

  /** Both passes count the same iterators. */
  lemma {:induction false} AllItersCounted(ops: seq<Op>, c: Collected, vm: VarMap, base: nat, iters: nat, joins: nat)
    ensures EmitAll(ops, vm, base, iters, joins).iters - iters == CollectAll(ops, c).iters - c.iters
    decreases |ops|
  {
    if ops != [] {
      var first := EmitOp(ops[0], vm, base, iters, joins);
      ItersCounted(ops[0], c, vm, base, iters, joins);
      AllItersCounted(ops[1..], CollectVars(ops[0], c), vm, base, first.iters, first.joins);
    }
  }

  lemma {:induction false} AllItersGrow(ops: seq<Op>, vm: VarMap, base: nat, iters: nat, joins: nat)
    ensures EmitAll(ops, vm, base, iters, joins).iters >= iters
    decreases |ops|
  {
    if ops != [] {
      var first := EmitOp(ops[0], vm, base, iters, joins);
      ItersGrow(ops[0], vm, base, iters, joins);
      AllItersGrow(ops[1..], vm, base, first.iters, first.joins);
    }
  }
}
