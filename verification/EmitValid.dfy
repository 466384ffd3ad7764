/** The emitted code of a plan validates exactly when its tests are called with the number of
    arguments that the host expects. */
module EmitValid {
  import opened Datalog
  import opened Wasm
  import opened Emit
  import opened Validate

  // ----- Locals -----

  /** Local 0 a reference, local 1 a tuple pointer, the variables references, and as many
      iterators as the first pass counted. */
  function Declarations(c: Collected): seq<ValType> {
    [ExternRef, I32] + Repeat(ExternRef, |c.vm|) + Repeat(I32, c.iters)
  }

  ghost predicate LocalsFit(lt: seq<ValType>, vm: VarMap, base: nat, iters: nat) {
    && base >= FIRST_VAR && |lt| >= base + iters && lt[SCRATCH] == ExternRef && lt[TUPLE] == I32
    && (forall v :: v in vm ==> vm[v] < |lt| && lt[vm[v]] == ExternRef)
    && (forall k :: base <= k < base + iters ==> lt[k] == I32)
  }

  lemma {:induction false} AddVarCounts(c: Collected, v: Var)
    requires |c.vm| + FIRST_VAR == c.next
    ensures |AddVar(c, v).vm| + FIRST_VAR == AddVar(c, v).next
  {
  }

  lemma {:induction false} AddVarsCounts(c: Collected, vars: seq<Var>)
    requires |c.vm| + FIRST_VAR == c.next
    ensures |AddVars(c, vars).vm| + FIRST_VAR == AddVars(c, vars).next
    decreases |vars|
  {
    if vars != [] {
      AddVarCounts(c, vars[0]);
      AddVarsCounts(AddVar(c, vars[0]), vars[1..]);
    }
  }

  /** The first pass hands out locals without a gap, so the declarations line up. */
  lemma {:induction false} CollectCounts(op: Op, c: Collected)
    requires |c.vm| + FIRST_VAR == c.next
    ensures |CollectVars(op, c).vm| + FIRST_VAR == CollectVars(op, c).next
    decreases op
  {
    hide AddVar, AddVars;
    match op
    case Nop =>
    case Insert(_, _) =>
    case Filter(_, body) => CollectCounts(body, c);
    case Let(v, _, body) =>
      AddVarCounts(c, v);
      CollectCounts(body, AddVar(c, v));
    case BindField(_, _, v, body) =>
      AddVarCounts(c, v);
      CollectCounts(body, AddVar(c, v));
    case IterateList(_, v, body) =>
      AddVarCounts(c, v);
      CollectCounts(body, AddVar(c, v).(iters := c.iters + 1));
    case Iterate(src, body) =>
      AddVarsCounts(c, src.vars);
      CollectCounts(body, AddVars(c, src.vars).(iters := c.iters + 1));
    case HashJoin(_, build, _, probe, _, body) =>
      AddVarsCounts(c, build);
      AddVarsCounts(AddVars(c, build), probe);
      CollectCounts(body, AddVars(AddVars(c, build), probe).(iters := c.iters + 3));
  }

  lemma {:induction false} CollectAllCounts(ops: seq<Op>, c: Collected)
    requires |c.vm| + FIRST_VAR == c.next
    ensures |CollectAll(ops, c).vm| + FIRST_VAR == CollectAll(ops, c).next
    decreases |ops|
  {
    if ops != [] {
      CollectCounts(ops[0], c);
      CollectAllCounts(ops[1..], CollectVars(ops[0], c));
    }
  }

  lemma {:induction false} DeclarationsFit(c: Collected)
    requires Numbered(c) && |c.vm| + FIRST_VAR == c.next
    ensures LocalsFit(Declarations(c), c.vm, c.next, c.iters)
  {
    var lt, vars := Declarations(c), [ExternRef, I32] + Repeat(ExternRef, |c.vm|);
    assert |vars| == c.next;
    forall v | v in c.vm ensures c.vm[v] < |lt| && lt[c.vm[v]] == ExternRef {
      assert lt[c.vm[v]] == vars[c.vm[v]];
    }
    forall k | c.next <= k < c.next + c.iters ensures lt[k] == I32 {
      assert lt[k] == Repeat(I32, c.iters)[k - |vars|];
    }
  }

  // ----- Straight pieces -----

  /** The code falls through with these values added to any stack. */
  ghost predicate Adds(code: seq<Instr>, lt: seq<ValType>, labels: nat, types: seq<ValType>) {
    forall s: seq<ValType> {:trigger TypeCode(code, lt, s, labels)} ::
    TypeCode(code, lt, s, labels) == Some(Falls(s + types))
  }

  lemma {:induction false} AddsUse(code: seq<Instr>, lt: seq<ValType>, labels: nat, types: seq<ValType>,
      s: seq<ValType>)
    requires Adds(code, lt, labels, types)
    ensures TypeCode(code, lt, s, labels) == Some(Falls(s + types))
  {
  }

  lemma {:induction false} AddsNothing(lt: seq<ValType>, labels: nat)
    ensures Adds([], lt, labels, [])
  {
    forall s: seq<ValType> ensures TypeCode([], lt, s, labels) == Some(Falls(s + [])) { assert s + [] == s; }
  }

  lemma {:induction false} AddsConcat(a: seq<Instr>, b: seq<Instr>, lt: seq<ValType>, labels: nat, x: seq<ValType>,
      y: seq<ValType>)
    requires Adds(a, lt, labels, x) && Adds(b, lt, labels, y)
    ensures Adds(a + b, lt, labels, x + y)
  {
    hide TypeCode;
    forall s: seq<ValType> ensures TypeCode(a + b, lt, s, labels) == Some(Falls(s + (x + y))) {
      CheckConcat(a, b, lt, s, labels);
      AddsUse(a, lt, labels, x, s);
      AddsUse(b, lt, labels, y, s + x);
      Regrouped(s, x, y);
    }
  }

  lemma {:induction false} Regrouped(s: seq<ValType>, x: seq<ValType>, y: seq<ValType>)
    ensures s + x + y == s + (x + y)
  {
  }

  lemma {:induction false} AddsThen(a: seq<Instr>, b: seq<Instr>, lt: seq<ValType>, labels: nat, y: seq<ValType>)
    requires Adds(a, lt, labels, []) && Adds(b, lt, labels, y)
    ensures Adds(a + b, lt, labels, y)
  {
    AddsConcat(a, b, lt, labels, [], y);
    assert [] + y == y;
  }

  /** Straight code that adds nothing, before other code. */
  lemma {:induction false} Before(a: seq<Instr>, code: seq<Instr>, s: seq<ValType>, lt: seq<ValType>, labels: nat)
    requires Adds(a, lt, labels, [])
    ensures TypeCode(a + code, lt, s, labels) == TypeCode(code, lt, s, labels)
  {
    CheckConcat(a, code, lt, s, labels);
    AddsUse(a, lt, labels, [], s);
    assert s + [] == s;
  }

  /** After code that adds what an instruction takes, the instruction leaves its results. */
  lemma {:induction false} AddsApply(a: seq<Instr>, i: Instr, lt: seq<ValType>, labels: nat)
    requires HasSignature(i) && Adds(a, lt, labels, SignatureOf(i).params)
    ensures Adds(a + [i], lt, labels, SignatureOf(i).results)
  {
    var sig := SignatureOf(i);
    forall s: seq<ValType> ensures TypeCode(a + [i], lt, s, labels) == Some(Falls(s + sig.results)) {
      CheckConcat(a, [i], lt, s, labels);
      CheckSingle(i, lt, s + sig.params, labels);
      ApplyTop(sig, s);
    }
  }

  lemma {:induction false} ApplyTop(sig: Signature, s: seq<ValType>)
    ensures ApplySig(sig, s + sig.params) == Some(Falls(s + sig.results))
  {
    assert (s + sig.params)[|s|..] == sig.params && (s + sig.params)[..|s|] == s;
  }

  lemma {:induction false} AddsOne(i: Instr, lt: seq<ValType>, labels: nat)
    requires HasSignature(i) && SignatureOf(i).params == []
    ensures Adds([i], lt, labels, SignatureOf(i).results)
  {
    AddsNothing(lt, labels);
    AddsApply([], i, lt, labels);
    assert [] + [i] == [i];
  }

  lemma {:induction false} AddsGet(k: nat, lt: seq<ValType>, labels: nat)
    requires k < |lt|
    ensures Adds([LocalGet(k)], lt, labels, [lt[k]])
  {
    forall s: seq<ValType> ensures TypeCode([LocalGet(k)], lt, s, labels) == Some(Falls(s + [lt[k]])) {
      CheckSingle(LocalGet(k), lt, s, labels);
    }
  }

  lemma {:induction false} AddsSet(a: seq<Instr>, i: Instr, lt: seq<ValType>, labels: nat, t: ValType)
    requires Adds(a, lt, labels, [t]) && (i.Drop? || (i.LocalSet? && i.i < |lt| && lt[i.i] == t))
    ensures Adds(a + [i], lt, labels, [])
  {
    forall s: seq<ValType> ensures TypeCode(a + [i], lt, s, labels) == Some(Falls(s + [])) {
      CheckConcat(a, [i], lt, s, labels);
      CheckSingle(i, lt, s + [t], labels);
      assert (s + [t])[..|s|] == s && s + [] == s;
    }
  }

  lemma {:induction false} AddsTee(a: seq<Instr>, k: nat, lt: seq<ValType>, labels: nat)
    requires k < |lt| && Adds(a, lt, labels, [lt[k]])
    ensures Adds(a + [LocalTee(k)], lt, labels, [lt[k]])
  {
    forall s: seq<ValType> ensures TypeCode(a + [LocalTee(k)], lt, s, labels) == Some(Falls(s + [lt[k]])) {
      CheckConcat(a, [LocalTee(k)], lt, s, labels);
      CheckSingle(LocalTee(k), lt, s + [lt[k]], labels);
    }
  }

  lemma {:induction false} AddsBrIf(a: seq<Instr>, d: nat, lt: seq<ValType>, labels: nat)
    requires d < labels && Adds(a, lt, labels, [I32])
    ensures Adds(a + [BrIf(d)], lt, labels, [])
  {
    forall s: seq<ValType> ensures TypeCode(a + [BrIf(d)], lt, s, labels) == Some(Falls(s + [])) {
      CheckConcat(a, [BrIf(d)], lt, s, labels);
      CheckSingle(BrIf(d), lt, s + [I32], labels);
      assert (s + [I32])[..|s|] == s && s + [] == s;
    }
  }

  // ----- The emitter's pieces -----

  lemma {:induction false} OperandAdds(o: Operand, lt: seq<ValType>, vm: VarMap, base: nat, iters: nat, labels: nat)
    requires LocalsFit(lt, vm, base, iters)
    ensures Adds(EmitOperand(o, vm), lt, labels, [ExternRef])
  {
    hide Adds;
    match o
    case OVar(v) => if v in vm { AddsGet(vm[v], lt, labels); } else { AddsOne(RefNull, lt, labels); }
    case OConst(c) => AddsOne(ConstRef(c), lt, labels);
  }

  lemma {:induction false} OperandsAdd(os: seq<Operand>, lt: seq<ValType>, vm: VarMap, base: nat, iters: nat,
      labels: nat)
    requires LocalsFit(lt, vm, base, iters)
    ensures Adds(EmitOperands(os, vm), lt, labels, Repeat(ExternRef, |os|))
    decreases |os|
  {
    hide Adds, LocalsFit;
    if os == [] {
      AddsNothing(lt, labels);
    } else {
      OperandAdds(os[0], lt, vm, base, iters, labels);
      OperandsAdd(os[1..], lt, vm, base, iters, labels);
      AddsConcat(EmitOperand(os[0], vm), EmitOperands(os[1..], vm), lt, labels, [ExternRef],
                 Repeat(ExternRef, |os| - 1));
      assert [ExternRef] + Repeat(ExternRef, |os| - 1) == Repeat(ExternRef, |os|);
    }
  }

  lemma {:induction false} PushesAdd(os: seq<Operand>, b: Buffer, lt: seq<ValType>, vm: VarMap, base: nat, iters: nat,
      labels: nat)
    requires LocalsFit(lt, vm, base, iters)
    ensures Adds(Pushes(os, vm, b), lt, labels, [])
    decreases |os|
  {
    hide Adds, LocalsFit;
    if os == [] {
      AddsNothing(lt, labels);
    } else {
      OperandAdds(os[0], lt, vm, base, iters, labels);
      AddsApply(EmitOperand(os[0], vm), Push(b), lt, labels);
      PushesAdd(os[1..], b, lt, vm, base, iters, labels);
      AddsThen(EmitOperand(os[0], vm) + [Push(b)], Pushes(os[1..], vm, b), lt, labels, []);
    }
  }

  lemma {:induction false} BindsAdd(vars: seq<Var>, col: nat, lt: seq<ValType>, vm: VarMap, base: nat, iters: nat,
      labels: nat)
    requires LocalsFit(lt, vm, base, iters)
    ensures Adds(Binds(vars, vm, col), lt, labels, [])
    decreases |vars|
  {
    hide Adds;
    if vars == [] {
      AddsNothing(lt, labels);
    } else {
      BindsAdd(vars[1..], col + 1, lt, vm, base, iters, labels);
      if vars[0] in vm {
        BindAdds(vm[vars[0]], col, lt, labels);
        AddsThen([LocalGet(TUPLE), GetCol(col), LocalSet(vm[vars[0]])], Binds(vars[1..], vm, col + 1), lt, labels, []);
      } else {
        assert [] + Binds(vars[1..], vm, col + 1) == Binds(vars[1..], vm, col + 1);
      }
    }
  }

  lemma {:induction false} BindAdds(k: nat, col: nat, lt: seq<ValType>, labels: nat)
    requires |lt| > TUPLE && lt[TUPLE] == I32 && k < |lt| && lt[k] == ExternRef
    ensures Adds([LocalGet(TUPLE), GetCol(col), LocalSet(k)], lt, labels, [])
  {
    hide Adds;
    AddsGet(TUPLE, lt, labels);
    AddsApply([LocalGet(TUPLE)], GetCol(col), lt, labels);
    AddsSet([LocalGet(TUPLE)] + [GetCol(col)], LocalSet(k), lt, labels, ExternRef);
    assert [LocalGet(TUPLE)] + [GetCol(col)] + [LocalSet(k)] == [LocalGet(TUPLE), GetCol(col), LocalSet(k)];
  }

  lemma {:induction false} SendsAdd(vars: seq<Var>, lt: seq<ValType>, vm: VarMap, base: nat, iters: nat, labels: nat)
    requires LocalsFit(lt, vm, base, iters)
    ensures Adds(SendVars(vars, vm), lt, labels, [])
    decreases |vars|
  {
    hide Adds;
    if vars == [] {
      AddsNothing(lt, labels);
    } else {
      SendsAdd(vars[1..], lt, vm, base, iters, labels);
      if vars[0] in vm {
        var k := vm[vars[0]];
        AddsGet(k, lt, labels);
        AddsApply([LocalGet(k)], Push(JoinBuffer), lt, labels);
        assert [LocalGet(k)] + [Push(JoinBuffer)] == [LocalGet(k), Push(JoinBuffer)];
        AddsThen([LocalGet(k), Push(JoinBuffer)], SendVars(vars[1..], vm), lt, labels, []);
      } else {
        assert [] + SendVars(vars[1..], vm) == SendVars(vars[1..], vm);
      }
    }
  }

  lemma {:induction false} NextAdds(it: nat, lt: seq<ValType>, labels: nat)
    requires it < |lt| && |lt| > TUPLE && lt[TUPLE] == I32 && lt[it] == I32 && labels >= 2
    ensures Adds(NextOrLeave(it), lt, labels, [])
  {
    hide Adds;
    var a := [LocalGet(it)];
    AddsGet(it, lt, labels);
    AddsApply(a, ScanNext, lt, labels);
    AddsTee(a + [ScanNext], TUPLE, lt, labels);
    AddsApply(a + [ScanNext] + [LocalTee(TUPLE)], I32Eqz, lt, labels);
    AddsBrIf(a + [ScanNext] + [LocalTee(TUPLE)] + [I32Eqz], 1, lt, labels);
    assert a + [ScanNext] + [LocalTee(TUPLE)] + [I32Eqz] + [BrIf(1)] == NextOrLeave(it);
  }

  lemma {:induction false} ExprAdds(e: Expr, lt: seq<ValType>, vm: VarMap, base: nat, iters: nat, labels: nat)
    requires LocalsFit(lt, vm, base, iters)
    ensures Adds(EmitExpr(e, vm), lt, labels, [ExternRef])
  {
    hide Adds;
    match e
    case ValueOf(o) => OperandAdds(o, lt, vm, base, iters, labels);
    case Call(f, args) =>
      OperandsAdd(args, lt, vm, base, iters, labels);
      AddsApply(EmitOperands(args, vm), CallFn(f, |args|), lt, labels);
  }

  lemma {:induction false} SourceAdds(src: Source, lt: seq<ValType>, vm: VarMap, base: nat, iters: nat, labels: nat)
    requires LocalsFit(lt, vm, base, iters)
    ensures Adds(OpenSource(src, vm), lt, labels, [I32])
  {
    hide Adds;
    match src
    case Scan(rel, _) => AddsOne(ScanStart(rel), lt, labels);
    case ScanDelta(rel, _) => AddsOne(ScanDeltaStart(rel), lt, labels);
    case IndexLookup(rel, col, key, _) =>
      var a := EmitOperand(key, vm);
      OperandAdds(key, lt, vm, base, iters, labels);
      AddsSet(a, LocalSet(SCRATCH), lt, labels, ExternRef);
      AddsGet(SCRATCH, lt, labels);
      AddsApply([LocalGet(SCRATCH)], ScanIndexStart(rel, col), lt, labels);
      AddsThen(a + [LocalSet(SCRATCH)], [LocalGet(SCRATCH)] + [ScanIndexStart(rel, col)], lt, labels, [I32]);
      assert a + [LocalSet(SCRATCH)] + ([LocalGet(SCRATCH)] + [ScanIndexStart(rel, col)]) ==
             a + [LocalSet(SCRATCH), LocalGet(SCRATCH), ScanIndexStart(rel, col)];
  }

  // ----- Tests -----

  /** How many values more than the host takes the test sends; it may be negative. */
  function Surplus(c: Cond): int {
    match c
    case Cmp(_, _, _) => 0
    case Negation(_, _) => 0
    case CallCheck(p, args) => |args| - TestArity(p)
    case Not(inner) => Surplus(inner)
  }

  predicate Imported(c: Cond) {
    match c
    case CallCheck(p, _) => HasImport(p)
    case Not(inner) => Imported(inner)
    case _ => true
  }

  lemma {:induction false} RepeatPlus(t: ValType, a: nat, b: nat)
    ensures Repeat(t, a) + Repeat(t, b) == Repeat(t, a + b)
  {
  }

  /** A test on a stack of `n` references. */
  lemma {:induction false} CondChecks(c: Cond, n: nat, lt: seq<ValType>, vm: VarMap, base: nat, iters: nat, labels: nat)
    requires LocalsFit(lt, vm, base, iters)
    ensures TypeCode(EmitCond(c, vm), lt, Repeat(ExternRef, n), labels) ==
            if Imported(c) && n + Surplus(c) >= 0 then Some(Falls(Repeat(ExternRef, n + Surplus(c)) + [I32])) else None
    decreases c
  {
    var s := Repeat(ExternRef, n);
    match c
    case Cmp(op, l, r) =>
      CmpAdds(op, l, r, lt, vm, base, iters, labels);
      AddsUse(EmitCond(c, vm), lt, labels, [I32], s);
    case Negation(rel, args) =>
      NegationAdds(rel, args, lt, vm, base, iters, labels);
      AddsUse(EmitCond(c, vm), lt, labels, [I32], s);
    case CallCheck(p, args) => TestChecks(p, args, n, lt, vm, base, iters, labels);
    case Not(inner) =>
      CondChecks(inner, n, lt, vm, base, iters, labels);
      CheckConcat(EmitCond(inner, vm), [I32Eqz], lt, s, labels);
      if Imported(inner) && n + Surplus(inner) >= 0 {
        var rest := Repeat(ExternRef, n + Surplus(inner));
        CheckSingle(I32Eqz, lt, rest + [I32], labels);
        ApplyTop(SignatureOf(I32Eqz), rest);
      }
  }

  lemma {:induction false} CmpAdds(op: CmpOp, l: Operand, r: Operand, lt: seq<ValType>, vm: VarMap, base: nat,
      iters: nat, labels: nat)
    requires LocalsFit(lt, vm, base, iters)
    ensures Adds(EmitCond(Cmp(op, l, r), vm), lt, labels, [I32])
  {
    hide Adds, LocalsFit;
    OperandsAdd([l, r], lt, vm, base, iters, labels);
    assert Repeat(ExternRef, 2) == [ExternRef, ExternRef];
    AddsApply(EmitOperands([l, r], vm), CallCmp(op), lt, labels);
  }

  lemma {:induction false} NegationAdds(rel: Pred, args: seq<Operand>, lt: seq<ValType>, vm: VarMap, base: nat,
      iters: nat, labels: nat)
    requires LocalsFit(lt, vm, base, iters)
    ensures Adds(EmitCond(Negation(rel, args), vm), lt, labels, [I32])
  {
    hide Adds, LocalsFit;
    var b := NegationBuffer;
    AddsOne(Begin(b, rel), lt, labels);
    PushesAdd(args, b, lt, vm, base, iters, labels);
    AddsOne(NegationEnd, lt, labels);
    AddsThen(Pushes(args, vm, b), [NegationEnd], lt, labels, [I32]);
    AddsThen([Begin(b, rel)], Pushes(args, vm, b) + [NegationEnd], lt, labels, [I32]);
  }

  lemma {:induction false} TestChecks(p: Pred, args: seq<Operand>, n: nat, lt: seq<ValType>, vm: VarMap, base: nat,
      iters: nat, labels: nat)
    requires LocalsFit(lt, vm, base, iters)
    ensures TypeCode(EmitCond(CallCheck(p, args), vm), lt, Repeat(ExternRef, n), labels) ==
            if HasImport(p) && n + |args| >= TestArity(p) then
            Some(Falls(Repeat(ExternRef, n + |args| - TestArity(p)) + [I32])) else None
  {
    var k, a := n + |args|, TestArity(p);
    OperandsAdd(args, lt, vm, base, iters, labels);
    AddsUse(EmitOperands(args, vm), lt, labels, Repeat(ExternRef, |args|), Repeat(ExternRef, n));
    RepeatPlus(ExternRef, n, |args|);
    CheckConcat(EmitOperands(args, vm), [CallTest(p)], lt, Repeat(ExternRef, n), labels);
    CheckSingle(CallTest(p), lt, Repeat(ExternRef, k), labels);
    if k >= a {
      RepeatPlus(ExternRef, k - a, a);
      ApplyTop(SignatureOf(CallTest(p)), Repeat(ExternRef, k - a));
    }
  }

  // ----- Loops -----

  /** A scan loop validates exactly when its body falls through; what the body leaves on the
      stack is dropped by the branch back. */
  lemma {:induction false} LoopChecks(it: nat, vars: seq<Var>, body: seq<Instr>, s: seq<ValType>, lt: seq<ValType>,
      vm: VarMap, base: nat, iters: nat, labels: nat)
    requires LocalsFit(lt, vm, base, iters) && base <= it < base + iters
    requires var t := TypeCode(body, lt, [], labels + 2); t.Some? ==> t.value.Falls?
    ensures TypeCode(ScanLoop(it, vars, vm, body), lt, s, labels) ==
            if TypeCode(body, lt, [], labels + 2).Some? then Some(Falls(s)) else None
  {
    hide Adds, TypeCode;
    BackChecks(it, vars, body, lt, vm, base, iters, labels);
    AroundLoop(LoopBody(it, vars, vm, body), s, lt, labels);
  }

  lemma {:induction false} AroundLoop(inner: seq<Instr>, s: seq<ValType>, lt: seq<ValType>, labels: nat)
    ensures TypeCode([Block([Loop(inner)])], lt, s, labels) ==
            if BlockOk(TypeCode(inner, lt, [], labels + 2)) then Some(Falls(s)) else None
  {
    CheckSingle(Loop(inner), lt, [], labels + 1);
    CheckSingle(Block([Loop(inner)]), lt, s, labels);
  }

  /** The body of the loop always branches away. */
  lemma {:induction false} BackChecks(it: nat, vars: seq<Var>, body: seq<Instr>, lt: seq<ValType>, vm: VarMap,
      base: nat, iters: nat, labels: nat)
    requires LocalsFit(lt, vm, base, iters) && base <= it < base + iters
    requires var t := TypeCode(body, lt, [], labels + 2); t.Some? ==> t.value.Falls?
    ensures TypeCode(LoopBody(it, vars, vm, body), lt, [], labels + 2) ==
            if TypeCode(body, lt, [], labels + 2).Some? then Some(Branches) else None
  {
    NextAdds(it, lt, labels + 2);
    BindsAdd(vars, 0, lt, vm, base, iters, labels + 2);
    hide Adds, LocalsFit, TypeCode;
    Before(NextOrLeave(it), Binds(vars, vm, 0) + (body + [Br(0)]), [], lt, labels + 2);
    Before(Binds(vars, vm, 0), body + [Br(0)], [], lt, labels + 2);
    CheckConcat(body, [Br(0)], lt, [], labels + 2);
    var t := TypeCode(body, lt, [], labels + 2);
    if t.Some? { CheckSingle(Br(0), lt, t.value.stack, labels + 2); }
  }

  // ----- Plans -----

  /** What the code of a plan leaves on the stack of its own block. */
  function Extra(op: Op): int {
    match op
    case Filter(c, _) => Surplus(c)
    case Let(_, _, body) => Extra(body)
    case _ => 0
  }

  /** The tests find enough arguments, starting with `n` spare values, and nothing is left over
      where a block ends.  In a loop the branch back drops what is left over. */
  predicate OpFits(op: Op, n: int) {
    match op
    case Nop => true
    case Insert(_, _) => true
    case Filter(c, body) => Imported(c) && n + Surplus(c) >= 0 && OpFits(body, 0) && Extra(body) == 0
    case Let(_, _, body) => OpFits(body, n)
    case Iterate(_, body) => OpFits(body, 0)
    case HashJoin(_, _, _, _, _, body) => OpFits(body, 0)
    case BindField(_, _, _, body) => OpFits(body, 0) && Extra(body) == 0
    case IterateList(_, _, body) => OpFits(body, 0)
  }

  lemma {:induction false} ExtraBound(op: Op, n: nat)
    requires OpFits(op, n)
    ensures n + Extra(op) >= 0
    decreases op
  {
    if op.Let? { ExtraBound(op.body, n); }
  }

  ghost function OpTyping(op: Op, n: nat): Option<Typing> {
    if OpFits(op, n) then
      ExtraBound(op, n);
      Some(Falls(Repeat(ExternRef, n + Extra(op))))
    else None
  }

  ghost predicate Checks(op: Op, e: Emitted, n: nat, lt: seq<ValType>, labels: nat) {
    TypeCode(e.code, lt, Repeat(ExternRef, n), labels) == OpTyping(op, n)
  }

  /** The emitted code of every plan: its type under the declared locals. */
  lemma {:induction false} OpChecks(op: Op, n: nat, lt: seq<ValType>, vm: VarMap, base: nat, iters: nat, joins: nat,
      total: nat, labels: nat)
    requires LocalsFit(lt, vm, base, total) && EmitOp(op, vm, base, iters, joins).iters <= total
    ensures Checks(op, EmitOp(op, vm, base, iters, joins), n, lt, labels)
    decreases op, 1
  {
    hide LocalsFit, TypeCode, EmitCond, EmitExpr, Pushes, ScanLoop, OpenSource, EmitOperand, SendVars, BuildOrder,
      SetVar;
    match op
    case Nop => NopChecks(n, lt, labels);
    case Insert(rel, args) => InsertChecks(rel, args, n, lt, vm, base, total, labels);
    case Filter(c, body) =>
      OpChecks(body, 0, lt, vm, base, iters, joins, total, labels + 1);
      FilterChecks(c, body, EmitOp(body, vm, base, iters, joins), n, lt, vm, base, total, labels);
    case Let(v, ex, body) =>
      OpChecks(body, n, lt, vm, base, iters, joins, total, labels);
      LetChecks(v, ex, body, EmitOp(body, vm, base, iters, joins), n, lt, vm, base, total, labels);
    case Iterate(src, body) =>
      ItersGrow(body, vm, base, iters + 1, joins);
      OpChecks(body, 0, lt, vm, base, iters + 1, joins, total, labels + 2);
      IterateChecks(src, body, EmitOp(body, vm, base, iters + 1, joins), n, lt, vm, base, iters, total, labels);
    case IterateList(o, v, body) =>
      ItersGrow(body, vm, base, iters + 1, joins);
      OpChecks(body, 0, lt, vm, base, iters + 1, joins, total, labels + 2);
      ListChecks(o, v, body, EmitOp(body, vm, base, iters + 1, joins), n, lt, vm, base, iters, total, labels);
    case BindField(o, field, v, body) =>
      OpChecks(body, 0, lt, vm, base, iters, joins, total, labels + 1);
      FieldChecks(o, field, v, body, EmitOp(body, vm, base, iters, joins), n, lt, vm, base, total, labels);
    case HashJoin(_, _, _, _, _, body) =>
      ItersGrow(body, vm, base, iters + 3, joins + 1);
      OpChecks(body, 0, lt, vm, base, iters + 3, joins + 1, total, labels + 4);
      JoinChecks(op, n, lt, vm, base, iters, joins, total, labels);
  }

  lemma {:induction false} NopChecks(n: nat, lt: seq<ValType>, labels: nat)
    ensures TypeCode([], lt, Repeat(ExternRef, n), labels) == OpTyping(Nop, n)
  {
  }

  lemma {:induction false} InsertChecks(rel: Pred, args: seq<Operand>, n: nat, lt: seq<ValType>, vm: VarMap, base: nat,
      total: nat, labels: nat)
    requires LocalsFit(lt, vm, base, total)
    ensures TypeCode([Begin(InsertBuffer, rel)] + (Pushes(args, vm, InsertBuffer) + [InsertEnd]), lt,
                     Repeat(ExternRef, n), labels) == OpTyping(Insert(rel, args), n)
  {
    hide Adds, LocalsFit;
    var b := InsertBuffer;
    AddsOne(Begin(b, rel), lt, labels);
    PushesAdd(args, b, lt, vm, base, total, labels);
    AddsOne(InsertEnd, lt, labels);
    AddsThen(Pushes(args, vm, b), [InsertEnd], lt, labels, []);
    AddsThen([Begin(b, rel)], Pushes(args, vm, b) + [InsertEnd], lt, labels, []);
    AddsUse([Begin(b, rel)] + (Pushes(args, vm, b) + [InsertEnd]), lt, labels, [], Repeat(ExternRef, n));
    assert Repeat(ExternRef, n) + [] == Repeat(ExternRef, n);
  }

  /** The body of a block: it must leave nothing. */
  lemma {:induction false} BodyOk(body: Op, e: Emitted, lt: seq<ValType>, labels: nat)
    requires Checks(body, e, 0, lt, labels)
    ensures BlockOk(TypeCode(e.code, lt, [], labels)) <==> OpFits(body, 0) && Extra(body) == 0
  {
    assert Repeat(ExternRef, 0) == [];
    if OpFits(body, 0) {
      ExtraBound(body, 0);
      assert |Repeat(ExternRef, Extra(body))| == Extra(body);
    }
  }

  lemma {:induction false} FilterChecks(c: Cond, body: Op, e: Emitted, n: nat, lt: seq<ValType>, vm: VarMap, base: nat,
      total: nat, labels: nat)
    requires LocalsFit(lt, vm, base, total) && Checks(body, e, 0, lt, labels + 1)
    ensures TypeCode(EmitCond(c, vm) + [If(e.code)], lt, Repeat(ExternRef, n), labels) == OpTyping(Filter(c, body), n)
  {
    hide LocalsFit, EmitCond, Checks, TypeCode;
    BodyOk(body, e, lt, labels + 1);
    CondChecks(c, n, lt, vm, base, total, labels);
    CheckConcat(EmitCond(c, vm), [If(e.code)], lt, Repeat(ExternRef, n), labels);
    if Imported(c) && n + Surplus(c) >= 0 {
      var rest := Repeat(ExternRef, n + Surplus(c));
      CheckSingle(If(e.code), lt, rest + [I32], labels);
      assert (rest + [I32])[..|rest|] == rest;
    }
  }

  lemma {:induction false} SetVarAdds(a: seq<Instr>, v: Var, lt: seq<ValType>, vm: VarMap, base: nat, total: nat,
      labels: nat)
    requires LocalsFit(lt, vm, base, total) && Adds(a, lt, labels, [ExternRef])
    ensures Adds(a + [SetVar(v, vm)], lt, labels, [])
  {
    hide Adds;
    AddsSet(a, SetVar(v, vm), lt, labels, ExternRef);
  }

  lemma {:induction false} LetChecks(v: Var, ex: Expr, body: Op, e: Emitted, n: nat, lt: seq<ValType>, vm: VarMap,
      base: nat, total: nat, labels: nat)
    requires LocalsFit(lt, vm, base, total) && Checks(body, e, n, lt, labels)
    ensures TypeCode((EmitExpr(ex, vm) + [SetVar(v, vm)]) + e.code, lt, Repeat(ExternRef, n), labels) ==
            OpTyping(Let(v, ex, body), n)
  {
    hide Adds, LocalsFit;
    ExprAdds(ex, lt, vm, base, total, labels);
    SetVarAdds(EmitExpr(ex, vm), v, lt, vm, base, total, labels);
    Before(EmitExpr(ex, vm) + [SetVar(v, vm)], e.code, Repeat(ExternRef, n), lt, labels);
  }

  lemma {:induction false} IterLocal(it: nat, lt: seq<ValType>, vm: VarMap, base: nat, total: nat)
    requires LocalsFit(lt, vm, base, total) && base <= it < base + total
    ensures it < |lt| && lt[it] == I32
  {
  }

  /** A scan loop around the code of a plan. */
  lemma {:induction false} LoopFits(it: nat, vars: seq<Var>, body: Op, e: Emitted, s: seq<ValType>, lt: seq<ValType>,
      vm: VarMap, base: nat, total: nat, labels: nat)
    requires LocalsFit(lt, vm, base, total) && base <= it < base + total && Checks(body, e, 0, lt, labels + 2)
    ensures TypeCode(ScanLoop(it, vars, vm, e.code), lt, s, labels) == if OpFits(body, 0) then Some(Falls(s)) else None
  {
    hide LocalsFit, ScanLoop;
    assert Repeat(ExternRef, 0) == [];
    LoopChecks(it, vars, e.code, s, lt, vm, base, total, labels);
  }

  lemma {:induction false} IterateChecks(src: Source, body: Op, e: Emitted, n: nat, lt: seq<ValType>, vm: VarMap,
      base: nat, iters: nat, total: nat, labels: nat)
    requires LocalsFit(lt, vm, base, total) && iters < total && Checks(body, e, 0, lt, labels + 2)
    ensures TypeCode((OpenSource(src, vm) + [LocalSet(base + iters)]) + ScanLoop(base + iters, src.vars, vm, e.code),
                     lt, Repeat(ExternRef, n), labels) ==
            OpTyping(Iterate(src, body), n)
  {
    hide Adds, LocalsFit, ScanLoop, Checks;
    var it, s := base + iters, Repeat(ExternRef, n);
    SourceAdds(src, lt, vm, base, total, labels);
    IterLocal(it, lt, vm, base, total);
    AddsSet(OpenSource(src, vm), LocalSet(it), lt, labels, I32);
    Before(OpenSource(src, vm) + [LocalSet(it)], ScanLoop(it, src.vars, vm, e.code), s, lt, labels);
    LoopFits(it, src.vars, body, e, s, lt, vm, base, total, labels);
  }

  lemma {:induction false} ListChecks(o: Operand, v: Var, body: Op, e: Emitted, n: nat, lt: seq<ValType>, vm: VarMap,
      base: nat, iters: nat, total: nat, labels: nat)
    requires LocalsFit(lt, vm, base, total) && iters < total && Checks(body, e, 0, lt, labels + 2)
    ensures TypeCode((EmitOperand(o, vm) + [ListIterStart, LocalSet(base + iters)]) +
                     ScanLoop(base + iters, [v], vm, e.code), lt, Repeat(ExternRef, n), labels) ==
            OpTyping(IterateList(o, v, body), n)
  {
    hide Adds, LocalsFit, ScanLoop, Checks;
    var it, s, a := base + iters, Repeat(ExternRef, n), EmitOperand(o, vm);
    OperandAdds(o, lt, vm, base, total, labels);
    IterLocal(it, lt, vm, base, total);
    AddsApply(a, ListIterStart, lt, labels);
    AddsSet(a + [ListIterStart], LocalSet(it), lt, labels, I32);
    assert a + [ListIterStart] + [LocalSet(it)] == a + [ListIterStart, LocalSet(it)];
    Before(a + [ListIterStart, LocalSet(it)], ScanLoop(it, [v], vm, e.code), s, lt, labels);
    LoopFits(it, [v], body, e, s, lt, vm, base, total, labels);
  }

  /** The start of the extraction of a field, up to the test. */
  lemma {:induction false} PresentAdds(o: Operand, field: string, lt: seq<ValType>, vm: VarMap, base: nat, total: nat,
      labels: nat)
    requires LocalsFit(lt, vm, base, total)
    ensures Adds(EmitOperand(o, vm) + [LocalTee(SCRATCH), ConstRef(CName(field)), FieldPresent], lt, labels, [I32])
  {
    var a, name := EmitOperand(o, vm), ConstRef(CName(field));
    assert lt[SCRATCH] == ExternRef;
    OperandAdds(o, lt, vm, base, total, labels);
    hide Adds, LocalsFit;
    AddsTee(a, SCRATCH, lt, labels);
    AddsOne(name, lt, labels);
    AddsConcat(a + [LocalTee(SCRATCH)], [name], lt, labels, [ExternRef], [ExternRef]);
    assert [ExternRef] + [ExternRef] == [ExternRef, ExternRef];
    AddsApply(a + [LocalTee(SCRATCH)] + [name], FieldPresent, lt, labels);
    assert a + [LocalTee(SCRATCH)] + [name] + [FieldPresent] == a + [LocalTee(SCRATCH), name, FieldPresent];
  }

  lemma {:induction false} TakeAdds(field: string, v: Var, lt: seq<ValType>, vm: VarMap, base: nat, total: nat,
      labels: nat)
    requires LocalsFit(lt, vm, base, total)
    ensures Adds([LocalGet(SCRATCH), ConstRef(CName(field)), CompoundGet, SetVar(v, vm)], lt, labels, [])
  {
    var a, name := [LocalGet(SCRATCH)], ConstRef(CName(field));
    assert lt[SCRATCH] == ExternRef;
    hide Adds, LocalsFit;
    AddsGet(SCRATCH, lt, labels);
    AddsOne(name, lt, labels);
    AddsConcat(a, [name], lt, labels, [ExternRef], [ExternRef]);
    assert [ExternRef] + [ExternRef] == [ExternRef, ExternRef];
    AddsApply(a + [name], CompoundGet, lt, labels);
    SetVarAdds(a + [name] + [CompoundGet], v, lt, vm, base, total, labels);
    assert a + [name] + [CompoundGet] + [SetVar(v, vm)] == [LocalGet(SCRATCH), name, CompoundGet, SetVar(v, vm)];
  }

  lemma {:induction false} FieldChecks(o: Operand, field: string, v: Var, body: Op, e: Emitted, n: nat,
      lt: seq<ValType>, vm: VarMap, base: nat, total: nat, labels: nat)
    requires LocalsFit(lt, vm, base, total) && Checks(body, e, 0, lt, labels + 1)
    ensures var name := ConstRef(CName(field));
            TypeCode((EmitOperand(o, vm) + [LocalTee(SCRATCH), name, FieldPresent]) +
                     [If([LocalGet(SCRATCH), name, CompoundGet, SetVar(v, vm)] + e.code)],
                  lt, Repeat(ExternRef, n), labels) ==
            OpTyping(BindField(o, field, v, body), n)
  {
    hide Adds, LocalsFit, Checks;
    var name, s := ConstRef(CName(field)), Repeat(ExternRef, n);
    var a, take := EmitOperand(o, vm) + [LocalTee(SCRATCH), name, FieldPresent],
                   [LocalGet(SCRATCH), name, CompoundGet, SetVar(v, vm)];
    PresentAdds(o, field, lt, vm, base, total, labels);
    TakeAdds(field, v, lt, vm, base, total, labels + 1);
    BodyOk(body, e, lt, labels + 1);
    Before(take, e.code, [], lt, labels + 1);
    CheckConcat(a, [If(take + e.code)], lt, s, labels);
    AddsUse(a, lt, labels, [I32], s);
    CheckSingle(If(take + e.code), lt, s + [I32], labels);
    assert (s + [I32])[..|s|] == s;
  }

  lemma {:induction false} JoinChecks(op: Op, n: nat, lt: seq<ValType>, vm: VarMap, base: nat, iters: nat, joins: nat,
      total: nat, labels: nat)
    requires op.HashJoin? && LocalsFit(lt, vm, base, total) && iters + 3 <= total
    requires Checks(op.body, EmitOp(op.body, vm, base, iters + 3, joins + 1), 0, lt, labels + 4)
    ensures Checks(op, EmitOp(op, vm, base, iters, joins), n, lt, labels)
  {
    hide Adds, LocalsFit, ScanLoop, Checks, SendVars, BuildOrder;
    var it, s := base + iters, Repeat(ExternRef, n);
    var order, e := BuildOrder(op.buildVars, op.keys), EmitOp(op.body, vm, base, iters + 3, joins + 1);
    var build := [JoinBegin(joins), ScanStart(op.buildRel), LocalSet(it)] +
                 ScanLoop(it, op.buildVars, vm, SendVars(order, vm) + [JoinCommit(joins, |op.keys|)]);
    var matches := (SendVars(op.keys, vm) + [JoinProbe(joins), LocalSet(it + 2)]) + ScanLoop(it + 2, order, vm, e.code);
    var probe := [ScanStart(op.probeRel), LocalSet(it + 1)] + ScanLoop(it + 1, op.probeVars, vm, matches);
    BuildChecks(op, s, lt, vm, base, iters, joins, total, labels);
    MatchChecks(op, e, lt, vm, base, iters, joins, total, labels);
    ProbeChecks(op, matches, s, lt, vm, base, iters, total, labels);
    AddsOne(JoinEnd(joins), lt, labels);
    AddsUse([JoinEnd(joins)], lt, labels, [], s);
    CheckConcat(probe, [JoinEnd(joins)], lt, s, labels);
    CheckConcat(build, probe + [JoinEnd(joins)], lt, s, labels);
    assert s + [] == s;
    JoinTyping(op, e, n, lt, labels, vm, base, iters, joins);
  }

  lemma {:induction false} JoinTyping(op: Op, e: Emitted, n: nat, lt: seq<ValType>, labels: nat, vm: VarMap, base: nat,
      iters: nat, joins: nat)
    requires op.HashJoin? && e == EmitOp(op.body, vm, base, iters + 3, joins + 1)
    ensures Checks(op, EmitOp(op, vm, base, iters, joins), n, lt, labels) <==>
            TypeCode(([JoinBegin(joins), ScanStart(op.buildRel), LocalSet(base + iters)] +
                   ScanLoop(base + iters, op.buildVars, vm,
                            SendVars(BuildOrder(op.buildVars, op.keys), vm) + [JoinCommit(joins, |op.keys|)])) +
                  (([ScanStart(op.probeRel), LocalSet(base + iters + 1)] +
                    ScanLoop(base + iters + 1, op.probeVars, vm,
                             (SendVars(op.keys, vm) + [JoinProbe(joins), LocalSet(base + iters + 2)]) +
                             ScanLoop(base + iters + 2, BuildOrder(op.buildVars, op.keys), vm, e.code))) +
                   [JoinEnd(joins)]), lt, Repeat(ExternRef, n), labels) ==
            if OpFits(op.body, 0) then Some(Falls(Repeat(ExternRef, n))) else None
  {
    hide ScanLoop, SendVars, BuildOrder, TypeCode;
  }

  /** The build loop of a join. */
  lemma {:induction false} BuildChecks(op: Op, s: seq<ValType>, lt: seq<ValType>, vm: VarMap, base: nat, iters: nat,
      joins: nat, total: nat, labels: nat)
    requires op.HashJoin? && LocalsFit(lt, vm, base, total) && iters < total
    ensures TypeCode([JoinBegin(joins), ScanStart(op.buildRel), LocalSet(base + iters)] +
                  ScanLoop(base + iters, op.buildVars, vm,
                           SendVars(BuildOrder(op.buildVars, op.keys), vm) + [JoinCommit(joins, |op.keys|)]), lt, s,
                           labels) ==
            Some(Falls(s))
  {
    hide Adds, LocalsFit, ScanLoop, BuildOrder;
    var it, order := base + iters, BuildOrder(op.buildVars, op.keys);
    var sends, commit := SendVars(order, vm), JoinCommit(joins, |op.keys|);
    IterLocal(it, lt, vm, base, total);
    AddsOne(JoinBegin(joins), lt, labels);
    AddsOne(ScanStart(op.buildRel), lt, labels);
    AddsSet([ScanStart(op.buildRel)], LocalSet(it), lt, labels, I32);
    AddsThen([JoinBegin(joins)], [ScanStart(op.buildRel)] + [LocalSet(it)], lt, labels, []);
    assert [JoinBegin(joins)] + ([ScanStart(op.buildRel)] + [LocalSet(it)]) ==
           [JoinBegin(joins), ScanStart(op.buildRel), LocalSet(it)];
    SendsAdd(order, lt, vm, base, total, labels + 2);
    AddsOne(commit, lt, labels + 2);
    AddsThen(sends, [commit], lt, labels + 2, []);
    AddsUse(sends + [commit], lt, labels + 2, [], []);
    LoopChecks(it, op.buildVars, sends + [commit], s, lt, vm, base, total, labels);
    Before([JoinBegin(joins), ScanStart(op.buildRel), LocalSet(it)], ScanLoop(it, op.buildVars, vm, sends + [commit]),
           s, lt, labels);
  }

  /** The loop over the matches of a probe row. */
  lemma {:induction false} MatchChecks(op: Op, e: Emitted, lt: seq<ValType>, vm: VarMap, base: nat, iters: nat,
      joins: nat, total: nat, labels: nat)
    requires op.HashJoin? && LocalsFit(lt, vm, base, total) && iters + 3 <= total &&
             Checks(op.body, e, 0, lt, labels + 4)
    ensures TypeCode((SendVars(op.keys, vm) + [JoinProbe(joins), LocalSet(base + iters + 2)]) +
                     ScanLoop(base + iters + 2, BuildOrder(op.buildVars, op.keys), vm, e.code),
                  lt, [], labels + 2) ==
            if OpFits(op.body, 0) then Some(Falls([])) else None
  {
    hide Adds, LocalsFit, ScanLoop, BuildOrder, Checks;
    var it, sends := base + iters + 2, SendVars(op.keys, vm);
    IterLocal(it, lt, vm, base, total);
    SendsAdd(op.keys, lt, vm, base, total, labels + 2);
    AddsOne(JoinProbe(joins), lt, labels + 2);
    AddsThen(sends, [JoinProbe(joins)], lt, labels + 2, [I32]);
    AddsSet(sends + [JoinProbe(joins)], LocalSet(it), lt, labels + 2, I32);
    assert sends + [JoinProbe(joins)] + [LocalSet(it)] == sends + [JoinProbe(joins), LocalSet(it)];
    Before(sends + [JoinProbe(joins), LocalSet(it)], ScanLoop(it, BuildOrder(op.buildVars, op.keys), vm, e.code), [],
           lt, labels + 2);
    LoopFits(it, BuildOrder(op.buildVars, op.keys), op.body, e, [], lt, vm, base, total, labels + 2);
  }

  /** The probe loop of a join. */
  lemma {:induction false} ProbeChecks(op: Op, matches: seq<Instr>, s: seq<ValType>, lt: seq<ValType>, vm: VarMap,
      base: nat, iters: nat, total: nat, labels: nat)
    requires op.HashJoin? && LocalsFit(lt, vm, base, total) && iters + 3 <= total
    requires var t := TypeCode(matches, lt, [], labels + 2); t == None || t == Some(Falls([]))
    ensures TypeCode([ScanStart(op.probeRel), LocalSet(base + iters + 1)] +
                     ScanLoop(base + iters + 1, op.probeVars, vm, matches), lt, s, labels) ==
            if TypeCode(matches, lt, [], labels + 2).Some? then Some(Falls(s)) else None
  {
    hide Adds, LocalsFit, ScanLoop;
    var it := base + iters + 1;
    IterLocal(it, lt, vm, base, total);
    AddsOne(ScanStart(op.probeRel), lt, labels);
    AddsSet([ScanStart(op.probeRel)], LocalSet(it), lt, labels, I32);
    assert [ScanStart(op.probeRel)] + [LocalSet(it)] == [ScanStart(op.probeRel), LocalSet(it)];
    LoopChecks(it, op.probeVars, matches, s, lt, vm, base, total, labels);
    Before([ScanStart(op.probeRel), LocalSet(it)], ScanLoop(it, op.probeVars, vm, matches), s, lt, labels);
  }
}
