/** Validation of structured code: types of locals and stack, and the labels of branches.
    Validated code never meets a missing local, a short stack or a value of the wrong kind. */
module Validate {
  import opened Datalog
  import opened Interp
  import opened Wasm
  import opened Worlds

  datatype ValType = ExternRef | I32

  function Repeat(t: ValType, n: nat): (r: seq<ValType>)
    ensures |r| == n && forall i :: 0 <= i < n ==> r[i] == t
  {
    if n == 0 then [] else [t] + Repeat(t, n - 1)
  }

  function TypeOf(s: Slot): ValType {
    if s.Int? then I32 else ExternRef
  }

  // ----- Signatures -----

  datatype Signature = Signature(params: seq<ValType>, results: seq<ValType>)

  /** What an instruction takes and leaves; locals, `Drop` and control are typed below. */
  function SignatureOf(i: Instr): Signature {
    match i
    case ConstRef(_) => Signature([], [ExternRef])
    case RefNull => Signature([], [ExternRef])
    case I32Eqz => Signature([I32], [I32])
    case ScanStart(_) => Signature([], [I32])
    case ScanDeltaStart(_) => Signature([], [I32])
    case ScanIndexStart(_, _) => Signature([ExternRef], [I32])
    case ListIterStart => Signature([ExternRef], [I32])
    case ScanNext => Signature([I32], [I32])
    case GetCol(_) => Signature([I32], [ExternRef])
    case Push(_) => Signature([ExternRef], [])
    case NegationEnd => Signature([], [I32])
    case JoinProbe(_) => Signature([], [I32])
    case CallFn(_, k) => Signature(Repeat(ExternRef, k), [ExternRef])
    case CallCmp(_) => Signature([ExternRef, ExternRef], [I32])
    case CallTest(p) => Signature(Repeat(ExternRef, TestArity(p)), [I32])
    case FieldPresent => Signature([ExternRef, ExternRef], [I32])
    case CompoundGet => Signature([ExternRef, ExternRef], [ExternRef])
    case MergeDeltas => Signature([], [I32])
    case _ => Signature([], [])
  }

  // ----- Checking -----

  /** Code either falls through with a stack, or always branches away. */
  datatype Typing = Falls(stack: seq<ValType>) | Branches

  function ApplySig(sig: Signature, stack: seq<ValType>): Option<Typing> {
    var n := |stack| - |sig.params|;
    if n >= 0 && stack[n..] == sig.params then Some(Falls(stack[..n] + sig.results)) else None
  }

  /** Blocks neither take nor leave values. */
  predicate BlockOk(t: Option<Typing>) {
    t == Some(Falls([])) || t == Some(Branches)
  }

  /** The type of code in a block whose stack is `stack`, under this many labels.  Code after
      an unconditional branch is not accepted, although the standard accepts it. */
  function TypeCode(code: seq<Instr>, locals: seq<ValType>, stack: seq<ValType>, labels: nat): Option<Typing>
    decreases code
  {
    if code == [] then Some(Falls(stack))
    else
      match TypeInstr(code[0], locals, stack, labels)
      case None => None
      case Some(Branches) => if |code| == 1 then Some(Branches) else None
      case Some(Falls(s)) => TypeCode(code[1..], locals, s, labels)
  }

  function TypeInstr(i: Instr, locals: seq<ValType>, stack: seq<ValType>, labels: nat): Option<Typing>
    decreases i
  {
    var n := |stack|;
    match i
    case LocalGet(k) => if k < |locals| then Some(Falls(stack + [locals[k]])) else None
    case LocalSet(k) =>
      if k < |locals| && n >= 1 && stack[n - 1] == locals[k] then Some(Falls(stack[..n - 1])) else None
    case LocalTee(k) => if k < |locals| && n >= 1 && stack[n - 1] == locals[k] then Some(Falls(stack)) else None
    case Drop => if n >= 1 then Some(Falls(stack[..n - 1])) else None
    case CallTest(p) => if HasImport(p) then ApplySig(SignatureOf(i), stack) else None
    case Block(body) => if BlockOk(TypeCode(body, locals, [], labels + 1)) then Some(Falls(stack)) else None
    case Loop(body) => if BlockOk(TypeCode(body, locals, [], labels + 1)) then Some(Falls(stack)) else None
    case If(body) =>
      if n >= 1 && stack[n - 1] == I32 && BlockOk(TypeCode(body, locals, [], labels + 1)) then
      Some(Falls(stack[..n - 1])) else None
    case Br(d) => if d < labels then Some(Branches) else None
    case BrIf(d) => if d < labels && n >= 1 && stack[n - 1] == I32 then Some(Falls(stack[..n - 1])) else None
    case _ => ApplySig(SignatureOf(i), stack)
  }

  // ----- Validated code does not get stuck -----

  ghost predicate LocalsTyped(locals: map<nat, Slot>, types: seq<ValType>) {
    forall k :: 0 <= k < |types| ==> k in locals && TypeOf(locals[k]) == types[k]
  }

  /** The values above `below` have these types. */
  ghost predicate StackTyped(stack: seq<Slot>, below: seq<Slot>, types: seq<ValType>) {
    |stack| == |below| + |types| && stack[..|below|] == below &&
    forall k :: 0 <= k < |types| ==> TypeOf(stack[|below| + k]) == types[k]
  }

  ghost predicate Typed(st: State, below: seq<Slot>, locals: seq<ValType>, types: seq<ValType>) {
    LocalsTyped(st.locals, locals) && StackTyped(st.stack, below, types)
  }

  lemma {:induction false} TopTyped(st: State, below: seq<Slot>, locals: seq<ValType>, types: seq<ValType>, k: nat)
    requires Typed(st, below, locals, types) && k < |types|
    ensures |st.stack| > k && TypeOf(st.Top(k)) == types[|types| - 1 - k]
  {
  }

  /** The state after the top values are replaced. */
  ghost predicate Replaced(st: State, s: State, pops: nat, pushes: seq<Slot>) {
    && s.locals == st.locals && pops <= |st.stack|
    && s.stack == st.stack[..|st.stack| - pops] + pushes
  }

  lemma {:induction false} ReplacedTyped(st: State, s: State, below: seq<Slot>, locals: seq<ValType>,
      types: seq<ValType>, sig: Signature, pushes: seq<Slot>)
    requires Typed(st, below, locals, types) && Replaced(st, s, |sig.params|, pushes)
    requires |sig.params| <= |types| && |pushes| == |sig.results| &&
             forall k :: 0 <= k < |pushes| ==> TypeOf(pushes[k]) == sig.results[k]
    ensures Typed(s, below, locals, types[..|types| - |sig.params|] + sig.results)
  {
    var n := |st.stack| - |sig.params|;
    assert s.stack[..n] == st.stack[..n] && |below| <= n;
    assert s.stack[..|below|] == s.stack[..n][..|below|] == st.stack[..n][..|below|] == below;
  }

  lemma {:induction false} ParamsTyped(st: State, below: seq<Slot>, locals: seq<ValType>, types: seq<ValType>,
      params: seq<ValType>)
    requires Typed(st, below, locals, types) && |params| <= |types| && types[|types| - |params|..] == params
    ensures |st.stack| >= |params| && forall j :: 0 <= j < |params| ==> TypeOf(st.Top(j)) == params[|params| - 1 - j]
  {
    forall j | 0 <= j < |params| ensures TypeOf(st.Top(j)) == params[|params| - 1 - j] {
      TopTyped(st, below, locals, types, j);
      assert types[|types| - |params|..][|params| - 1 - j] == types[|types| - 1 - j];
    }
  }

  /** Instructions with a signature. */
  predicate HasSignature(i: Instr) {
    !i.IsControl() && !i.LocalGet? && !i.LocalSet? && !i.LocalTee? && !i.Drop? && !i.MergeDeltas? &&
    (i.CallTest? ==> HasImport(i.pred))
  }

  /** An instruction finds what its signature says. */
  lemma {:induction false} SignatureFits(i: Instr, st: State, below: seq<Slot>, locals: seq<ValType>,
      types: seq<ValType>)
    requires HasSignature(i) && Typed(st, below, locals, types) && ApplySig(SignatureOf(i), types).Some?
    ensures Applicable(i, st)
  {
    ParamsTyped(st, below, locals, types, SignatureOf(i).params);
  }

  /** An instruction leaves what its signature says. */
  lemma {:induction false} SignatureLeaves(i: Instr, st: State, m: Machine) returns (pushes: seq<Slot>)
    requires HasSignature(i) && Step(i, st, m).Some?
    ensures Replaced(st, Step(i, st, m).value, |SignatureOf(i).params|, pushes)
    ensures |pushes| == |SignatureOf(i).results| &&
            forall k :: 0 <= k < |pushes| ==> TypeOf(pushes[k]) == SignatureOf(i).results[k]
  {
    if SignatureOf(i).results == [] {
      pushes := [];
      QuietLeaves(i, st, m);
    } else {
      pushes := PushLeaves(i, st, m);
    }
  }

  lemma {:induction false} QuietLeaves(i: Instr, st: State, m: Machine)
    requires HasSignature(i) && Step(i, st, m).Some? && SignatureOf(i).results == []
    ensures Replaced(st, Step(i, st, m).value, |SignatureOf(i).params|, [])
  {
    assert st.stack[..|st.stack|] == st.stack;
  }

  lemma {:induction false} TestLeaves(p: Pred, st: State, m: Machine) returns (push: Slot)
    requires HostTest(p, st, m).Some?
    ensures TypeOf(push) == I32 && Replaced(st, HostTest(p, st, m).value, TestArity(p), [push])
  {
    var s := HostTest(p, st, m).value;
    push := s.stack[|s.stack| - 1];
  }

  lemma {:induction false} PushLeaves(i: Instr, st: State, m: Machine) returns (pushes: seq<Slot>)
    requires HasSignature(i) && Step(i, st, m).Some? && SignatureOf(i).results != []
    ensures Replaced(st, Step(i, st, m).value, |SignatureOf(i).params|, pushes)
    ensures |pushes| == |SignatureOf(i).results| &&
            forall k :: 0 <= k < |pushes| ==> TypeOf(pushes[k]) == SignatureOf(i).results[k]
  {
    hide HostTest, FieldOf, Compares, Wasm.Matches;
    if i.CallTest? {
      var push := TestLeaves(i.pred, st, m);
      pushes := [push];
    } else {
      var s := Step(i, st, m).value;
      pushes := [s.stack[|s.stack| - 1]];
    }
  }

  lemma {:induction false} StepTyped(i: Instr, st: State, below: seq<Slot>, locals: seq<ValType>, types: seq<ValType>,
      labels: nat, m: Machine)
    requires !i.IsControl() && !i.MergeDeltas? && Typed(st, below, locals, types) &&
             TypeInstr(i, locals, types, labels).Some?
    ensures Applicable(i, st) && TypeInstr(i, locals, types, labels).value.Falls?
    ensures Step(i, st, m).Some? ==>
            Typed(Step(i, st, m).value, below, locals, TypeInstr(i, locals, types, labels).value.stack)
  {
    hide Step, Applicable, Typed, SignatureOf;
    if HasSignature(i) {
      SignatureFits(i, st, below, locals, types);
      if Step(i, st, m).Some? {
        var pushes := SignatureLeaves(i, st, m);
        ReplacedTyped(st, Step(i, st, m).value, below, locals, types, SignatureOf(i), pushes);
      }
    } else {
      LocalTyped(i, st, below, locals, types, labels, m);
    }
  }

  lemma {:induction false} LocalTyped(i: Instr, st: State, below: seq<Slot>, locals: seq<ValType>, types: seq<ValType>,
      labels: nat, m: Machine)
    requires (i.LocalGet? || i.LocalSet? || i.LocalTee? || i.Drop?) && Typed(st, below, locals, types) &&
             TypeInstr(i, locals, types, labels).Some?
    ensures Applicable(i, st) && TypeInstr(i, locals, types, labels).value.Falls?
    ensures Step(i, st, m).Some? &&
            Typed(Step(i, st, m).value, below, locals, TypeInstr(i, locals, types, labels).value.stack)
  {
    if !i.LocalGet? { PoppedTyped(st, below, locals, types); }
  }

  /** A run of validated code: it is never ill typed, it branches to existing labels only, and
      what it leaves on the stack has the computed types. */
  ghost predicate Sound(o: Outcome, below: seq<Slot>, locals: seq<ValType>, t: Typing, labels: nat) {
    match o
    case Ended(w) => t.Falls? && Typed(w.st, below, locals, t.stack)
    case Leaving(d, w) => d < labels && LocalsTyped(w.st.locals, locals)
    case IllTyped => false
    case _ => true
  }

  lemma {:induction false} FrameTyped(st: State, below: seq<Slot>, locals: seq<ValType>, types: seq<ValType>)
    requires Typed(st, below, locals, types)
    ensures Typed(st, st.stack, locals, [])
  {
  }

  lemma {:induction false} PoppedTyped(st: State, below: seq<Slot>, locals: seq<ValType>, types: seq<ValType>)
    requires Typed(st, below, locals, types) && types != []
    ensures |st.stack| >= 1 && TypeOf(st.Top(0)) == types[|types| - 1] &&
            Typed(st.Popped(1), below, locals, types[..|types| - 1])
  {
    TopTyped(st, below, locals, types, 0);
  }

  /** Leaving a block restores the stack that it started with. */
  lemma {:induction false} BlockSound(o: Outcome, st: State, below: seq<Slot>, locals: seq<ValType>,
      types: seq<ValType>, t: Typing, labels: nat)
    requires Typed(st, below, locals, types) && Sound(o, st.stack, locals, t, labels + 1) &&
             (t == Falls([]) || t == Branches)
    ensures Sound(Worlds.LeaveBlock(o, st.stack), below, locals, Falls(types), labels)
  {
    if o.Ended? { assert o.w.st.stack == st.stack; }
  }

  lemma {:induction false} NeverStuck(code: seq<Instr>, w: World, below: seq<Slot>, locals: seq<ValType>,
      types: seq<ValType>, labels: nat, h: Tables, fuel: nat)
    requires Typed(w.st, below, locals, types) && TypeCode(code, locals, types, labels).Some?
    ensures Sound(Worlds.Exec(code, w, h, fuel), below, locals, TypeCode(code, locals, types, labels).value, labels)
    decreases fuel, code, 0
  {
    if code != [] {
      NeverStuckOne(code[0], w, below, locals, types, labels, h, fuel);
      var o, t := Worlds.ExecOne(code[0], w, h, fuel), TypeInstr(code[0], locals, types, labels).value;
      if o.Ended? { NeverStuck(code[1..], o.w, below, locals, t.stack, labels, h, fuel); }
    }
  }

  lemma {:induction false} NeverStuckOne(i: Instr, w: World, below: seq<Slot>, locals: seq<ValType>,
      types: seq<ValType>, labels: nat, h: Tables, fuel: nat)
    requires Typed(w.st, below, locals, types) && TypeInstr(i, locals, types, labels).Some?
    ensures Sound(Worlds.ExecOne(i, w, h, fuel), below, locals, TypeInstr(i, locals, types, labels).value, labels)
    decreases fuel, i, 1
  {
    var st := w.st;
    hide Step, Applicable, Typed, SignatureOf, LocalsTyped;
    match i
    case MergeDeltas => MergeTyped(w, below, locals, types);
    case Block(body) => BodySound(body, w, below, locals, types, labels, h, fuel);
    case If(body) =>
      PoppedTyped(st, below, locals, types);
      BodySound(body, w.(st := st.Popped(1)), below, locals, types[..|types| - 1], labels, h, fuel);
    case Loop(body) => LoopSound(body, w, below, locals, types, labels, h, fuel);
    case Br(d) => LocalsOf(st, below, locals, types);
    case BrIf(d) =>
      PoppedTyped(st, below, locals, types);
      LocalsOf(st.Popped(1), below, locals, types[..|types| - 1]);
    case _ => PlainSound(i, w, below, locals, types, labels, h, fuel);
  }

  lemma {:induction false} PlainSound(i: Instr, w: World, below: seq<Slot>, locals: seq<ValType>, types: seq<ValType>,
      labels: nat, h: Tables, fuel: nat)
    requires !i.IsControl() && !i.MergeDeltas? && Typed(w.st, below, locals, types) &&
             TypeInstr(i, locals, types, labels).Some?
    ensures Sound(Worlds.ExecOne(i, w, h, fuel), below, locals, TypeInstr(i, locals, types, labels).value, labels)
  {
    hide Step, Applicable, Typed, TypeInstr;
    StepTyped(i, w.st, below, locals, types, labels, h(w.stable, w.delta));
  }

  lemma {:induction false} BodySound(body: seq<Instr>, w: World, below: seq<Slot>, locals: seq<ValType>,
      types: seq<ValType>, labels: nat, h: Tables, fuel: nat)
    requires Typed(w.st, below, locals, types) && BlockOk(TypeCode(body, locals, [], labels + 1))
    ensures Sound(Worlds.LeaveBlock(Worlds.Exec(body, w, h, fuel), w.st.stack), below, locals, Falls(types), labels)
    decreases fuel, body, 1
  {
    hide Typed, Worlds.Exec, TypeCode;
    FrameTyped(w.st, below, locals, types);
    NeverStuck(body, w, w.st.stack, locals, [], labels + 1, h, fuel);
    BlockSound(Worlds.Exec(body, w, h, fuel), w.st, below, locals, types, TypeCode(body, locals, [], labels + 1).value,
               labels);
  }

  lemma {:induction false} LocalsOf(st: State, below: seq<Slot>, locals: seq<ValType>, types: seq<ValType>)
    requires Typed(st, below, locals, types)
    ensures LocalsTyped(st.locals, locals)
  {
  }

  lemma {:induction false} MergeTyped(w: World, below: seq<Slot>, locals: seq<ValType>, types: seq<ValType>)
    requires Typed(w.st, below, locals, types)
    ensures ApplySig(SignatureOf(MergeDeltas), types) == Some(Falls(types + [I32])) &&
            Typed(w.Merged().st, below, locals, types + [I32])
  {
    assert types[|types|..] == [] && types[..|types|] == types;
  }

  lemma {:induction false} LoopSound(body: seq<Instr>, w: World, below: seq<Slot>, locals: seq<ValType>,
      types: seq<ValType>, labels: nat, h: Tables, fuel: nat)
    requires Typed(w.st, below, locals, types) && BlockOk(TypeCode(body, locals, [], labels + 1))
    ensures Sound(Worlds.ExecOne(Loop(body), w, h, fuel), below, locals, Falls(types), labels)
    decreases fuel, Loop(body), 0
  {
    var st := w.st;
    hide Step, Applicable;
    FrameTyped(st, below, locals, types);
    NeverStuck(body, w, st.stack, locals, [], labels + 1, h, fuel);
    var o := Worlds.Exec(body, w, h, fuel);
    if o.Ended? { assert o.w.st.stack == st.stack; }
    if o.Leaving? && o.depth == 0 && fuel > 0 {
      LoopSound(body, Restack(o.w, st.stack), below, locals, types, labels, h, fuel - 1);
    }
  }

  // ----- Checking code piece by piece -----

  lemma {:induction false} CheckConcat(a: seq<Instr>, b: seq<Instr>, locals: seq<ValType>, stack: seq<ValType>,
      labels: nat)
    ensures TypeCode(a + b, locals, stack, labels) ==
            (match TypeCode(a, locals, stack, labels)
             case None => None
             case Some(Falls(s)) => TypeCode(b, locals, s, labels)
             case Some(Branches) => if b == [] then Some(Branches) else None)
    decreases |a|
  {
    if a == [] {
      assert a + b == b;
    } else {
      assert (a + b)[0] == a[0] && (a + b)[1..] == a[1..] + b;
      var t := TypeInstr(a[0], locals, stack, labels);
      if t.Some? && t.value.Falls? { CheckConcat(a[1..], b, locals, t.value.stack, labels); }
      if t == Some(Branches) && |a| == 1 { assert a + b == a <==> b == []; }
    }
  }

  lemma {:induction false} CheckSingle(i: Instr, locals: seq<ValType>, stack: seq<ValType>, labels: nat)
    ensures TypeCode([i], locals, stack, labels) == TypeInstr(i, locals, stack, labels)
  {
    assert [i][1..] == [];
    var t := TypeInstr(i, locals, stack, labels);
    if t.Some? && t.value.Falls? { assert TypeCode([], locals, t.value.stack, labels) == t; }
  }
}
