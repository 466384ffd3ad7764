/** The generated function: the plans of all strata in order, with a loop and merges for each
    recursive stratum.  It validates, and no loop disturbs the iterator of another. */
module Generate {
  import opened Datalog
  import opened Planner
  import opened Wasm
  import opened Worlds
  import opened Emit
  import opened Validate
  import opened EmitValid

  // ----- The schedule -----

  /** The plans of a stratum; a recursive one has initial plans and delta plans. */
  datatype Segment = Once(ops: seq<Op>) | Fixpoint(initial: seq<Op>, deltas: seq<Op>)

  function SegmentOps(seg: Segment): seq<Op> {
    match seg
    case Once(ops) => ops
    case Fixpoint(initial, deltas) => initial + deltas
  }

  function AllOps(segs: seq<Segment>): seq<Op> {
    if segs == [] then [] else SegmentOps(segs[0]) + AllOps(segs[1..])
  }

  /** The loop of a recursive stratum goes on while a merge finds something new. */
  function RoundLoop(code: seq<Instr>): seq<Instr> {
    [MergeDeltas, Drop, Loop(code + [MergeDeltas, BrIf(0)])]
  }

  function EmitSegment(seg: Segment, vm: VarMap, base: nat, iters: nat, joins: nat): Emitted {
    match seg
    case Once(ops) => EmitAll(ops, vm, base, iters, joins)
    case Fixpoint(initial, deltas) =>
      var first := EmitAll(initial, vm, base, iters, joins);
      var second := EmitAll(deltas, vm, base, first.iters, first.joins);
      Emitted(first.code + RoundLoop(second.code), second.iters, second.joins)
  }

  function EmitSchedule(segs: seq<Segment>, vm: VarMap, base: nat, iters: nat, joins: nat): Emitted {
    if segs == [] then Emitted([], iters, joins)
    else
      var first := EmitSegment(segs[0], vm, base, iters, joins);
      var rest := EmitSchedule(segs[1..], vm, base, first.iters, first.joins);
      Emitted(first.code + rest.code, rest.iters, rest.joins)
  }

  const NOTHING := Collected(map[], FIRST_VAR, 0)

  /** The two passes: the locals that the first collects, and the code. */
  function Generated(segs: seq<Segment>): seq<Instr> {
    var c := CollectAll(AllOps(segs), NOTHING);
    EmitSchedule(segs, c.vm, c.next, 0, 0).code
  }

  // ----- Both passes count the same iterators -----

  lemma {:induction false} CollectConcat(a: seq<Op>, b: seq<Op>, c: Collected)
    ensures CollectAll(a + b, c) == CollectAll(b, CollectAll(a, c))
    decreases |a|
  {
    if a == [] {
      assert a + b == b;
    } else {
      assert (a + b)[0] == a[0] && (a + b)[1..] == a[1..] + b;
      CollectConcat(a[1..], b, CollectVars(a[0], c));
    }
  }

  lemma {:induction false} SegmentCounted(seg: Segment, c: Collected, vm: VarMap, base: nat, iters: nat, joins: nat)
    ensures EmitSegment(seg, vm, base, iters, joins).iters - iters == CollectAll(SegmentOps(seg), c).iters - c.iters
    ensures EmitSegment(seg, vm, base, iters, joins).iters >= iters
  {
    match seg
    case Once(ops) =>
      AllItersCounted(ops, c, vm, base, iters, joins);
      AllItersGrow(ops, vm, base, iters, joins);
    case Fixpoint(initial, deltas) =>
      var first := EmitAll(initial, vm, base, iters, joins);
      AllItersCounted(initial, c, vm, base, iters, joins);
      AllItersCounted(deltas, CollectAll(initial, c), vm, base, first.iters, first.joins);
      AllItersGrow(initial, vm, base, iters, joins);
      AllItersGrow(deltas, vm, base, first.iters, first.joins);
      CollectConcat(initial, deltas, c);
  }

  lemma {:induction false} ScheduleCounted(segs: seq<Segment>, c: Collected, vm: VarMap, base: nat, iters: nat,
      joins: nat)
    ensures EmitSchedule(segs, vm, base, iters, joins).iters - iters == CollectAll(AllOps(segs), c).iters - c.iters
    ensures EmitSchedule(segs, vm, base, iters, joins).iters >= iters
    decreases |segs|
  {
    if segs != [] {
      var first := EmitSegment(segs[0], vm, base, iters, joins);
      SegmentCounted(segs[0], c, vm, base, iters, joins);
      CollectConcat(SegmentOps(segs[0]), AllOps(segs[1..]), c);
      ScheduleCounted(segs[1..], CollectAll(SegmentOps(segs[0]), c), vm, base, first.iters, first.joins);
    }
  }

  // ----- Validation -----

  function AllExtra(ops: seq<Op>): int {
    if ops == [] then 0 else Extra(ops[0]) + AllExtra(ops[1..])
  }

  predicate AllFit(ops: seq<Op>, n: int) {
    ops != [] ==> OpFits(ops[0], n) && AllFit(ops[1..], n + Extra(ops[0]))
  }

  ghost function AllTyping(fits: bool, n: int): Option<Typing> {
    if fits && n >= 0 then Some(Falls(Repeat(ExternRef, n))) else None
  }

  lemma {:induction false} AllCheck(ops: seq<Op>, n: nat, lt: seq<ValType>, vm: VarMap, base: nat, iters: nat,
      joins: nat, total: nat, labels: nat)
    requires LocalsFit(lt, vm, base, total) && EmitAll(ops, vm, base, iters, joins).iters <= total
    ensures TypeCode(EmitAll(ops, vm, base, iters, joins).code, lt, Repeat(ExternRef, n), labels) ==
            AllTyping(AllFit(ops, n), n + AllExtra(ops))
    ensures AllFit(ops, n) ==> n + AllExtra(ops) >= 0
    decreases |ops|
  {
    hide LocalsFit, EmitOp, OpFits, Extra;
    if ops != [] {
      var first := EmitOp(ops[0], vm, base, iters, joins);
      var rest := EmitAll(ops[1..], vm, base, first.iters, first.joins);
      AllItersGrow(ops[1..], vm, base, first.iters, first.joins);
      OpChecks(ops[0], n, lt, vm, base, iters, joins, total, labels);
      CheckConcat(first.code, rest.code, lt, Repeat(ExternRef, n), labels);
      if OpFits(ops[0], n) {
        ExtraBound(ops[0], n);
        AllCheck(ops[1..], n + Extra(ops[0]), lt, vm, base, first.iters, first.joins, total, labels);
      }
    }
  }

  predicate SegmentFits(seg: Segment, n: int) {
    match seg
    case Once(ops) => AllFit(ops, n)
    case Fixpoint(initial, deltas) => AllFit(initial, n) && AllFit(deltas, 0) && AllExtra(deltas) == 0
  }

  function SegmentExtra(seg: Segment): int {
    AllExtra(if seg.Once? then seg.ops else seg.initial)
  }

  lemma {:induction false} RoundChecks(code: seq<Instr>, s: seq<ValType>, lt: seq<ValType>, labels: nat)
    requires var t := TypeCode(code, lt, [], labels + 1); t.Some? ==> t.value.Falls?
    ensures TypeCode(RoundLoop(code), lt, s, labels) ==
            if TypeCode(code, lt, [], labels + 1) == Some(Falls([])) then Some(Falls(s)) else None
  {
    hide TypeCode;
    var t := TypeCode(code, lt, [], labels + 1);
    CheckConcat(code, [MergeDeltas, BrIf(0)], lt, [], labels + 1);
    if t.Some? { MergeAgain(t.value.stack, lt, labels); }
    var body := code + [MergeDeltas, BrIf(0)];
    assert BlockOk(TypeCode(body, lt, [], labels + 1)) <==> t == Some(Falls([]));
    CheckConcat([MergeDeltas, Drop], [Loop(body)], lt, s, labels);
    assert [MergeDeltas, Drop] + [Loop(body)] == RoundLoop(code);
    MergeDropped(s, lt, labels);
    CheckSingle(Loop(body), lt, s, labels);
  }

  lemma {:induction false} MergeAgain(s: seq<ValType>, lt: seq<ValType>, labels: nat)
    ensures TypeCode([MergeDeltas, BrIf(0)], lt, s, labels + 1) == Some(Falls(s))
  {
    hide TypeCode;
    MergePushes(s, lt, labels + 1);
    CheckConcat([MergeDeltas], [BrIf(0)], lt, s, labels + 1);
    CheckSingle(BrIf(0), lt, s + [I32], labels + 1);
    assert (s + [I32])[..|s|] == s && [MergeDeltas] + [BrIf(0)] == [MergeDeltas, BrIf(0)];
  }

  lemma {:induction false} MergeDropped(s: seq<ValType>, lt: seq<ValType>, labels: nat)
    ensures TypeCode([MergeDeltas, Drop], lt, s, labels) == Some(Falls(s))
  {
    MergePushes(s, lt, labels);
    CheckConcat([MergeDeltas], [Drop], lt, s, labels);
    CheckSingle(Drop, lt, s + [I32], labels);
    assert (s + [I32])[..|s|] == s && [MergeDeltas] + [Drop] == [MergeDeltas, Drop];
  }

  lemma {:induction false} MergePushes(s: seq<ValType>, lt: seq<ValType>, labels: nat)
    ensures TypeCode([MergeDeltas], lt, s, labels) == Some(Falls(s + [I32]))
  {
    CheckSingle(MergeDeltas, lt, s, labels);
    assert s[|s|..] == [] && s[..|s|] == s;
  }

  lemma {:induction false} SegmentChecks(seg: Segment, n: nat, lt: seq<ValType>, vm: VarMap, base: nat, iters: nat,
      joins: nat, total: nat, labels: nat)
    requires LocalsFit(lt, vm, base, total) && EmitSegment(seg, vm, base, iters, joins).iters <= total
    ensures TypeCode(EmitSegment(seg, vm, base, iters, joins).code, lt, Repeat(ExternRef, n), labels) ==
            AllTyping(SegmentFits(seg, n), n + SegmentExtra(seg))
    ensures SegmentFits(seg, n) ==> n + SegmentExtra(seg) >= 0
  {
    hide LocalsFit, EmitAll, TypeCode, RoundLoop;
    match seg
    case Once(ops) => AllCheck(ops, n, lt, vm, base, iters, joins, total, labels);
    case Fixpoint(initial, deltas) =>
      var first := EmitAll(initial, vm, base, iters, joins);
      var second := EmitAll(deltas, vm, base, first.iters, first.joins);
      AllItersGrow(deltas, vm, base, first.iters, first.joins);
      AllCheck(initial, n, lt, vm, base, iters, joins, total, labels);
      AllCheck(deltas, 0, lt, vm, base, first.iters, first.joins, total, labels + 1);
      assert Repeat(ExternRef, 0) == [];
      CheckConcat(first.code, RoundLoop(second.code), lt, Repeat(ExternRef, n), labels);
      if AllFit(initial, n) {
        RoundChecks(second.code, Repeat(ExternRef, n + AllExtra(initial)), lt, labels);
        if AllFit(deltas, 0) { assert |Repeat(ExternRef, AllExtra(deltas))| == AllExtra(deltas); }
      }
  }

  lemma {:induction false} NothingChecks(n: nat, lt: seq<ValType>, labels: nat)
    ensures TypeCode([], lt, Repeat(ExternRef, n), labels) == AllTyping(true, n)
  {
  }

  predicate ScheduleFits(segs: seq<Segment>, n: int) {
    segs != [] ==> SegmentFits(segs[0], n) && ScheduleFits(segs[1..], n + SegmentExtra(segs[0]))
  }

  function ScheduleExtra(segs: seq<Segment>): int {
    if segs == [] then 0 else SegmentExtra(segs[0]) + ScheduleExtra(segs[1..])
  }

  lemma {:induction false} ScheduleChecks(segs: seq<Segment>, n: nat, lt: seq<ValType>, vm: VarMap, base: nat,
      iters: nat, joins: nat, total: nat, labels: nat)
    requires LocalsFit(lt, vm, base, total) && EmitSchedule(segs, vm, base, iters, joins).iters <= total
    ensures TypeCode(EmitSchedule(segs, vm, base, iters, joins).code, lt, Repeat(ExternRef, n), labels) ==
            AllTyping(ScheduleFits(segs, n), n + ScheduleExtra(segs))
    ensures ScheduleFits(segs, n) ==> n + ScheduleExtra(segs) >= 0
    decreases |segs|
  {
    hide LocalsFit, EmitSegment, SegmentFits, SegmentExtra, TypeCode;
    if segs == [] {
      NothingChecks(n, lt, labels);
    } else {
      var first := EmitSegment(segs[0], vm, base, iters, joins);
      var rest := EmitSchedule(segs[1..], vm, base, first.iters, first.joins);
      ScheduleCounted(segs[1..], NOTHING, vm, base, first.iters, first.joins);
      SegmentChecks(segs[0], n, lt, vm, base, iters, joins, total, labels);
      CheckConcat(first.code, rest.code, lt, Repeat(ExternRef, n), labels);
      if SegmentFits(segs[0], n) {
        ScheduleChecks(segs[1..], n + SegmentExtra(segs[0]), lt, vm, base, first.iters, first.joins, total, labels);
      }
    }
  }

  /** The generated function validates under its own declarations if and only if every test is
      sent the arguments that the host takes; in a loop body it may be sent more. */
  lemma {:induction false} GeneratedValidIff(segs: seq<Segment>)
    ensures TypeCode(Generated(segs), Declarations(CollectAll(AllOps(segs), NOTHING)), [], 1) == Some(Falls([])) <==>
            ScheduleFits(segs, 0) && ScheduleExtra(segs) == 0
  {
    var c := CollectAll(AllOps(segs), NOTHING);
    CollectAllGrows(AllOps(segs), NOTHING);
    CollectAllCounts(AllOps(segs), NOTHING);
    DeclarationsFit(c);
    ScheduleCounted(segs, NOTHING, c.vm, c.next, 0, 0);
    hide LocalsFit, TypeCode, EmitSchedule, ScheduleFits, ScheduleExtra, Declarations;
    ScheduleChecks(segs, 0, Declarations(c), c.vm, c.next, 0, 0, c.iters, 1);
    assert Repeat(ExternRef, 0) == [];
    if ScheduleFits(segs, 0) { assert |Repeat(ExternRef, ScheduleExtra(segs))| == ScheduleExtra(segs); }
  }

  // ----- Tests with the right number of arguments -----

  predicate ExactCalls(op: Op) {
    match op
    case Nop => true
    case Insert(_, _) => true
    case Filter(c, body) => Imported(c) && Surplus(c) == 0 && ExactCalls(body)
    case _ => ExactCalls(op.body)
  }

  lemma {:induction false} ExactFits(op: Op, n: nat)
    requires ExactCalls(op)
    ensures OpFits(op, n) && Extra(op) == 0
    decreases op
  {
    match op
    case Nop =>
    case Insert(_, _) =>
    case Let(_, _, body) => ExactFits(body, n);
    case _ => ExactFits(op.body, 0);
  }

  lemma {:induction false} AllExactFit(ops: seq<Op>)
    requires forall op :: op in ops ==> ExactCalls(op)
    ensures AllFit(ops, 0) && AllExtra(ops) == 0
    decreases |ops|
  {
    if ops != [] {
      assert ops[0] in ops;
      ExactFits(ops[0], 0);
      AllExactFit(ops[1..]);
    }
  }

  lemma {:induction false} ScheduleExactFits(segs: seq<Segment>)
    requires forall op :: op in AllOps(segs) ==> ExactCalls(op)
    ensures ScheduleFits(segs, 0) && ScheduleExtra(segs) == 0
    decreases |segs|
  {
    if segs != [] {
      var seg := segs[0];
      assert forall op :: op in SegmentOps(seg) ==> op in AllOps(segs);
      assert forall op :: op in AllOps(segs[1..]) ==> op in AllOps(segs);
      if seg.Once? {
        AllExactFit(seg.ops);
      } else {
        AllExactFit(seg.initial);
        AllExactFit(seg.deltas);
      }
      ScheduleExactFits(segs[1..]);
    }
  }

  // ----- The planner's plans have exact tests -----

  lemma {:induction false} LetsExact(lets: seq<Binding>, body: Op)
    requires ExactCalls(body)
    ensures ExactCalls(WrapLets(lets, body))
    decreases |lets|
  {
    if lets != [] { LetsExact(lets[1..], body); }
  }

  lemma {:induction false} ConstraintsExact(args: seq<Term>, vars: seq<Var>, body: Planned)
    requires |vars| == |args| && ApplyConstraints(args, vars, body).Ok? && ExactCalls(body.op)
    ensures ExactCalls(ApplyConstraints(args, vars, body).value.op)
    decreases |args|
  {
    if args != [] {
      var n := |args| - 1;
      var inner := Constrain(args[n], vars[n], body).value;
      if args[n] != VarTerm(vars[n]) {
        var l := LowerTerm(args[n], body.next).value;
        LetsExact(l.lets, Filter(Cmp(Eq, OVar(vars[n]), l.values[0]), body.op));
      }
      ConstraintsExact(args[..n], vars[..n], inner);
    }
  }

  /** Every test in a plan is sent as many values as the host takes. */
  lemma {:induction false} PlanExactCalls(ps: seq<Premise>, bound: set<Var>, k: nat, h: Head, cfg: Config)
    requires PlanJoin(ps, bound, k, h, cfg).Ok?
    ensures ExactCalls(PlanJoin(ps, bound, k, h, cfg).value.op)
    decreases |ps|
  {
    if ps == [] {
      var l := LowerTerms(h.args, k).value;
      LetsExact(l.lets, Insert(h.rel, l.values));
    } else if IsTest(ps[0], bound) {
      var ts := TestTerms(ps[0], bound).value;
      var body := PlanJoin(ps[1..], bound, k, h, cfg).value;
      var l := LowerTerms(ts, body.next).value;
      PlanExactCalls(ps[1..], bound, k, h, cfg);
      LetsExact(l.lets, Filter(TestCond(ps[0], bound, l.values), body.op));
    } else if ps[0].Equal? {
      var b := EqBinding(ps[0].l, ps[0].r, bound).value;
      assert PlanJoin(ps, bound, k, h, cfg) == PlanLet(b, ps, bound, k, h, cfg);
      var l := if b.1.Apply? then LowerTerms(b.1.args, k).value else LowerTerm(b.1, k).value;
      PlanExactCalls(ps[1..], bound + {b.0}, l.next, h, cfg);
      LetsExact(l.lets, Let(b.0, BoundExpr(b.1, l.values), PlanJoin(ps[1..], bound + {b.0}, l.next, h, cfg).value.op));
    } else if ps[0].pred.MatchField? {
      assert PlanJoin(ps, bound, k, h, cfg) == PlanMatchField(ps[0].args, ps, bound, k, h, cfg);
      FieldExact(ps, bound, k, h, cfg);
    } else if ps[0].pred.ListMember? {
      assert PlanJoin(ps, bound, k, h, cfg) == PlanListMember(ps[0].args, ps, bound, k, h, cfg);
      MemberExact(ps, bound, k, h, cfg);
    } else {
      assert PlanJoin(ps, bound, k, h, cfg) == PlanAtom(ps[0].pred, ps[0].args, ps, bound, k, h, cfg);
      AtomExact(ps, bound, k, h, cfg);
    }
  }

  lemma {:induction false} FieldExact(ps: seq<Premise>, bound: set<Var>, k: nat, h: Head, cfg: Config)
    requires ps != [] && ps[0].Atom? && PlanMatchField(ps[0].args, ps, bound, k, h, cfg).Ok?
    ensures ExactCalls(PlanMatchField(ps[0].args, ps, bound, k, h, cfg).value.op)
    decreases |ps|, 0
  {
    var args := ps[0].args;
    if IsUnboundVar(args[2], bound) {
      var body := PlanJoin(ps[1..], bound + {args[2].v}, k, h, cfg).value;
      var l := LowerTerm(args[0], body.next).value;
      PlanExactCalls(ps[1..], bound + {args[2].v}, k, h, cfg);
      LetsExact(l.lets, BindField(l.values[0], args[1].c.name, args[2].v, body.op));
    } else {
      var body := PlanJoin(ps[1..], bound, k + 1, h, cfg).value;
      var l := LowerTerms([args[0], args[2]], body.next).value;
      var tmp := Fresh("mf", k);
      PlanExactCalls(ps[1..], bound, k + 1, h, cfg);
      LetsExact(l.lets, BindField(l.values[0], args[1].c.name, tmp, Filter(Cmp(Eq, OVar(tmp), l.values[1]), body.op)));
    }
  }

  lemma {:induction false} MemberExact(ps: seq<Premise>, bound: set<Var>, k: nat, h: Head, cfg: Config)
    requires ps != [] && ps[0].Atom? && PlanListMember(ps[0].args, ps, bound, k, h, cfg).Ok?
    ensures ExactCalls(PlanListMember(ps[0].args, ps, bound, k, h, cfg).value.op)
    decreases |ps|, 0
  {
    var args := ps[0].args;
    if IsUnboundVar(args[0], bound) {
      var body := PlanJoin(ps[1..], bound + {args[0].v}, k, h, cfg).value;
      var l := LowerTerm(args[1], body.next).value;
      PlanExactCalls(ps[1..], bound + {args[0].v}, k, h, cfg);
      LetsExact(l.lets, IterateList(l.values[0], args[0].v, body.op));
    } else {
      var body := PlanJoin(ps[1..], bound, k + 1, h, cfg).value;
      var l := LowerTerms([args[1], args[0]], body.next).value;
      var tmp := Fresh("listmem", k);
      PlanExactCalls(ps[1..], bound, k + 1, h, cfg);
      LetsExact(l.lets, IterateList(l.values[0], tmp, Filter(Cmp(Eq, OVar(tmp), l.values[1]), body.op)));
    }
  }

  lemma {:induction false} AtomExact(ps: seq<Premise>, bound: set<Var>, k: nat, h: Head, cfg: Config)
    requires ps != [] && ps[0].Atom? && PlanAtom(ps[0].pred, ps[0].args, ps, bound, k, h, cfg).Ok?
    ensures ExactCalls(PlanAtom(ps[0].pred, ps[0].args, ps, bound, k, h, cfg).value.op)
    decreases |ps|, 0
  {
    var args := ps[0].args;
    match ChosenJoin(args, ps, bound, cfg)
    case Some(j) => PlanExactCalls(ps[2..], bound + VarSet(j.build) + VarSet(j.probe), k, h, cfg);
    case None =>
      var scan := ScanVars(args, bound, k);
      PlanExactCalls(ps[1..], bound + DirectVars(args), scan.next, h, cfg);
      ConstraintsExact(args, scan.vars, PlanJoin(ps[1..], bound + DirectVars(args), scan.next, h, cfg).value);
  }

  /** A plan that the planner can produce. */
  ghost predicate IsPlan(op: Op) {
    exists ps, bound, k, h, cfg :: PlanJoin(ps, bound, k, h, cfg).Ok? && PlanJoin(ps, bound, k, h, cfg).value.op == op
  }

  /** Whatever the rules, the function generated from the planner's plans validates. */
  lemma {:induction false} GeneratedValid(segs: seq<Segment>)
    requires forall op :: op in AllOps(segs) ==> IsPlan(op)
    ensures TypeCode(Generated(segs), Declarations(CollectAll(AllOps(segs), NOTHING)), [], 1) == Some(Falls([]))
  {
    hide TypeCode, Generated, ScheduleFits, ScheduleExtra;
    forall op | op in AllOps(segs) ensures ExactCalls(op) {
      var ps, bound, k, h, cfg :| PlanJoin(ps, bound, k, h, cfg).Ok? && PlanJoin(ps, bound, k, h, cfg).value.op == op;
      PlanExactCalls(ps, bound, k, h, cfg);
    }
    ScheduleExactFits(segs);
    GeneratedValidIff(segs);
  }

  /** Locals start with the null reference or zero. */
  ghost predicate StartState(st: State, lt: seq<ValType>) {
    st.stack == [] &&
    forall k :: 0 <= k < |lt| ==> k in st.locals && st.locals[k] == if lt[k] == I32 then Int(0) else NullRef
  }

  /** So every run of it, on every host, ends, fails in the host, or goes on: it never meets a
      missing local, a short stack or a value of the wrong kind. */
  lemma {:induction false} GeneratedNeverStuck(segs: seq<Segment>, w: World, h: Tables, fuel: nat)
    requires (forall op :: op in AllOps(segs) ==> IsPlan(op)) &&
             StartState(w.st, Declarations(CollectAll(AllOps(segs), NOTHING)))
    ensures var o := Worlds.Exec(Generated(segs), w, h, fuel); o != IllTyped && (o.Ended? ==> o.w.st.stack == [])
  {
    var lt := Declarations(CollectAll(AllOps(segs), NOTHING));
    GeneratedValid(segs);
    hide TypeCode, Generated, Declarations;
    assert Typed(w.st, [], lt, []);
    NeverStuck(Generated(segs), w, [], lt, [], 1, h, fuel);
  }

  // ----- Loops and their iterators -----

  /** The locals that the code assigns. */
  function Writes(code: seq<Instr>): set<nat>
    decreases code
  {
    if code == [] then {} else WritesOne(code[0]) + Writes(code[1..])
  }

  function WritesOne(i: Instr): set<nat>
    decreases i
  {
    match i
    case LocalSet(k) => {k}
    case LocalTee(k) => {k}
    case Block(body) => Writes(body)
    case Loop(body) => Writes(body)
    case If(body) => Writes(body)
    case _ => {}
  }

  /** No loop over an iterator assigns that iterator, so no two nested loops share one. */
  predicate OwnIterators(code: seq<Instr>)
    decreases code
  {
    code != [] ==> OwnIterator(code[0]) && OwnIterators(code[1..])
  }

  predicate OwnIterator(i: Instr)
    decreases i
  {
    match i
    case Block(body) => OwnIterators(body)
    case If(body) => OwnIterators(body)
    case Loop(body) =>
      OwnIterators(body) && (|body| >= 2 && body[0].LocalGet? && body[1].ScanNext? ==> body[0].i !in Writes(body))
    case _ => true
  }

  lemma {:induction false} WritesConcat(a: seq<Instr>, b: seq<Instr>)
    ensures Writes(a + b) == Writes(a) + Writes(b) && (OwnIterators(a + b) <==> OwnIterators(a) && OwnIterators(b))
    decreases |a|
  {
    if a == [] {
      assert a + b == b;
    } else {
      assert (a + b)[0] == a[0] && (a + b)[1..] == a[1..] + b;
      WritesConcat(a[1..], b);
    }
  }

  lemma {:induction false} WritesSingle(i: Instr)
    ensures Writes([i]) == WritesOne(i) && (OwnIterators([i]) <==> OwnIterator(i)) &&
            (MergeFree([i]) <==> MergeFreeOne(i))
  {
    assert [i][1..] == [];
  }

  /** Straight code that assigns only variables and the two shared locals. */
  ghost predicate Modest(code: seq<Instr>, base: nat) {
    OwnIterators(code) && MergeFree(code) && forall k :: k in Writes(code) ==> k < base
  }

  /** Code that assigns besides only iterators from `lo` to `hi`. */
  ghost predicate Tidy(code: seq<Instr>, base: nat, lo: nat, hi: nat) {
    OwnIterators(code) && MergeFree(code) && forall k :: k in Writes(code) ==> k < base || base + lo <= k < base + hi
  }

  lemma {:induction false} TidyConcat(a: seq<Instr>, b: seq<Instr>, base: nat, lo: nat, mid: nat, hi: nat)
    requires Tidy(a, base, lo, mid) && Tidy(b, base, lo, hi) && lo <= mid <= hi
    ensures Tidy(a + b, base, lo, hi)
  {
    MergeFreeConcat(a, b);
    WritesConcat(a, b);
  }

  lemma {:induction false} ModestTidy(code: seq<Instr>, base: nat, lo: nat, hi: nat)
    requires Modest(code, base)
    ensures Tidy(code, base, lo, hi)
  {
  }

  lemma {:induction false} ModestConcat(a: seq<Instr>, b: seq<Instr>, base: nat)
    requires Modest(a, base) && Modest(b, base)
    ensures Modest(a + b, base)
  {
    MergeFreeConcat(a, b);
    WritesConcat(a, b);
  }

  lemma {:induction false} ModestOne(i: Instr, base: nat)
    requires !i.Block? && !i.Loop? && !i.If? && !i.MergeDeltas? && (i.LocalSet? || i.LocalTee? ==> i.i < base)
    ensures Modest([i], base)
  {
    WritesSingle(i);
  }

  /** Straight code is modest when each instruction is. */
  lemma {:induction false} ModestAll(code: seq<Instr>, base: nat)
    requires forall i ::
             i in code ==>
             !i.Block? && !i.Loop? && !i.If? && !i.MergeDeltas? && (i.LocalSet? || i.LocalTee? ==> i.i < base)
    ensures Modest(code, base)
    decreases |code|
  {
    if code != [] {
      assert code[0] in code;
      ModestAll(code[1..], base);
      ModestOne(code[0], base);
      ModestConcat([code[0]], code[1..], base);
      assert [code[0]] + code[1..] == code;
    }
  }

  ghost predicate Below(vm: VarMap, base: nat) {
    base >= FIRST_VAR && forall v :: v in vm ==> vm[v] < base
  }

  lemma {:induction false} OperandsModest(os: seq<Operand>, vm: VarMap, base: nat)
    requires Below(vm, base)
    ensures Modest(EmitOperands(os, vm), base)
    decreases |os|
  {
    hide Modest;
    if os == [] {
      ModestAll([], base);
    } else {
      ModestAll(EmitOperand(os[0], vm), base);
      OperandsModest(os[1..], vm, base);
      ModestConcat(EmitOperand(os[0], vm), EmitOperands(os[1..], vm), base);
    }
  }

  lemma {:induction false} PushesModest(os: seq<Operand>, b: Buffer, vm: VarMap, base: nat)
    requires Below(vm, base)
    ensures Modest(Pushes(os, vm, b), base)
    decreases |os|
  {
    hide Modest;
    if os == [] {
      ModestAll([], base);
    } else {
      ModestAll(EmitOperand(os[0], vm) + [Push(b)], base);
      PushesModest(os[1..], b, vm, base);
      ModestConcat(EmitOperand(os[0], vm) + [Push(b)], Pushes(os[1..], vm, b), base);
    }
  }

  lemma {:induction false} BindsModest(vars: seq<Var>, col: nat, vm: VarMap, base: nat)
    requires Below(vm, base)
    ensures Modest(Binds(vars, vm, col), base)
    decreases |vars|
  {
    hide Modest;
    if vars == [] {
      ModestAll([], base);
    } else {
      var first := if vars[0] in vm then [LocalGet(TUPLE), GetCol(col), LocalSet(vm[vars[0]])] else [];
      ModestAll(first, base);
      BindsModest(vars[1..], col + 1, vm, base);
      ModestConcat(first, Binds(vars[1..], vm, col + 1), base);
    }
  }

  lemma {:induction false} SendsModest(vars: seq<Var>, vm: VarMap, base: nat)
    requires Below(vm, base)
    ensures Modest(SendVars(vars, vm), base)
    decreases |vars|
  {
    hide Modest;
    if vars == [] {
      ModestAll([], base);
    } else {
      var first := if vars[0] in vm then [LocalGet(vm[vars[0]]), Push(JoinBuffer)] else [];
      ModestAll(first, base);
      SendsModest(vars[1..], vm, base);
      ModestConcat(first, SendVars(vars[1..], vm), base);
    }
  }

  lemma {:induction false} CondModest(c: Cond, vm: VarMap, base: nat)
    requires Below(vm, base)
    ensures Modest(EmitCond(c, vm), base)
    decreases c
  {
    hide Modest;
    match c
    case Cmp(op, l, r) =>
      OperandsModest([l, r], vm, base);
      ModestOne(CallCmp(op), base);
      ModestConcat(EmitOperands([l, r], vm), [CallCmp(op)], base);
    case Negation(rel, args) =>
      var b := NegationBuffer;
      ModestOne(Begin(b, rel), base);
      PushesModest(args, b, vm, base);
      ModestOne(NegationEnd, base);
      ModestConcat(Pushes(args, vm, b), [NegationEnd], base);
      ModestConcat([Begin(b, rel)], Pushes(args, vm, b) + [NegationEnd], base);
    case CallCheck(p, args) =>
      OperandsModest(args, vm, base);
      ModestOne(CallTest(p), base);
      ModestConcat(EmitOperands(args, vm), [CallTest(p)], base);
    case Not(inner) =>
      CondModest(inner, vm, base);
      ModestOne(I32Eqz, base);
      ModestConcat(EmitCond(inner, vm), [I32Eqz], base);
  }

  lemma {:induction false} ExprModest(e: Expr, vm: VarMap, base: nat)
    requires Below(vm, base)
    ensures Modest(EmitExpr(e, vm), base)
  {
    hide Modest;
    match e
    case ValueOf(o) => ModestAll(EmitOperand(o, vm), base);
    case Call(f, args) =>
      OperandsModest(args, vm, base);
      ModestOne(CallFn(f, |args|), base);
      ModestConcat(EmitOperands(args, vm), [CallFn(f, |args|)], base);
  }

  /** A loop over one of the iterators, whose body uses later ones only. */
  lemma {:induction false} LoopTidy(it: nat, vars: seq<Var>, body: seq<Instr>, vm: VarMap, base: nat, k: nat, lo: nat,
      hi: nat)
    requires Below(vm, base) && it == base + k && lo <= k < hi && Tidy(body, base, k + 1, hi)
    ensures Tidy(ScanLoop(it, vars, vm, body), base, lo, hi)
  {
    hide Writes, OwnIterators, LoopBody, MergeFree;
    var inner := LoopBody(it, vars, vm, body);
    LoopBodyTidy(it, vars, body, vm, base, k + 1, hi);
    LoopBodyStarts(it, vars, vm, body);
    WritesSingle(Loop(inner));
    WritesSingle(Block([Loop(inner)]));
  }

  lemma {:induction false} LoopBodyStarts(it: nat, vars: seq<Var>, vm: VarMap, body: seq<Instr>)
    ensures var inner := LoopBody(it, vars, vm, body); |inner| >= 2 && inner[0] == LocalGet(it) && inner[1] == ScanNext
  {
  }

  lemma {:induction false} LoopBodyTidy(it: nat, vars: seq<Var>, body: seq<Instr>, vm: VarMap, base: nat, lo: nat,
      hi: nat)
    requires Below(vm, base) && lo <= hi && Tidy(body, base, lo, hi)
    ensures Tidy(LoopBody(it, vars, vm, body), base, lo, hi)
  {
    var a, b := NextOrLeave(it), Binds(vars, vm, 0);
    ModestAll(a, base);
    hide Tidy, Modest;
    BindsModest(vars, 0, vm, base);
    ModestOne(Br(0), base);
    ModestTidy([Br(0)], base, lo, hi);
    ModestTidy(a, base, lo, hi);
    ModestTidy(b, base, lo, hi);
    TidyConcat(body, [Br(0)], base, lo, hi, hi);
    TidyConcat(b, body + [Br(0)], base, lo, hi, hi);
    TidyConcat(a, b + (body + [Br(0)]), base, lo, hi, hi);
  }

  lemma {:induction false} IfTidy(cond: seq<Instr>, body: seq<Instr>, base: nat, lo: nat, hi: nat)
    requires Modest(cond, base) && Tidy(body, base, lo, hi)
    ensures Tidy(cond + [If(body)], base, lo, hi)
  {
    MergeFreeConcat(cond, [If(body)]);
    WritesConcat(cond, [If(body)]);
    WritesSingle(If(body));
  }

  /** Opening an iterator and looping over it. */
  lemma {:induction false} ScanTidy(open: seq<Instr>, it: nat, vars: seq<Var>, body: seq<Instr>, vm: VarMap, base: nat,
      k: nat, lo: nat, hi: nat)
    requires Below(vm, base) && Modest(open, base) && it == base + k && lo <= k < hi && Tidy(body, base, k + 1, hi)
    ensures Tidy((open + [LocalSet(it)]) + ScanLoop(it, vars, vm, body), base, lo, hi)
  {
    LoopTidy(it, vars, body, vm, base, k, lo, hi);
    hide ScanLoop;
    WritesSingle(LocalSet(it));
    MergeFreeConcat(open, [LocalSet(it)]);
    WritesConcat(open, [LocalSet(it)]);
    TidyConcat(open + [LocalSet(it)], ScanLoop(it, vars, vm, body), base, lo, hi, hi);
  }

  /** In the code of every plan, no loop assigns its own iterator inside its body: nested loops
      use different iterators. */
  lemma {:induction false} OpTidy(op: Op, vm: VarMap, base: nat, iters: nat, joins: nat)
    requires Below(vm, base)
    ensures Tidy(EmitOp(op, vm, base, iters, joins).code, base, iters, EmitOp(op, vm, base, iters, joins).iters)
    decreases op, 1
  {
    hide Tidy, Modest, ScanLoop, EmitCond, EmitExpr, Pushes, OpenSource, SendVars, BuildOrder, Below, EmitOperand,
      SetVar;
    match op
    case Nop =>
      ModestAll([], base);
      ModestTidy([], base, iters, iters);
    case Insert(rel, args) => InsertTidy(rel, args, vm, base, iters);
    case Filter(c, body) =>
      OpTidy(body, vm, base, iters, joins);
      CondModest(c, vm, base);
      IfTidy(EmitCond(c, vm), EmitOp(body, vm, base, iters, joins).code, base, iters,
             EmitOp(body, vm, base, iters, joins).iters);
    case Let(v, ex, body) =>
      OpTidy(body, vm, base, iters, joins);
      ItersGrow(body, vm, base, iters, joins);
      LetTidy(v, ex, EmitOp(body, vm, base, iters, joins), vm, base, iters);
    case Iterate(src, body) =>
      OpTidy(body, vm, base, iters + 1, joins);
      ItersGrow(body, vm, base, iters + 1, joins);
      SourceModest(src, vm, base);
      ScanTidy(OpenSource(src, vm), base + iters, src.vars, EmitOp(body, vm, base, iters + 1, joins).code, vm, base,
               iters, iters,
               EmitOp(body, vm, base, iters + 1, joins).iters);
    case IterateList(o, v, body) =>
      OpTidy(body, vm, base, iters + 1, joins);
      ItersGrow(body, vm, base, iters + 1, joins);
      ListTidy(o, v, EmitOp(body, vm, base, iters + 1, joins), vm, base, iters);
    case BindField(o, field, v, body) =>
      OpTidy(body, vm, base, iters, joins);
      ItersGrow(body, vm, base, iters, joins);
      FieldTidy(o, field, v, EmitOp(body, vm, base, iters, joins), vm, base, iters);
    case HashJoin(_, _, _, _, _, body) =>
      OpTidy(body, vm, base, iters + 3, joins + 1);
      ItersGrow(body, vm, base, iters + 3, joins + 1);
      JoinTidy(op, vm, base, iters, joins);
  }

  lemma {:induction false} InsertTidy(rel: Pred, args: seq<Operand>, vm: VarMap, base: nat, iters: nat)
    requires Below(vm, base)
    ensures Tidy([Begin(InsertBuffer, rel)] + (Pushes(args, vm, InsertBuffer) + [InsertEnd]), base, iters, iters)
  {
    hide Modest, Tidy;
    var b := InsertBuffer;
    ModestOne(Begin(b, rel), base);
    PushesModest(args, b, vm, base);
    ModestOne(InsertEnd, base);
    ModestConcat(Pushes(args, vm, b), [InsertEnd], base);
    ModestConcat([Begin(b, rel)], Pushes(args, vm, b) + [InsertEnd], base);
    ModestTidy([Begin(b, rel)] + (Pushes(args, vm, b) + [InsertEnd]), base, iters, iters);
  }

  lemma {:induction false} SetVarModest(v: Var, vm: VarMap, base: nat)
    requires Below(vm, base)
    ensures Modest([SetVar(v, vm)], base)
  {
    ModestOne(SetVar(v, vm), base);
  }

  lemma {:induction false} LetTidy(v: Var, ex: Expr, e: Emitted, vm: VarMap, base: nat, iters: nat)
    requires Below(vm, base) && iters <= e.iters && Tidy(e.code, base, iters, e.iters)
    ensures Tidy((EmitExpr(ex, vm) + [SetVar(v, vm)]) + e.code, base, iters, e.iters)
  {
    hide Modest, Tidy;
    ExprModest(ex, vm, base);
    SetVarModest(v, vm, base);
    ModestConcat(EmitExpr(ex, vm), [SetVar(v, vm)], base);
    ModestTidy(EmitExpr(ex, vm) + [SetVar(v, vm)], base, iters, e.iters);
    TidyConcat(EmitExpr(ex, vm) + [SetVar(v, vm)], e.code, base, iters, e.iters, e.iters);
  }

  lemma {:induction false} SourceModest(src: Source, vm: VarMap, base: nat)
    requires Below(vm, base)
    ensures Modest(OpenSource(src, vm), base)
  {
    ModestAll(OpenSource(src, vm), base);
  }

  lemma {:induction false} ListTidy(o: Operand, v: Var, e: Emitted, vm: VarMap, base: nat, iters: nat)
    requires Below(vm, base) && iters + 1 <= e.iters && Tidy(e.code, base, iters + 1, e.iters)
    ensures Tidy((EmitOperand(o, vm) + [ListIterStart, LocalSet(base + iters)]) +
                 ScanLoop(base + iters, [v], vm, e.code), base, iters, e.iters)
  {
    var a := EmitOperand(o, vm) + [ListIterStart];
    ModestAll(a, base);
    hide Modest, Tidy, ScanLoop;
    ScanTidy(a, base + iters, [v], e.code, vm, base, iters, iters, e.iters);
    assert a + [LocalSet(base + iters)] == EmitOperand(o, vm) + [ListIterStart, LocalSet(base + iters)];
  }

  lemma {:induction false} FieldTidy(o: Operand, field: string, v: Var, e: Emitted, vm: VarMap, base: nat, iters: nat)
    requires Below(vm, base) && iters <= e.iters && Tidy(e.code, base, iters, e.iters)
    ensures var name := ConstRef(CName(field));
            Tidy((EmitOperand(o, vm) + [LocalTee(SCRATCH), name, FieldPresent]) +
                 [If([LocalGet(SCRATCH), name, CompoundGet, SetVar(v, vm)] + e.code)], base, iters, e.iters)
  {
    var name := ConstRef(CName(field));
    var a, take := EmitOperand(o, vm) + [LocalTee(SCRATCH), name, FieldPresent],
                   [LocalGet(SCRATCH), name, CompoundGet, SetVar(v, vm)];
    ModestAll(a, base);
    ModestAll(take, base);
    hide Modest, Tidy;
    ModestTidy(take, base, iters, e.iters);
    TidyConcat(take, e.code, base, iters, e.iters, e.iters);
    IfTidy(a, take + e.code, base, iters, e.iters);
  }

  lemma {:induction false} JoinTidy(op: Op, vm: VarMap, base: nat, iters: nat, joins: nat)
    requires op.HashJoin? && Below(vm, base)
    requires var e := EmitOp(op.body, vm, base, iters + 3, joins + 1);
                      iters + 3 <= e.iters && Tidy(e.code, base, iters + 3, e.iters)
    ensures Tidy(EmitOp(op, vm, base, iters, joins).code, base, iters, EmitOp(op, vm, base, iters, joins).iters)
  {
    hide Modest, Tidy, ScanLoop, SendVars, BuildOrder, Below;
    var it, order, e := base + iters, BuildOrder(op.buildVars, op.keys),
                        EmitOp(op.body, vm, base, iters + 3, joins + 1);
    var hi := e.iters;
    var commit := SendVars(order, vm) + [JoinCommit(joins, |op.keys|)];
    BuildTidy(op, vm, base, iters, joins, hi);
    MatchTidy(op, e, vm, base, iters, joins);
    var matches := (SendVars(op.keys, vm) + [JoinProbe(joins), LocalSet(it + 2)]) + ScanLoop(it + 2, order, vm, e.code);
    ModestOne(ScanStart(op.probeRel), base);
    ScanTidy([ScanStart(op.probeRel)], it + 1, op.probeVars, matches, vm, base, iters + 1, iters, hi);
    assert [ScanStart(op.probeRel)] + [LocalSet(it + 1)] == [ScanStart(op.probeRel), LocalSet(it + 1)];
    var probe := [ScanStart(op.probeRel), LocalSet(it + 1)] + ScanLoop(it + 1, op.probeVars, vm, matches);
    ModestOne(JoinEnd(joins), base);
    ModestTidy([JoinEnd(joins)], base, iters, hi);
    TidyConcat(probe, [JoinEnd(joins)], base, iters, hi, hi);
    var build := [JoinBegin(joins), ScanStart(op.buildRel), LocalSet(it)] + ScanLoop(it, op.buildVars, vm, commit);
    TidyConcat(build, probe + [JoinEnd(joins)], base, iters, hi, hi);
  }

  lemma {:induction false} BuildTidy(op: Op, vm: VarMap, base: nat, iters: nat, joins: nat, hi: nat)
    requires op.HashJoin? && Below(vm, base) && iters + 3 <= hi
    ensures Tidy([JoinBegin(joins), ScanStart(op.buildRel), LocalSet(base + iters)] +
                 ScanLoop(base + iters, op.buildVars, vm,
                          SendVars(BuildOrder(op.buildVars, op.keys), vm) + [JoinCommit(joins, |op.keys|)]), base,
                          iters, hi)
  {
    hide Modest, Tidy, ScanLoop, SendVars, BuildOrder, Below;
    var it, sends := base + iters, SendVars(BuildOrder(op.buildVars, op.keys), vm);
    var commit := sends + [JoinCommit(joins, |op.keys|)];
    SendsModest(BuildOrder(op.buildVars, op.keys), vm, base);
    ModestOne(JoinCommit(joins, |op.keys|), base);
    ModestConcat(sends, [JoinCommit(joins, |op.keys|)], base);
    ModestTidy(commit, base, iters + 1, hi);
    var open := [JoinBegin(joins), ScanStart(op.buildRel)];
    ModestAll(open, base);
    ScanTidy(open, it, op.buildVars, commit, vm, base, iters, iters, hi);
    assert open + [LocalSet(it)] == [JoinBegin(joins), ScanStart(op.buildRel), LocalSet(it)];
  }

  lemma {:induction false} MatchTidy(op: Op, e: Emitted, vm: VarMap, base: nat, iters: nat, joins: nat)
    requires op.HashJoin? && Below(vm, base) && iters + 3 <= e.iters && Tidy(e.code, base, iters + 3, e.iters)
    ensures Tidy((SendVars(op.keys, vm) + [JoinProbe(joins), LocalSet(base + iters + 2)]) +
                 ScanLoop(base + iters + 2, BuildOrder(op.buildVars, op.keys), vm, e.code), base, iters + 2, e.iters)
  {
    hide Modest, Tidy, ScanLoop, SendVars, BuildOrder, Below;
    var it, sends := base + iters + 2, SendVars(op.keys, vm);
    SendsModest(op.keys, vm, base);
    ModestOne(JoinProbe(joins), base);
    ModestConcat(sends, [JoinProbe(joins)], base);
    ScanTidy(sends + [JoinProbe(joins)], it, BuildOrder(op.buildVars, op.keys), e.code, vm, base, iters + 2, iters + 2,
             e.iters);
    assert sends + [JoinProbe(joins)] + [LocalSet(it)] == sends + [JoinProbe(joins), LocalSet(it)];
  }
}
