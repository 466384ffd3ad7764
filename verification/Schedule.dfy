/** What the generated function computes: its code runs the strata over merged and waiting facts,
    a recursive stratum to the end of the driver's rounds. */
module Schedule {
  import opened Datalog
  import opened Interp
  import opened RuleTheorem
  import opened SemiNaive
  import opened Evaluate
  import opened Program
  import opened Snapshots
  import opened Worlds
  import opened Emit
  import opened Generate
  import Scope
  import Wasm
  import CodeSteps
  import CodeLoops
  import CodeJoins
  import opened CodeCorrect
  import opened CodeTheorem

  // ----- Relations of one width -----

  lemma {:induction false} AtomsFit(r: Rule, s: set<Fact>, d: set<Fact>, width: Widths, m: Machine)
    requires Shows(m, s, d) && Wide(s + d, width) && WideRule(r, width)
    ensures forall p :: p in r.premises ==> FitsAtom(p, m)
  {
    forall p | p in r.premises && p.Atom? && p.pred.IsRelation()
      ensures CodeJoins.AllWide(m.full(p.pred), |p.args|) && CodeJoins.AllWide(m.delta(p.pred), |p.args|)
    {
      forall t | t in m.full(p.pred) ensures |t| == |p.args| { assert Fact(p.pred, t) in s + d; }
      forall t | t in m.delta(p.pred) ensures |t| == |p.args| { assert Fact(p.pred, t) in s + d; }
    }
  }

  lemma {:induction false} DerivedWide(r: Rule, f: Fact, m: Machine, width: Widths)
    requires Derives(r, f, m) && WideRule(r, width)
    ensures |f.tuple| == width(f.rel)
  {
    var sigma: Env :| Satisfies(sigma, r, f, m);
  }

  // ----- The code of a pass inserts the facts of the pass -----

  ghost predicate WideJobs(jobs: seq<Job>, width: Widths) {
    forall j :: j in jobs ==> WideRule(j.rule, width)
  }

  lemma {:induction false} JobsRunnable(jobs: seq<Job>, s: set<Fact>, d: set<Fact>, width: Widths, m: Machine)
    requires Sound(jobs) && PlanJobs(jobs).Ok? && m.Total() && Shows(m, s, d) && Wide(s + d, width) &&
             WideJobs(jobs, width)
    ensures forall op :: op in PlanJobs(jobs).value ==> Runnable(op, m)
    ensures PassFacts(PlanJobs(jobs).value, m) == Ok(AllFacts(PlanJobs(jobs).value, m))
    decreases |jobs|
  {
    hide Runnable, Wide, WideRule, Shows;
    if jobs == [] {
      assert PlanJobs(jobs).value == [];
    } else {
      var ops, rest, op := PlanJobs(jobs).value, PlanJobs(jobs[1..]).value, PlanOf(jobs[0].rule, jobs[0].cfg).value;
      assert jobs[0] in jobs && forall j :: j in jobs[1..] ==> j in jobs;
      JobsRunnable(jobs[1..], s, d, width, m);
      ShowsIndex(m, s, d);
      AtomsFit(jobs[0].rule, s, d, width, m);
      PlanRunnable(jobs[0].rule, jobs[0].cfg, m);
      assert ops[0] == op && ops[1..] == rest;
      forall x | x in ops ensures Runnable(x, m) {
        if x != op { assert x in rest; }
      }
      InterpreterRuns(op, m);
    }
  }

  lemma {:induction false} ShowsIndex(m: Machine, s: set<Fact>, d: set<Fact>)
    requires Shows(m, s, d)
    ensures m.IndexSound()
  {
  }

  lemma {:induction false} InterpreterRuns(op: Op, m: Machine)
    requires Runnable(op, m)
    ensures Run(op, map[], m).Ok? && Scope.Exec(op, map[], m).Ok? &&
            Scope.Exec(op, map[], m).value.facts == Run(op, map[], m).value
  {
    Scope.ExecRefines(op, {}, map[], map[], m);
  }

  // ----- Reaching a world -----

  ghost predicate ReachesAfter(code: seq<Wasm.Instr>, w: World, h: Tables, x: World, n: nat) {
    forall fuel: nat :: fuel >= n ==> Exec(code, w, h, fuel) == Ended(x)
  }

  /** With enough fuel the code ends in this world. */
  ghost predicate Reaches(code: seq<Wasm.Instr>, w: World, h: Tables, x: World) {
    exists n: nat :: ReachesAfter(code, w, h, x, n)
  }

  lemma {:induction false} ReachesConcat(a: seq<Wasm.Instr>, b: seq<Wasm.Instr>, w: World, h: Tables, x: World,
      y: World)
    requires Reaches(a, w, h, x) && Reaches(b, x, h, y)
    ensures Reaches(a + b, w, h, y)
  {
    var n: nat :| ReachesAfter(a, w, h, x, n);
    var k: nat :| ReachesAfter(b, x, h, y, k);
    forall fuel: nat | fuel >= n + k ensures Exec(a + b, w, h, fuel) == Ended(y) { ExecConcat(a, b, w, h, fuel); }
    assert ReachesAfter(a + b, w, h, y, n + k);
  }

  lemma {:induction false} ReachesNothing(w: World, h: Tables)
    ensures Reaches([], w, h, w)
  {
    assert ReachesAfter([], w, h, w, 0);
  }

  lemma {:induction false} ReachesPass(code: seq<Wasm.Instr>, w: World, h: Tables, s: Wasm.State)
    requires MergeFree(code) && Wasm.Ends(code, w.st, h(w.stable, w.delta), Wasm.Exit.Done(s))
    ensures Reaches(code, w, h, w.(st := s))
  {
    var n := Wasm.FuelFor(code, w.st, h(w.stable, w.delta), Wasm.Exit.Done(s));
    forall fuel: nat | fuel >= n ensures Exec(code, w, h, fuel) == Ended(w.(st := s)) { OneSnapshot(code, w, h, fuel); }
    assert ReachesAfter(code, w, h, w.(st := s), n);
  }

  lemma {:induction false} AllTidy(ops: seq<Op>, vm: VarMap, base: nat, iters: nat, joins: nat)
    requires Below(vm, base)
    ensures MergeFree(EmitAll(ops, vm, base, iters, joins).code)
    decreases |ops|
  {
    if ops != [] {
      var first := EmitOp(ops[0], vm, base, iters, joins);
      OpTidy(ops[0], vm, base, iters, joins);
      AllTidy(ops[1..], vm, base, first.iters, first.joins);
      MergeFreeConcat(first.code, EmitAll(ops[1..], vm, base, first.iters, first.joins).code);
    }
  }

  /** The locals and the host are ready for the code of every plan of the function. */
  ghost predicate Equipped(w: World, vm: VarMap, base: nat, total: nat) {
    Standing(w.st, map[], {}, vm, base, total)
  }

  lemma {:induction false} EquippedBelow(w: World, vm: VarMap, base: nat, total: nat)
    requires Equipped(w, vm, base, total)
    ensures Below(vm, base)
  {
  }

  /** A pass of generated code: the facts of the pass join those inserted before. */
  lemma {:induction false} PassReaches(jobs: seq<Job>, w: World, h: Tables, vm: VarMap, base: nat, iters: nat,
      joins: nat, total: nat, width: Widths) returns (x: World)
    requires Faithful(h) && h({}, {}).Total() && Sound(jobs) && PlanJobs(jobs).Ok? && WideJobs(jobs, width) &&
             Wide(w.Visible(), width)
    requires Equipped(w, vm, base, total) && AllBinders(PlanJobs(jobs).value) <= vm.Keys
    requires EmitAll(PlanJobs(jobs).value, vm, base, iters, joins).iters <= total
    ensures PassFacts(PlanJobs(jobs).value, h(w.stable, w.delta)).Ok?
    ensures Reaches(EmitAll(PlanJobs(jobs).value, vm, base, iters, joins).code, w, h, x)
    ensures x.stable == w.stable && x.delta == w.delta && x.st.stack == w.st.stack && Equipped(x, vm, base, total)
    ensures x.st.host.facts == w.st.host.facts + PassFacts(PlanJobs(jobs).value, h(w.stable, w.delta)).value
  {
    var ops, m := PlanJobs(jobs).value, h(w.stable, w.delta);
    assert Shows(m, w.stable, w.delta) && SameFunctions(m, h({}, {}));
    hide PassFacts, PlanJobs, EmitAll, Runnable, Standing, Faithful, Shows;
    JobsRunnable(jobs, w.stable, w.delta, width, m);
    var s := AllRun(ops, vm, base, iters, joins, total, w.st, m);
    EquippedBelow(w, vm, base, total);
    AllTidy(ops, vm, base, iters, joins);
    x := w.(st := s);
    ReachesPass(EmitAll(ops, vm, base, iters, joins).code, w, h, s);
  }

  // ----- Merging and the loop of a recursive stratum -----

  /** The merged tiers, with the stack as it was. */
  function Settled(w: World): World {
    World(w.st.(host := w.st.host.(facts := {})), w.Visible(), w.News())
  }

  lemma {:induction false} SettledEquipped(w: World, vm: VarMap, base: nat, total: nat)
    requires Equipped(w, vm, base, total)
    ensures Equipped(Settled(w), vm, base, total)
  {
  }

  lemma {:induction false} MergeDrops(w: World, h: Tables)
    ensures Reaches([Wasm.MergeDeltas, Wasm.Drop], w, h, Settled(w))
  {
    var code := [Wasm.MergeDeltas, Wasm.Drop];
    forall fuel: nat ensures Exec(code, w, h, fuel) == Ended(Settled(w)) {
      var x := w.Merged();
      assert code[1..] == [Wasm.Drop] && [Wasm.Drop][1..] == [];
      assert x.st.stack[..|w.st.stack|] == w.st.stack;
      assert x.(st := x.st.Popped(1)) == Settled(w);
      assert ExecOne(Wasm.Drop, x, h, fuel) == Ended(Settled(w));
      assert Exec([Wasm.Drop], x, h, fuel) == Ended(Settled(w));
    }
    assert ReachesAfter(code, w, h, Settled(w), 0);
  }

  lemma {:induction false} BranchesOn(b: bool, w: World, h: Tables, fuel: nat)
    ensures Exec([Wasm.BrIf(0)], w.(st := w.st.Pushed(Wasm.Truth(b))), h, fuel) == if b then Leaving(0, w) else Ended(w)
  {
    var x := w.(st := w.st.Pushed(Wasm.Truth(b)));
    assert x.st.stack[..|w.st.stack|] == w.st.stack;
    assert x.(st := x.st.Popped(1)) == w && [Wasm.BrIf(0)][1..] == [];
    var o := if b then Leaving(0, w) else Ended(w);
    assert ExecOne(Wasm.BrIf(0), x, h, fuel) == o;
  }

  /** The end of a round: a merge, and back to the start if it brought anything. */
  lemma {:induction false} MergeBranches(w: World, h: Tables, fuel: nat)
    ensures Exec([Wasm.MergeDeltas, Wasm.BrIf(0)], w, h, fuel) == if w.News() != {} then Leaving(0, Settled(w)) else
            Ended(Settled(w))
  {
    var code := [Wasm.MergeDeltas, Wasm.BrIf(0)];
    assert code[1..] == [Wasm.BrIf(0)];
    BranchesOn(w.News() != {}, Settled(w), h, fuel);
    assert ExecOne(Wasm.MergeDeltas, w, h, fuel) == Ended(w.Merged());
  }

  /** One turn of the loop: the rounds of the driver, in code. */
  lemma {:induction false} TurnRuns(code: seq<Wasm.Instr>, w: World, h: Tables, x: World, fuel: nat, n: nat)
    requires ReachesAfter(code, w, h, x, n) && fuel >= n && x.st.stack == w.st.stack
    ensures var body := code + [Wasm.MergeDeltas, Wasm.BrIf(0)];
            ExecOne(Wasm.Loop(body), w, h, fuel) ==
            if x.News() == {} then Ended(Settled(x))
            else if fuel == 0 then OutOfFuel
            else ExecOne(Wasm.Loop(body), Settled(x), h, fuel - 1)
  {
    hide Exec;
    ExecConcat(code, [Wasm.MergeDeltas, Wasm.BrIf(0)], w, h, fuel);
    MergeBranches(x, h, fuel);
    assert Restack(Settled(x), w.st.stack) == Settled(x);
  }

  ghost predicate LoopReaches(body: seq<Wasm.Instr>, w: World, h: Tables, y: World, n: nat) {
    forall fuel: nat :: fuel >= n ==> ExecOne(Wasm.Loop(body), w, h, fuel) == Ended(y)
  }

  /** What the delta plans and their code need. */
  ghost predicate DeltaReady(jobs: seq<Job>, h: Tables, vm: VarMap, base: nat, iters: nat, joins: nat, total: nat,
      width: Widths) {
    && Faithful(h) && h({}, {}).Total() && Sound(jobs) && PlanJobs(jobs).Ok? && WideJobs(jobs, width)
    && AllBinders(PlanJobs(jobs).value) <= vm.Keys &&
       EmitAll(PlanJobs(jobs).value, vm, base, iters, joins).iters <= total
  }

  lemma {:induction false} PassWide(jobs: seq<Job>, s: set<Fact>, d: set<Fact>, h: Tables, width: Widths)
    requires Faithful(h) && Sound(jobs) && PlanJobs(jobs).Ok? && WideJobs(jobs, width) &&
             PassFacts(PlanJobs(jobs).value, h(s, d)).Ok?
    ensures Wide(PassFacts(PlanJobs(jobs).value, h(s, d)).value, width)
  {
    var m := h(s, d);
    assert Shows(m, s, d);
    PassExact(jobs, m);
    hide PassFacts, PlanJobs, JobDerives;
    forall f | f in PassFacts(PlanJobs(jobs).value, m).value ensures |f.tuple| == width(f.rel) {
      var j :| j in jobs && JobDerives(j, f, m);
      JobSound(j, f, s, d, h);
      DerivedWide(j.rule, f, h(s + d, {}), width);
    }
  }

  /** The loop ends where the driver's rounds end. */
  lemma {:induction false} RoundsReach(jobs: seq<Job>, w: World, h: Tables, vm: VarMap, base: nat, iters: nat,
      joins: nat, total: nat, width: Widths, rounds: nat) returns (y: World, n: nat)
    requires DeltaReady(jobs, h, vm, base, iters, joins, total, width) && Equipped(w, vm, base, total)
    requires w.st.host.facts == {} && Wide(w.Visible(), width)
    requires RoundsOf(PlanJobs(jobs).value, Store(w.stable, w.delta, {}), h, rounds).Done?
    ensures LoopReaches(EmitAll(PlanJobs(jobs).value, vm, base, iters, joins).code + [Wasm.MergeDeltas, Wasm.BrIf(0)],
                        w, h, y, n)
    ensures Store(y.stable, y.delta, {}) ==
            RoundsOf(PlanJobs(jobs).value, Store(w.stable, w.delta, {}), h, rounds).store
    ensures y.st.host.facts == {} && y.st.stack == w.st.stack && Equipped(y, vm, base, total) && y.delta == {} &&
            Wide(y.Visible(), width)
    decreases rounds
  {
    hide PassFacts, PlanJobs, EmitAll, Equipped, Faithful, Wide, WideJobs;
    var ops, st := PlanJobs(jobs).value, Store(w.stable, w.delta, {});
    var code := EmitAll(ops, vm, base, iters, joins).code;
    var x := PassReaches(jobs, w, h, vm, base, iters, joins, total, width);
    var out := PassFacts(ops, h(w.stable, w.delta)).value;
    var k: nat :| ReachesAfter(code, w, h, x, k);
    StoreAfter(w, x, out);
    SettledEquipped(x, vm, base, total);
    if out <= st.Visible() {
      y, n := Settled(x), k;
      WideMore(w.Visible(), w.Visible(), y.Visible(), width);
      forall fuel: nat | fuel >= n
        ensures ExecOne(Wasm.Loop(code + [Wasm.MergeDeltas, Wasm.BrIf(0)]), w, h, fuel) == Ended(y)
      {
        TurnRuns(code, w, h, x, fuel, k);
      }
    } else {
      PassWide(jobs, w.stable, w.delta, h, width);
      WideMore(w.Visible(), out, Settled(x).Visible(), width);
      var n2;
      y, n2 := RoundsReach(jobs, Settled(x), h, vm, base, iters, joins, total, width, rounds - 1);
      n := k + n2 + 1;
      forall fuel: nat | fuel >= n
        ensures ExecOne(Wasm.Loop(code + [Wasm.MergeDeltas, Wasm.BrIf(0)]), w, h, fuel) == Ended(y)
      {
        TurnRuns(code, w, h, x, fuel, k);
      }
    }
  }

  lemma {:induction false} WideMore(a: set<Fact>, b: set<Fact>, c: set<Fact>, width: Widths)
    requires Wide(a, width) && Wide(b, width) && c <= a + b
    ensures Wide(c, width)
  {
  }

  /** The tiers after a round, in the world and in the driver. */
  lemma {:induction false} StoreAfter(w: World, x: World, out: set<Fact>)
    requires w.st.host.facts == {} && x.stable == w.stable && x.delta == w.delta && x.st.host.facts == {} + out
    ensures var st, y := Store(w.stable, w.delta, {}), Settled(x);
            && Store(y.stable, y.delta, {}) == Advance(st, out) && y.Visible() <= w.Visible() + out
            && (out <= st.Visible() <==> x.News() == {}) && (out <= st.Visible() ==> y.delta == {})
  {
    assert x.News() == out - w.Visible();
    NoneLeft(out, w.Visible());
    assert {} + (out - w.Visible()) == out - w.Visible();
  }

  lemma {:induction false} LoopCode(body: seq<Wasm.Instr>, w: World, h: Tables, y: World, n: nat)
    requires LoopReaches(body, w, h, y, n)
    ensures Reaches([Wasm.Loop(body)], w, h, y)
  {
    forall fuel: nat | fuel >= n ensures Exec([Wasm.Loop(body)], w, h, fuel) == Ended(y) {
      assert [Wasm.Loop(body)][1..] == [];
    }
    assert ReachesAfter([Wasm.Loop(body)], w, h, y, n);
  }

  /** The merge before the loop, and the loop. */
  lemma {:induction false} RoundLoopReaches(jobs: seq<Job>, w: World, h: Tables, vm: VarMap, base: nat, iters: nat,
      joins: nat, total: nat, width: Widths, rounds: nat) returns (y: World)
    requires DeltaReady(jobs, h, vm, base, iters, joins, total, width) && Equipped(w, vm, base, total) &&
             Wide(w.Visible() + w.News(), width)
    requires RoundsOf(PlanJobs(jobs).value, Store(w.Visible(), w.News(), {}), h, rounds).Done?
    ensures Reaches(RoundLoop(EmitAll(PlanJobs(jobs).value, vm, base, iters, joins).code), w, h, y)
    ensures Store(y.stable, y.delta, {}) ==
            RoundsOf(PlanJobs(jobs).value, Store(w.Visible(), w.News(), {}), h, rounds).store
    ensures y.st.host.facts == {} && y.st.stack == w.st.stack && Equipped(y, vm, base, total) && y.delta == {} &&
            Wide(y.Visible(), width)
  {
    hide PassFacts, PlanJobs, EmitAll, Equipped, Faithful, Wide, WideJobs, RoundsOf, Exec;
    var code := EmitAll(PlanJobs(jobs).value, vm, base, iters, joins).code;
    var body, x := code + [Wasm.MergeDeltas, Wasm.BrIf(0)], Settled(w);
    MergeDrops(w, h);
    SettledEquipped(w, vm, base, total);
    var n;
    y, n := RoundsReach(jobs, x, h, vm, base, iters, joins, total, width, rounds);
    LoopCode(body, x, h, y, n);
    ReachesConcat([Wasm.MergeDeltas, Wasm.Drop], [Wasm.Loop(body)], w, h, x, y);
    assert [Wasm.MergeDeltas, Wasm.Drop] + [Wasm.Loop(body)] == RoundLoop(code);
  }

  // ----- Strata as segments -----

  /** A plan that fails is left out of the code. */
  function PlansOf(jobs: seq<Job>): seq<Op> {
    if PlanJobs(jobs).Ok? then PlanJobs(jobs).value else []
  }

  function SegmentOf(s: Stratum, hashJoin: bool): Segment {
    var full := PlansOf(FullJobs(s.rules, hashJoin));
    if Recursive(s) then Fixpoint(full, PlansOf(DeltaJobs(s.rules, s.preds, hashJoin))) else Once(full)
  }

  function SegmentsOf(strata: seq<Stratum>, hashJoin: bool): seq<Segment> {
    if strata == [] then [] else [SegmentOf(strata[0], hashJoin)] + SegmentsOf(strata[1..], hashJoin)
  }

  /** The stratum has passed the analysis and can be planned, for relations of these widths. */
  ghost predicate Compiled(s: Stratum, hashJoin: bool, width: Widths) {
    SemiNaive.Prepared(s.rules, s.preds, hashJoin) && AllPlannable(s) && forall r :: r in s.rules ==> WideRule(r, width)
  }

  lemma {:induction false} CompiledJobs(s: Stratum, hashJoin: bool, width: Widths)
    requires Compiled(s, hashJoin, width)
    ensures PlanJobs(FullJobs(s.rules, hashJoin)).Ok? && PlanJobs(DeltaJobs(s.rules, s.preds, hashJoin)).Ok?
    ensures Sound(FullJobs(s.rules, hashJoin)) && WideJobs(FullJobs(s.rules, hashJoin), width)
    ensures Sound(DeltaJobs(s.rules, s.preds, hashJoin)) && WideJobs(DeltaJobs(s.rules, s.preds, hashJoin), width)
  {
    StratumPlanned(s, hashJoin);
    hide PlanJobs, FullJobs, DeltaJobs, Safe, RelationJoins, WideRule, AllPlannable;
    forall j | j in FullJobs(s.rules, hashJoin)
      ensures Safe(j.rule) && RelationJoins(j.rule, j.cfg) && WideRule(j.rule, width)
    {
      FullJobsAre(s.rules, hashJoin, j);
    }
    forall j | j in DeltaJobs(s.rules, s.preds, hashJoin)
      ensures Safe(j.rule) && RelationJoins(j.rule, j.cfg) && WideRule(j.rule, width)
    {
      DeltaJobSafe(s, hashJoin, j);
    }
  }

  // ----- The code of one stratum -----

  /** The world's facts, as scans see them. */
  ghost predicate Keeps(w: World, t: Tiers) {
    w.Visible() == t.seen && w.News() == t.waiting
  }

  lemma {:induction false} BindersConcat(a: seq<Op>, b: seq<Op>)
    ensures AllBinders(a + b) == AllBinders(a) + AllBinders(b)
    decreases |a|
  {
    if a == [] {
      assert a + b == b;
    } else {
      assert (a + b)[0] == a[0] && (a + b)[1..] == a[1..] + b;
      BindersConcat(a[1..], b);
    }
  }

  /** What the code of one stratum needs. */
  ghost predicate Runs(s: Stratum, hashJoin: bool, w: World, t: Tiers, h: Tables, vm: VarMap, base: nat, iters: nat,
      joins: nat, total: nat, width: Widths) {
    && Faithful(h) && h({}, {}).Total() && Compiled(s, hashJoin, width) && Wide(t.All(), width) && Keeps(w, t)
    && Equipped(w, vm, base, total) && AllBinders(SegmentOps(SegmentOf(s, hashJoin))) <= vm.Keys
    && EmitSegment(SegmentOf(s, hashJoin), vm, base, iters, joins).iters <= total
  }

  /** The full pass: a fact that is derived and not seen waits. */
  lemma {:induction false} FullReaches(s: Stratum, hashJoin: bool, w: World, t: Tiers, h: Tables, vm: VarMap,
      base: nat, iters: nat, joins: nat, total: nat, width: Widths) returns (x: World, out: set<Fact>)
    requires Faithful(h) && h({}, {}).Total() && Compiled(s, hashJoin, width) && Wide(t.All(), width) && Keeps(w, t)
    requires Equipped(w, vm, base, total) && AllBinders(PlansOf(FullJobs(s.rules, hashJoin))) <= vm.Keys
    requires EmitAll(PlansOf(FullJobs(s.rules, hashJoin)), vm, base, iters, joins).iters <= total
    ensures Reaches(EmitAll(PlansOf(FullJobs(s.rules, hashJoin)), vm, base, iters, joins).code, w, h, x)
    ensures PlanJobs(FullJobs(s.rules, hashJoin)).Ok? &&
            PassFacts(PlansOf(FullJobs(s.rules, hashJoin)), h(t.seen, {})) == Ok(out)
    ensures Keeps(x, Tiers(t.seen, t.waiting + (out - t.seen)))
    ensures Equipped(x, vm, base, total) && Wide(t.All() + out, width)
  {
    CompiledJobs(s, hashJoin, width);
    hide PassFacts, PlanJobs, FullJobs, DeltaJobs, EmitAll, Faithful, Equipped, WideJobs, Reaches, Wide;
    var jobs := FullJobs(s.rules, hashJoin);
    WideMore(t.All(), t.All(), w.Visible(), width);
    x := PassReaches(jobs, w, h, vm, base, iters, joins, total, width);
    PassWide(jobs, w.stable, w.delta, h, width);
    SameSeen(s, hashJoin, w, h);
    out := PassFacts(PlanJobs(jobs).value, h(w.stable, w.delta)).value;
    WideMore(t.All(), out, t.All() + out, width);
    assert x.News() == w.News() + (out - w.Visible());
  }

  lemma {:induction false} SameSeen(s: Stratum, hashJoin: bool, w: World, h: Tables)
    requires Faithful(h) && h({}, {}).Total() && SemiNaive.Prepared(s.rules, s.preds, hashJoin) &&
             PlanJobs(FullJobs(s.rules, hashJoin)).Ok?
    ensures var ops := PlanJobs(FullJobs(s.rules, hashJoin)).value;
                       PassFacts(ops, h(w.stable, w.delta)) == PassFacts(ops, h(w.Visible(), {}))
  {
    hide PassFacts, PlanJobs, FullJobs, Faithful, Follows;
    PassSees(s, hashJoin, w.stable, w.delta, h);
    PassSees(s, hashJoin, w.Visible(), {}, h);
    assert w.Visible() + {} == w.Visible();
    var ops := PlanJobs(FullJobs(s.rules, hashJoin)).value;
    assert PassFacts(ops, h(w.stable, w.delta)).value == PassFacts(ops, h(w.Visible(), {})).value;
  }

  lemma {:induction false} OnceReaches(s: Stratum, hashJoin: bool, w: World, t: Tiers, h: Tables, vm: VarMap,
      base: nat, iters: nat, joins: nat, total: nat, width: Widths, rounds: nat) returns (x: World)
    requires Runs(s, hashJoin, w, t, h, vm, base, iters, joins, total, width) && !Recursive(s)
    ensures Reaches(EmitSegment(SegmentOf(s, hashJoin), vm, base, iters, joins).code, w, h, x)
    ensures Turn(s, hashJoin, t, h, rounds).Some? && Keeps(x, Turn(s, hashJoin, t, h, rounds).value)
    ensures Equipped(x, vm, base, total) && Wide(Turn(s, hashJoin, t, h, rounds).value.All(), width)
  {
    hide PassFacts, PlanJobs, FullJobs, DeltaJobs, EmitAll, Faithful, Equipped, Reaches, Wide, Keeps, Compiled,
      AllBinders;
    var out;
    x, out := FullReaches(s, hashJoin, w, t, h, vm, base, iters, joins, total, width);
    var next := Tiers(t.seen, t.waiting + (out - t.seen));
    assert next.All() == t.All() + out;
    assert Turn(s, hashJoin, t, h, rounds) == Some(next);
  }

  lemma {:induction false} FixpointReaches(s: Stratum, hashJoin: bool, w: World, t: Tiers, h: Tables, vm: VarMap,
      base: nat, iters: nat, joins: nat, total: nat, width: Widths, rounds: nat) returns (y: World)
    requires Runs(s, hashJoin, w, t, h, vm, base, iters, joins, total, width) && Recursive(s) &&
             Turn(s, hashJoin, t, h, rounds).Some?
    ensures Reaches(EmitSegment(SegmentOf(s, hashJoin), vm, base, iters, joins).code, w, h, y)
    ensures Keeps(y, Turn(s, hashJoin, t, h, rounds).value)
    ensures Equipped(y, vm, base, total) && Wide(Turn(s, hashJoin, t, h, rounds).value.All(), width)
  {
    CompiledJobs(s, hashJoin, width);
    hide PassFacts, PlanJobs, FullJobs, DeltaJobs, EmitAll, Faithful, Equipped, Reaches, Wide, Compiled, AllBinders,
      RoundsOf, RoundLoop, WideJobs;
    var full, deltas := FullJobs(s.rules, hashJoin), DeltaJobs(s.rules, s.preds, hashJoin);
    var first := EmitAll(PlansOf(full), vm, base, iters, joins);
    BindersConcat(PlansOf(full), PlansOf(deltas));
    AllItersGrow(PlansOf(deltas), vm, base, first.iters, first.joins);
    var x, out := FullReaches(s, hashJoin, w, t, h, vm, base, iters, joins, total, width);
    WideMore(t.All() + out, t.All() + out, x.Visible() + x.News(), width);
    y := RoundLoopReaches(deltas, x, h, vm, base, first.iters, first.joins, total, width, rounds);
    ReachesConcat(first.code, RoundLoop(EmitAll(PlansOf(deltas), vm, base, first.iters, first.joins).code), w, h, x, y);
    var e := RoundsOf(PlanJobs(deltas).value, Store(x.Visible(), x.News(), {}), h, rounds);
    assert e.store.Visible() == y.Visible() && y.News() == {};
    assert Turn(s, hashJoin, t, h, rounds) == Some(Tiers(e.store.Visible(), {}));
    assert Tiers(y.Visible(), {}).All() == y.Visible();
  }

  lemma {:induction false} StratumReaches(s: Stratum, hashJoin: bool, w: World, t: Tiers, h: Tables, vm: VarMap,
      base: nat, iters: nat, joins: nat, total: nat, width: Widths, rounds: nat) returns (x: World)
    requires Runs(s, hashJoin, w, t, h, vm, base, iters, joins, total, width) && Turn(s, hashJoin, t, h, rounds).Some?
    ensures Reaches(EmitSegment(SegmentOf(s, hashJoin), vm, base, iters, joins).code, w, h, x)
    ensures Keeps(x, Turn(s, hashJoin, t, h, rounds).value)
    ensures Equipped(x, vm, base, total) && Wide(Turn(s, hashJoin, t, h, rounds).value.All(), width)
  {
    hide Runs, Wide, Equipped, Keeps, Turn, Reaches, SegmentOf, EmitSegment;
    if Recursive(s) {
      x := FixpointReaches(s, hashJoin, w, t, h, vm, base, iters, joins, total, width, rounds);
    } else {
      x := OnceReaches(s, hashJoin, w, t, h, vm, base, iters, joins, total, width, rounds);
    }
  }

  // ----- The whole function -----

  lemma {:induction false} RunFrom(strata: seq<Stratum>, hashJoin: bool, w: World, t: Tiers, h: Tables, vm: VarMap,
      base: nat, iters: nat, joins: nat, total: nat, width: Widths, rounds: nat) returns (x: World)
    requires Faithful(h) && h({}, {}).Total() && (forall s :: s in strata ==> Compiled(s, hashJoin, width)) &&
             Wide(t.All(), width) && Keeps(w, t)
    requires Equipped(w, vm, base, total) && AllBinders(AllOps(SegmentsOf(strata, hashJoin))) <= vm.Keys
    requires EmitSchedule(SegmentsOf(strata, hashJoin), vm, base, iters, joins).iters <= total
    requires SnapshotOf(strata, hashJoin, t, h, rounds).Some?
    ensures Reaches(EmitSchedule(SegmentsOf(strata, hashJoin), vm, base, iters, joins).code, w, h, x)
    ensures Keeps(x, SnapshotOf(strata, hashJoin, t, h, rounds).value)
    decreases |strata|
  {
    hide Faithful, Compiled, Wide, Equipped, Turn, Reaches, SegmentOf, EmitSegment, SegmentOps, AllBinders, Keeps;
    if strata == [] {
      x := w;
      ReachesNothing(w, h);
    } else {
      var s, segs := strata[0], SegmentsOf(strata, hashJoin);
      var seg := SegmentOf(s, hashJoin);
      assert segs[0] == seg && segs[1..] == SegmentsOf(strata[1..], hashJoin) && s in strata;
      var first := EmitSegment(seg, vm, base, iters, joins);
      ScheduleCounted(segs[1..], NOTHING, vm, base, first.iters, first.joins);
      BindersConcat(SegmentOps(seg), AllOps(segs[1..]));
      var y := StratumReaches(s, hashJoin, w, t, h, vm, base, iters, joins, total, width, rounds);
      var next := Turn(s, hashJoin, t, h, rounds).value;
      x := RunFrom(strata[1..], hashJoin, y, next, h, vm, base, first.iters, first.joins, total, width, rounds);
      ReachesConcat(first.code, EmitSchedule(segs[1..], vm, base, first.iters, first.joins).code, w, h, y, x);
    }
  }

  /** A fresh instance: the facts given are merged, and the locals are those of the function. */
  ghost predicate Fresh(w: World, strata: seq<Stratum>, hashJoin: bool, facts: set<Fact>) {
    && w.stable == facts && w.delta == {} && w.st.host.facts == {} && CodeSteps.HostOk(w.st.host)
    && var c := CollectAll(AllOps(SegmentsOf(strata, hashJoin)), NOTHING); CodeLoops.Declared(w.st, c.next + c.iters)
  }

  lemma {:induction false} FreshEquipped(w: World, strata: seq<Stratum>, hashJoin: bool, facts: set<Fact>)
    requires Fresh(w, strata, hashJoin, facts)
    ensures var segs := SegmentsOf(strata, hashJoin); var c := CollectAll(AllOps(segs), NOTHING);
            && Equipped(w, c.vm, c.next, c.iters) && AllBinders(AllOps(segs)) <= c.vm.Keys
            && EmitSchedule(segs, c.vm, c.next, 0, 0).iters <= c.iters
  {
    hide EmitSchedule, SegmentsOf;
    var segs := SegmentsOf(strata, hashJoin);
    var c := CollectAll(AllOps(segs), NOTHING);
    CollectAllGrows(AllOps(segs), NOTHING);
    ScheduleCounted(segs, NOTHING, c.vm, c.next, 0, 0);
  }

  /** The generated function ends, and with the facts of the strata run over merged and waiting
      facts. */
  lemma {:induction false} GeneratedComputes(strata: seq<Stratum>, hashJoin: bool, w: World, facts: set<Fact>,
      h: Tables, width: Widths, rounds: nat) returns (x: World)
    requires Faithful(h) && h({}, {}).Total() && (forall s :: s in strata ==> Compiled(s, hashJoin, width)) &&
             Wide(facts, width)
    requires Fresh(w, strata, hashJoin, facts) && SnapshotOf(strata, hashJoin, Tiers(facts, {}), h, rounds).Some?
    ensures Reaches(Generated(SegmentsOf(strata, hashJoin)), w, h, x)
    ensures Keeps(x, SnapshotOf(strata, hashJoin, Tiers(facts, {}), h, rounds).value)
  {
    hide Faithful, Compiled, Wide, SnapshotOf, Reaches, SegmentsOf, AllOps, CollectAll, EmitSchedule, Equipped,
      AllBinders;
    FreshEquipped(w, strata, hashJoin, facts);
    var c := CollectAll(AllOps(SegmentsOf(strata, hashJoin)), NOTHING);
    assert Tiers(facts, {}).All() == facts && Keeps(w, Tiers(facts, {}));
    x := RunFrom(strata, hashJoin, w, Tiers(facts, {}), h, c.vm, c.next, 0, 0, c.iters, width, rounds);
  }

  /** It ends with the perfect model when no stratum reads what waits and the delta plans are
      complete. */
  lemma {:induction false} GeneratedPerfect(strata: seq<Stratum>, hashJoin: bool, w: World, facts: set<Fact>,
      h: Tables, width: Widths, rounds: nat) returns (x: World)
    requires Faithful(h) && h({}, {}).Total() &&
             (forall s :: s in strata ==> Compiled(s, hashJoin, width) && Evaluable(s, hashJoin))
    requires Wide(facts, width) && Fresh(w, strata, hashJoin, facts)
    requires Insulated(strata, {}) && ProgramOf(strata, hashJoin, facts, h, rounds).Some?
    ensures Reaches(Generated(SegmentsOf(strata, hashJoin)), w, h, x)
    ensures PerfectModel(strata, facts, x.Visible() + x.News(), h)
  {
    var t := Tiers(facts, {});
    assert t.All() == facts && Waits(t, {});
    forall s | s in strata
      ensures SemiNaive.Prepared(s.rules, s.preds, hashJoin) { assert Compiled(s, hashJoin, width); }
    hide Faithful, Compiled, Wide, ProgramOf, SnapshotOf, Insulated, Reaches, Evaluable, Fresh, Waits,
      SemiNaive.Prepared, PerfectModel, SegmentsOf;
    InsulatedComputes(strata, hashJoin, t, {}, h, rounds);
    x := GeneratedComputes(strata, hashJoin, w, facts, h, width, rounds);
    PerfectStart(facts, h);
    ProgramPerfect([], strata, hashJoin, facts, facts, h, rounds);
    assert [] + strata == strata;
  }

  /** The code of one recursive stratum, started with everything merged, reaches the least set
      closed under its rules. */
  lemma {:induction false} FixpointLeast(s: Stratum, hashJoin: bool, w: World, facts: set<Fact>, h: Tables, vm: VarMap,
      base: nat, iters: nat, joins: nat, total: nat, width: Widths, rounds: nat) returns (y: World)
    requires Runs(s, hashJoin, w, Tiers(facts, {}), h, vm, base, iters, joins, total, width) && Recursive(s) &&
             Evaluable(s, hashJoin)
    requires StratumOf(s, hashJoin, Store(facts, {}, {}), h, rounds).Done?
    ensures Reaches(EmitSegment(SegmentOf(s, hashJoin), vm, base, iters, joins).code, w, h, y)
    ensures IsLeast(y.Visible(), facts, s.rules, s.preds, h) && y.News() == {}
  {
    var t := Tiers(facts, {});
    assert t.All() == facts && Store(facts, {}, {}).Visible() == facts && Waits(t, {}) && ReadsNone(s, {});
    assert Compiled(s, hashJoin, width) && Faithful(h) && h({}, {}).Total();
    hide Runs, Wide, Equipped, Turn, Reaches, SegmentOf, EmitSegment, StratumOf, IsLeast, Faithful, ReadsNone, Compiled;
    TurnMerged(s, hashJoin, t, {}, h, rounds) by { assert Evaluable(s, hashJoin); }
    StratumLeast(s, hashJoin, Store(facts, {}, {}), h, rounds);
    y := FixpointReaches(s, hashJoin, w, t, h, vm, base, iters, joins, total, width, rounds);
    NoneWaits(Turn(s, hashJoin, t, h, rounds).value);
  }

  lemma {:induction false} NoneWaits(t: Tiers)
    requires Waits(t, {})
    ensures t.waiting == {} && t.All() == t.seen
  {
  }
}
