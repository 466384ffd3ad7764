/** Rules in emitted code: what the code of a safe rule inserts. */
module CodeTheorem {
  import opened Datalog
  import opened Interp
  import opened Planner
  import opened PlanCorrect
  import Delay
  import opened RuleTheorem
  import opened Scope
  import opened ScopeTheorem
  import opened Wasm
  import opened Emit
  import opened CodeSteps
  import opened CodeLoops
  import opened CodeJoins
  import opened CodeCorrect
  import AtomSteps

  /** The rows of the atom's relation have as many columns as the atom has arguments. */
  ghost predicate FitsAtom(p: Premise, m: Machine) {
    p.Atom? && p.pred.IsRelation() ==> AllWide(m.full(p.pred), |p.args|) && AllWide(m.delta(p.pred), |p.args|)
  }

  // ----- Plans fit the relations they scan -----

  lemma {:induction false} LetsFit(lets: seq<Binding>, body: Op, m: Machine)
    requires Fitting(body, m)
    ensures Fitting(WrapLets(lets, body), m)
    decreases |lets|
  {
    if lets != [] { LetsFit(lets[1..], body, m); }
  }

  lemma {:induction false} ConstraintsFit(args: seq<Term>, vars: seq<Var>, body: Planned, m: Machine)
    requires |vars| == |args| && ApplyConstraints(args, vars, body).Ok? && Fitting(body.op, m)
    ensures Fitting(ApplyConstraints(args, vars, body).value.op, m)
    decreases |args|
  {
    if args != [] {
      var n := |args| - 1;
      var inner := Constrain(args[n], vars[n], body).value;
      if args[n] != VarTerm(vars[n]) {
        var l := LowerTerm(args[n], body.next).value;
        LetsFit(l.lets, Filter(Cmp(Eq, OVar(vars[n]), l.values[0]), body.op), m);
      }
      ConstraintsFit(args[..n], vars[..n], inner, m);
    }
  }

  lemma {:induction false} SharedDistinct(vs: seq<Var>, ws: seq<Var>)
    requires Distinct(vs)
    ensures Distinct(Shared(vs, ws))
    decreases |vs|
  {
    if vs != [] {
      assert Distinct(vs[1..]);
      SharedDistinct(vs[1..], ws);
      assert vs[0] !in vs[1..];
    }
  }

  lemma {:induction false} PlanFits(ps: seq<Premise>, bound: set<Var>, k: nat, h: Head, cfg: Config, m: Machine)
    requires PlanJoin(ps, bound, k, h, cfg).Ok? && JoinsRelations(ps, bound, cfg) && m.IndexSound()
    requires forall p :: p in ps ==> FitsAtom(p, m)
    ensures Fitting(PlanJoin(ps, bound, k, h, cfg).value.op, m)
    decreases |ps|, 1
  {
    if ps == [] {
      var l := LowerTerms(h.args, k).value;
      LetsFit(l.lets, Insert(h.rel, l.values), m);
    } else if IsTest(ps[0], bound) {
      var ts := TestTerms(ps[0], bound).value;
      var body := PlanJoin(ps[1..], bound, k, h, cfg).value;
      var l := LowerTerms(ts, body.next).value;
      assert BoundAfter(ps[0], bound) == bound;
      PlanFits(ps[1..], bound, k, h, cfg, m);
      LetsFit(l.lets, Filter(TestCond(ps[0], bound, l.values), body.op), m);
    } else if ps[0].Equal? {
      var b := EqBinding(ps[0].l, ps[0].r, bound).value;
      assert PlanJoin(ps, bound, k, h, cfg) == PlanLet(b, ps, bound, k, h, cfg);
      var l := if b.1.Apply? then LowerTerms(b.1.args, k).value else LowerTerm(b.1, k).value;
      PlanFits(ps[1..], bound + {b.0}, l.next, h, cfg, m);
      LetsFit(l.lets, Let(b.0, BoundExpr(b.1, l.values), PlanJoin(ps[1..], bound + {b.0}, l.next, h, cfg).value.op), m);
    } else if ps[0].pred.MatchField? {
      FieldFits(ps, bound, k, h, cfg, m);
    } else if ps[0].pred.ListMember? {
      MemberFits(ps, bound, k, h, cfg, m);
    } else if ChosenJoin(ps[0].args, ps, bound, cfg).Some? {
      JoinFits(ps, bound, k, h, cfg, m);
    } else {
      ScanFits(ps, bound, k, h, cfg, m);
    }
  }

  lemma {:induction false} FieldFits(ps: seq<Premise>, bound: set<Var>, k: nat, h: Head, cfg: Config, m: Machine)
    requires PlanJoin(ps, bound, k, h, cfg).Ok? && JoinsRelations(ps, bound, cfg) && m.IndexSound()
    requires forall p :: p in ps ==> FitsAtom(p, m)
    requires ps != [] && ps[0].Atom? && ps[0].pred.MatchField?
    ensures Fitting(PlanJoin(ps, bound, k, h, cfg).value.op, m)
    decreases |ps|, 0
  {
    var args := ps[0].args;
    assert PlanJoin(ps, bound, k, h, cfg) == PlanMatchField(args, ps, bound, k, h, cfg);
    if IsUnboundVar(args[2], bound) {
      PlanFits(ps[1..], bound + {args[2].v}, k, h, cfg, m);
      var body := PlanJoin(ps[1..], bound + {args[2].v}, k, h, cfg).value;
      var l := LowerTerm(args[0], body.next).value;
      LetsFit(l.lets, BindField(l.values[0], args[1].c.name, args[2].v, body.op), m);
    } else {
      assert BoundAfter(ps[0], bound) == bound + (if args[2].VarTerm? then {args[2].v} else {}) == bound;
      PlanFits(ps[1..], bound, k + 1, h, cfg, m);
      var body := PlanJoin(ps[1..], bound, k + 1, h, cfg).value;
      var l := LowerTerms([args[0], args[2]], body.next).value;
      LetsFit(l.lets,
              BindField(l.values[0], args[1].c.name, Fresh("mf", k),
                        Filter(Cmp(Eq, OVar(Fresh("mf", k)), l.values[1]), body.op)), m);
    }
  }

  lemma {:induction false} MemberFits(ps: seq<Premise>, bound: set<Var>, k: nat, h: Head, cfg: Config, m: Machine)
    requires PlanJoin(ps, bound, k, h, cfg).Ok? && JoinsRelations(ps, bound, cfg) && m.IndexSound()
    requires forall p :: p in ps ==> FitsAtom(p, m)
    requires ps != [] && ps[0].Atom? && ps[0].pred.ListMember?
    ensures Fitting(PlanJoin(ps, bound, k, h, cfg).value.op, m)
    decreases |ps|, 0
  {
    var args := ps[0].args;
    assert PlanJoin(ps, bound, k, h, cfg) == PlanListMember(args, ps, bound, k, h, cfg);
    if IsUnboundVar(args[0], bound) {
      PlanFits(ps[1..], bound + {args[0].v}, k, h, cfg, m);
      var body := PlanJoin(ps[1..], bound + {args[0].v}, k, h, cfg).value;
      var l := LowerTerm(args[1], body.next).value;
      LetsFit(l.lets, IterateList(l.values[0], args[0].v, body.op), m);
    } else {
      assert BoundAfter(ps[0], bound) == bound + (if args[0].VarTerm? then {args[0].v} else {}) == bound;
      PlanFits(ps[1..], bound, k + 1, h, cfg, m);
      var body := PlanJoin(ps[1..], bound, k + 1, h, cfg).value;
      var l := LowerTerms([args[1], args[0]], body.next).value;
      LetsFit(l.lets,
              IterateList(l.values[0], Fresh("listmem", k),
                          Filter(Cmp(Eq, OVar(Fresh("listmem", k)), l.values[1]), body.op)), m);
    }
  }

  lemma {:induction false} ScanFits(ps: seq<Premise>, bound: set<Var>, k: nat, h: Head, cfg: Config, m: Machine)
    requires PlanJoin(ps, bound, k, h, cfg).Ok? && JoinsRelations(ps, bound, cfg) && m.IndexSound()
    requires forall p :: p in ps ==> FitsAtom(p, m)
    requires ps != [] && !IsTest(ps[0], bound) && ps[0].Atom? && ps[0].pred.IsRelation() &&
             ChosenJoin(ps[0].args, ps, bound, cfg).None?
    ensures Fitting(PlanJoin(ps, bound, k, h, cfg).value.op, m)
    decreases |ps|, 0
  {
    var args := ps[0].args;
    assert PlanJoin(ps, bound, k, h, cfg) == PlanAtom(ps[0].pred, args, ps, bound, k, h, cfg);
    var scan := ScanVars(args, bound, k);
    PlanFits(ps[1..], bound + DirectVars(args), scan.next, h, cfg, m);
    var body := PlanJoin(ps[1..], bound + DirectVars(args), scan.next, h, cfg).value;
    ConstraintsFit(args, scan.vars, body, m);
    assert FitsAtom(ps[0], m);
    var src := AtomSource(ps[0].pred, args, bound, scan.vars, cfg);
    forall env, r | SourceRows(src, env, m).Ok? && r in SourceRows(src, env, m).value ensures |r| == |src.vars| {
      if src.IndexLookup? {
        var key := EvalOperand(src.key, env).value;
        assert r in m.index(src.rel, src.col, key);
        assert r in m.full(src.rel);
      }
    }
  }

  lemma {:induction false} JoinFits(ps: seq<Premise>, bound: set<Var>, k: nat, h: Head, cfg: Config, m: Machine)
    requires PlanJoin(ps, bound, k, h, cfg).Ok? && JoinsRelations(ps, bound, cfg) && m.IndexSound()
    requires forall p :: p in ps ==> FitsAtom(p, m)
    requires ps != [] && !IsTest(ps[0], bound) && ps[0].Atom? && ps[0].pred.IsRelation() &&
             ChosenJoin(ps[0].args, ps, bound, cfg).Some?
    ensures Fitting(PlanJoin(ps, bound, k, h, cfg).value.op, m)
    decreases |ps|, 0
  {
    var j := ChosenJoin(ps[0].args, ps, bound, cfg).value;
    assert PlanJoin(ps, bound, k, h, cfg) == PlanAtom(ps[0].pred, ps[0].args, ps, bound, k, h, cfg);
    assert ps[1..][0] == ps[1];
    AtomSteps.AllFreshShape(ps[0].args, bound);
    AtomSteps.AllFreshShape(ps[1].args, bound);
    SharedDistinct(j.build, j.probe);
    PlanFits(ps[2..], bound + VarSet(j.build) + VarSet(j.probe), k, h, cfg, m);
    assert FitsAtom(ps[0], m) && FitsAtom(ps[1], m);
  }

  // ----- Whole rules -----

  /** The code of a full or delta plan of a safe rule adds exactly the facts that the plan makes
      derivable, the delta read where a delta scan stands. */
  lemma {:induction false} PlanCodeExact(r: Rule, cfg: Config, vm: VarMap, base: nat, iters: nat, joins: nat,
      st: Wasm.State, m: Machine) returns (s: Wasm.State)
    requires Safe(r) && PlanOf(r, cfg).Ok? && RelationJoins(r, cfg) && m.IndexSound() && m.Total()
    requires forall p :: p in r.premises ==> FitsAtom(p, m)
    requires var op := PlanOf(r, cfg).value;
             && Binders(op) <= vm.Keys && Layout(vm, base) && base >= FIRST_VAR
             && Declared(st, base + EmitOp(op, vm, base, iters, joins).iters) && HostOk(st.host)
    ensures Ends(EmitOp(PlanOf(r, cfg).value, vm, base, iters, joins).code, st, m, Done(s))
    ensures forall f :: f in s.host.facts <==>
            f in st.host.facts || Derivable(Delay.Delayed(r.premises), {}, r.head, map[], cfg.delta, f, m)
    ensures s.stack == st.stack
  {
    var op := PlanOf(r, cfg).value;
    PlanRunnable(r, cfg, m);
    PlanCorrectFor(r, cfg, m);
    var e := EmitOp(op, vm, base, iters, joins);
    StartsEmpty(op, e, vm, base, st, m);
    s := OpRuns(op, e, {}, map[], vm, base, iters, joins, st, m);
  }

  /** The code of a safe rule, full or hash-joined, run on a host that shows the database,
      adds exactly the facts that the rule derives. */
  lemma {:induction false} RuleCodeExact(r: Rule, hashJoin: bool, vm: VarMap, base: nat, iters: nat, joins: nat,
      st: Wasm.State, m: Machine) returns (s: Wasm.State)
    requires Safe(r) && PlanOf(r, Config(None, hashJoin)).Ok? && RelationJoins(r, Config(None, hashJoin)) &&
             m.IndexSound() && m.Total()
    requires forall p :: p in r.premises ==> FitsAtom(p, m)
    requires var op := PlanOf(r, Config(None, hashJoin)).value;
             && Binders(op) <= vm.Keys && Layout(vm, base) && base >= FIRST_VAR
             && Declared(st, base + EmitOp(op, vm, base, iters, joins).iters) && HostOk(st.host)
    ensures Ends(EmitOp(PlanOf(r, Config(None, hashJoin)).value, vm, base, iters, joins).code, st, m, Done(s))
    ensures forall f :: f in s.host.facts <==> f in st.host.facts || Derives(r, f, m)
    ensures s.stack == st.stack
  {
    hide EmitOp, PlanOf, Derivable, Derives, Safe;
    s := PlanCodeExact(r, Config(None, hashJoin), vm, base, iters, joins, st, m);
    forall f
      ensures Derivable(Delay.Delayed(r.premises), {}, r.head, map[], None, f, m) <==>
              Derives(r, f, m) { DerivableMeans(r, f, m); }
  }

  /** The plans of safe rules run on the code's machine. */
  lemma {:induction false} PlanRunnable(r: Rule, cfg: Config, m: Machine)
    requires Safe(r) && PlanOf(r, cfg).Ok? && RelationJoins(r, cfg) && m.IndexSound() && m.Total()
    requires forall p :: p in r.premises ==> FitsAtom(p, m)
    ensures Runnable(PlanOf(r, cfg).value, m)
  {
    RuleScopedIff(r, cfg);
    PlanCorrectFor(r, cfg, m);
    SamePremises(r.premises);
    PlanFits(Delay.Delayed(r.premises), {}, 0, r.head, cfg, m);
  }

  ghost predicate Runnable(op: Op, m: Machine) {
    Scoped(op, {}) && Fitting(op, m) && Run(op, map[], m).Ok?
  }

  lemma {:induction false} StartsEmpty(op: Op, e: Emitted, vm: VarMap, base: nat, st: Wasm.State, m: Machine)
    requires Scoped(op, {}) && Fitting(op, m) && Binders(op) <= vm.Keys && Layout(vm, base) && base >= FIRST_VAR
    requires Declared(st, base + e.iters) && HostOk(st.host)
    ensures CodeCorrect.Fits(op, {}, vm, m) && Standing(st, map[], {}, vm, base, e.iters)
  {
    assert {} + Binders(op) == Binders(op);
  }

  // ----- All plans of a pass in one function -----

  ghost function AllFacts(ops: seq<Op>, m: Machine): set<Fact>
    requires forall op :: op in ops ==> Runnable(op, m)
  {
    if ops == [] then {}
    else
      assert Runnable(ops[0], m);
      Run(ops[0], map[], m).value + AllFacts(ops[1..], m)
  }

  lemma {:induction false} AllRun(ops: seq<Op>, vm: VarMap, base: nat, iters: nat, joins: nat, total: nat,
      st: Wasm.State, m: Machine) returns (s: Wasm.State)
    requires (forall op :: op in ops ==> Runnable(op, m)) && AllBinders(ops) <= vm.Keys
    requires Standing(st, map[], {}, vm, base, total) && EmitAll(ops, vm, base, iters, joins).iters <= total
    ensures Ends(EmitAll(ops, vm, base, iters, joins).code, st, m, Done(s))
    ensures s.host.facts == st.host.facts + AllFacts(ops, m) && s.stack == st.stack &&
            Standing(s, map[], {}, vm, base, total)
    decreases |ops|
  {
    if ops == [] {
      s := st;
      ExitIs([], st, m, Done(st), 0);
    } else {
      var first := EmitOp(ops[0], vm, base, iters, joins);
      var rest := EmitAll(ops[1..], vm, base, first.iters, first.joins);
      AllItersGrow(ops[1..], vm, base, first.iters, first.joins);
      assert Runnable(ops[0], m);
      StandingParts(st, map[], {}, vm, base, total);
      StartsEmpty(ops[0], first, vm, base, st, m);
      var t := OpRuns(ops[0], first, {}, map[], vm, base, iters, joins, st, m);
      StillStanding(st, t, map[], {}, vm, base, total, iters, joins, {});
      s := AllRun(ops[1..], vm, base, first.iters, first.joins, total, t, m);
      EndsConcat(first.code, rest.code, st, m, t, Done(s));
    }
  }

  /** A function generated in two passes: the locals that the first pass declares are enough
      for the code of the second, which inserts exactly the facts of all its plans. */
  lemma {:induction false} GeneratedRuns(ops: seq<Op>, st: Wasm.State, m: Machine) returns (s: Wasm.State)
    requires forall op :: op in ops ==> Runnable(op, m)
    requires var c := CollectAll(ops, Collected(map[], FIRST_VAR, 0));
             Declared(st, c.next + c.iters) && HostOk(st.host)
    ensures var c := CollectAll(ops, Collected(map[], FIRST_VAR, 0));
            Ends(EmitAll(ops, c.vm, c.next, 0, 0).code, st, m, Done(s))
    ensures s.host.facts == st.host.facts + AllFacts(ops, m) && s.stack == st.stack
  {
    var empty := Collected(map[], FIRST_VAR, 0);
    var c := CollectAll(ops, empty);
    CollectAllGrows(ops, empty);
    AllItersCounted(ops, empty, c.vm, c.next, 0, 0);
    s := AllRun(ops, c.vm, c.next, 0, 0, c.iters, st, m);
  }
}
