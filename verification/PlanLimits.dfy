/** Where the planner departs from the meaning of rules: hash joins that consume a built-in
    predicate, and variables that occur only inside compound arguments. */
module PlanLimits {
  import opened Datalog
  import opened Interp
  import opened Planner
  import opened Lowering
  import opened PlanCorrect
  import opened Delay
  import opened Bindings
  import opened RuleTheorem
  /** No facts are stored under the name of a built-in predicate. */
  ghost predicate NoBuiltinRows(m: Machine) {
    forall p: Pred :: !p.IsRelation() ==> m.full(p) == []
  }

  /** The plan inserts nothing, from any environment. */
  ghost predicate Barren(op: Op, m: Machine) {
    forall e: Env :: Run(op, e, m).Ok? ==> Run(op, e, m).value == {}
  }

  lemma {:induction false} BarrenAll(envs: seq<Env>, body: Op, m: Machine)
    requires Barren(body, m) && RunAll(envs, body, m).Ok?
    ensures RunAll(envs, body, m).value == {}
    decreases |envs|
  {
    if envs != [] { BarrenAll(envs[1..], body, m); }
  }

  lemma {:induction false} BarrenAround(op: Op, m: Machine)
    requires !op.Nop? && !op.Insert? && Barren(op.body, m)
    ensures Barren(op, m)
  {
    forall e: Env | Run(op, e, m).Ok? ensures Run(op, e, m).value == {} {
      BarrenAll(Branches(op, e, m).value, op.body, m);
    }
  }

  lemma {:induction false} BarrenLets(lets: seq<Binding>, body: Op, m: Machine)
    requires Barren(body, m)
    ensures Barren(WrapLets(lets, body), m)
    decreases |lets|
  {
    if lets != [] {
      BarrenLets(lets[1..], body, m);
      BarrenAround(WrapLets(lets, body), m);
    }
  }

  lemma {:induction false} BarrenConstraints(args: seq<Term>, vars: seq<Var>, body: Planned, m: Machine)
    requires |vars| == |args| && ApplyConstraints(args, vars, body).Ok? && Barren(body.op, m)
    ensures Barren(ApplyConstraints(args, vars, body).value.op, m)
    decreases |args|
  {
    if args != [] {
      var n := |args| - 1;
      var inner := Constrain(args[n], vars[n], body).value;
      if args[n] != VarTerm(vars[n]) {
        var l := LowerTerm(args[n], body.next).value;
        BarrenAround(Filter(Cmp(Eq, OVar(vars[n]), l.values[0]), body.op), m);
        BarrenLets(l.lets, Filter(Cmp(Eq, OVar(vars[n]), l.values[0]), body.op), m);
      }
      BarrenConstraints(args[..n], vars[..n], inner, m);
    }
  }

  /** A hash join with a built-in as its second side finds no rows. */
  lemma {:induction false} BuiltinJoinBarren(build: Pred, buildVars: seq<Var>, probe: Pred, probeVars: seq<Var>,
      keys: seq<Var>, body: Op, m: Machine)
    requires NoBuiltinRows(m) && !probe.IsRelation()
    ensures Barren(HashJoin(build, buildVars, probe, probeVars, keys, body), m)
  {
    var op := HashJoin(build, buildVars, probe, probeVars, keys, body);
    forall e: Env | Run(op, e, m).Ok? ensures Run(op, e, m).value == {} {
      assert Branches(op, e, m) == Ok([]);
      assert RunAll([], body, m) == Ok({});
    }
  }

  /** A plan with such a join inserts nothing at all. */
  lemma {:induction false} BuiltinJoinInsertsNothing(ps: seq<Premise>, bound: set<Var>, k: nat, h: Head, cfg: Config,
      m: Machine)
    requires PlanJoin(ps, bound, k, h, cfg).Ok? && !JoinsRelations(ps, bound, cfg) && NoBuiltinRows(m)
    ensures Barren(PlanJoin(ps, bound, k, h, cfg).value.op, m)
    decreases |ps|
  {
    if IsTest(ps[0], bound) {
      var ts := TestTerms(ps[0], bound).value;
      var body := PlanJoin(ps[1..], bound, k, h, cfg).value;
      var l := LowerTerms(ts, body.next).value;
      assert BoundAfter(ps[0], bound) == bound;
      BuiltinJoinInsertsNothing(ps[1..], bound, k, h, cfg, m);
      BarrenAround(Filter(TestCond(ps[0], bound, l.values), body.op), m);
      BarrenLets(l.lets, Filter(TestCond(ps[0], bound, l.values), body.op), m);
    } else if ps[0].Equal? {
      var b := EqBinding(ps[0].l, ps[0].r, bound).value;
      assert PlanJoin(ps, bound, k, h, cfg) == PlanLet(b, ps, bound, k, h, cfg);
      var l := if b.1.Apply? then LowerTerms(b.1.args, k).value else LowerTerm(b.1, k).value;
      BuiltinJoinInsertsNothing(ps[1..], bound + {b.0}, l.next, h, cfg, m);
      var inner := Let(b.0, BoundExpr(b.1, l.values), PlanJoin(ps[1..], bound + {b.0}, l.next, h, cfg).value.op);
      BarrenAround(inner, m);
      BarrenLets(l.lets, inner, m);
    } else if ps[0].pred.MatchField? {
      assert PlanJoin(ps, bound, k, h, cfg) == PlanMatchField(ps[0].args, ps, bound, k, h, cfg);
      FieldBarren(ps, bound, k, h, cfg, m);
    } else if ps[0].pred.ListMember? {
      assert PlanJoin(ps, bound, k, h, cfg) == PlanListMember(ps[0].args, ps, bound, k, h, cfg);
      MemberBarren(ps, bound, k, h, cfg, m);
    } else {
      assert PlanJoin(ps, bound, k, h, cfg) == PlanAtom(ps[0].pred, ps[0].args, ps, bound, k, h, cfg);
      AtomBarren(ps, bound, k, h, cfg, m);
    }
  }

  lemma {:induction false} FieldBarren(ps: seq<Premise>, bound: set<Var>, k: nat, h: Head, cfg: Config, m: Machine)
    requires ps != [] && ps[0].Atom? && ps[0].pred.MatchField? && PlanMatchField(ps[0].args, ps, bound, k, h, cfg).Ok?
    requires !JoinsRelations(ps, bound, cfg) && NoBuiltinRows(m)
    ensures Barren(PlanMatchField(ps[0].args, ps, bound, k, h, cfg).value.op, m)
    decreases |ps|, 0
  {
    var args := ps[0].args;
    if IsUnboundVar(args[2], bound) {
      BuiltinJoinInsertsNothing(ps[1..], bound + {args[2].v}, k, h, cfg, m);
      var body := PlanJoin(ps[1..], bound + {args[2].v}, k, h, cfg).value;
      var l := LowerTerm(args[0], body.next).value;
      var inner := BindField(l.values[0], args[1].c.name, args[2].v, body.op);
      BarrenAround(inner, m);
      BarrenLets(l.lets, inner, m);
    } else {
      assert BoundAfter(ps[0], bound) == bound;
      BuiltinJoinInsertsNothing(ps[1..], bound, k + 1, h, cfg, m);
      var body := PlanJoin(ps[1..], bound, k + 1, h, cfg).value;
      var l := LowerTerms([args[0], args[2]], body.next).value;
      var test := Filter(Cmp(Eq, OVar(Fresh("mf", k)), l.values[1]), body.op);
      BarrenAround(test, m);
      BarrenAround(BindField(l.values[0], args[1].c.name, Fresh("mf", k), test), m);
      BarrenLets(l.lets, BindField(l.values[0], args[1].c.name, Fresh("mf", k), test), m);
    }
  }

  lemma {:induction false} MemberBarren(ps: seq<Premise>, bound: set<Var>, k: nat, h: Head, cfg: Config, m: Machine)
    requires ps != [] && ps[0].Atom? && ps[0].pred.ListMember? && PlanListMember(ps[0].args, ps, bound, k, h, cfg).Ok?
    requires !JoinsRelations(ps, bound, cfg) && NoBuiltinRows(m)
    ensures Barren(PlanListMember(ps[0].args, ps, bound, k, h, cfg).value.op, m)
    decreases |ps|, 0
  {
    var args := ps[0].args;
    if IsUnboundVar(args[0], bound) {
      BuiltinJoinInsertsNothing(ps[1..], bound + {args[0].v}, k, h, cfg, m);
      var body := PlanJoin(ps[1..], bound + {args[0].v}, k, h, cfg).value;
      var l := LowerTerm(args[1], body.next).value;
      var inner := IterateList(l.values[0], args[0].v, body.op);
      BarrenAround(inner, m);
      BarrenLets(l.lets, inner, m);
    } else {
      assert BoundAfter(ps[0], bound) == bound;
      BuiltinJoinInsertsNothing(ps[1..], bound, k + 1, h, cfg, m);
      var body := PlanJoin(ps[1..], bound, k + 1, h, cfg).value;
      var l := LowerTerms([args[1], args[0]], body.next).value;
      var test := Filter(Cmp(Eq, OVar(Fresh("listmem", k)), l.values[1]), body.op);
      BarrenAround(test, m);
      BarrenAround(IterateList(l.values[0], Fresh("listmem", k), test), m);
      BarrenLets(l.lets, IterateList(l.values[0], Fresh("listmem", k), test), m);
    }
  }

  lemma {:induction false} AtomBarren(ps: seq<Premise>, bound: set<Var>, k: nat, h: Head, cfg: Config, m: Machine)
    requires ps != [] && ps[0].Atom? && ps[0].pred.IsRelation() &&
             PlanAtom(ps[0].pred, ps[0].args, ps, bound, k, h, cfg).Ok?
    requires !JoinsRelations(ps, bound, cfg) && NoBuiltinRows(m)
    ensures Barren(PlanAtom(ps[0].pred, ps[0].args, ps, bound, k, h, cfg).value.op, m)
    decreases |ps|, 0
  {
    var args := ps[0].args;
    match ChosenJoin(args, ps, bound, cfg)
    case Some(j) =>
      var bound' := bound + VarSet(j.build) + VarSet(j.probe);
      var body := PlanJoin(ps[2..], bound', k, h, cfg).value;
      if ps[1].pred.IsRelation() {
        BuiltinJoinInsertsNothing(ps[2..], bound', k, h, cfg, m);
        BarrenAround(HashJoin(ps[0].pred, j.build, j.probeRel, j.probe, j.keys, body.op), m);
      } else {
        BuiltinJoinBarren(ps[0].pred, j.build, j.probeRel, j.probe, j.keys, body.op, m);
      }
    case None =>
      var scan := ScanVars(args, bound, k);
      BuiltinJoinInsertsNothing(ps[1..], bound + DirectVars(args), scan.next, h, cfg, m);
      var body := PlanJoin(ps[1..], bound + DirectVars(args), scan.next, h, cfg).value;
      BarrenConstraints(args, scan.vars, body, m);
      BarrenAround(Iterate(AtomSource(ps[0].pred, args, bound, scan.vars, cfg),
                           ApplyConstraints(args, scan.vars, body).value.op), m);
  }

  /** With hash joins on, the plan of a safe rule is exact on a database precisely when no
      join consumes a built-in, or the rule derives nothing there anyway. */
  lemma {:induction false} HashJoinExactIff(r: Rule, m: Machine)
    requires Safe(r) && PlanOf(r, Config(None, true)).Ok? && m.IndexSound() && NoBuiltinRows(m)
    requires Run(PlanOf(r, Config(None, true)).value, map[], m).Ok?
    ensures (forall f :: f in Run(PlanOf(r, Config(None, true)).value, map[], m).value <==> Derives(r, f, m)) <==>
            RelationJoins(r, Config(None, true)) || !exists f :: Derives(r, f, m)
  {
    var cfg := Config(None, true);
    if RelationJoins(r, cfg) {
      PlanExact(r, true, m);
    } else {
      BuiltinJoinInsertsNothing(Delayed(r.premises), {}, 0, r.head, cfg, m);
    }
  }

  // ----- Two rules that show it -----

  const X := User("X")
  const Y := User("Y")
  const XT := VarTerm(X)
  const YT := VarTerm(Y)

  /** `less(X, Y) :- pair(X, Y), :lt(X, Y).` */
  function LessRule(): Rule {
    Rule(Head(Rel("less"), [XT, YT]), [Atom(Rel("pair"), [XT, YT]), Atom(Compare(Plain, OLt), [XT, YT])])
  }

  /** One pair, and a comparison under which it is ordered. */
  function PairMachine(): Machine {
    var rows := (p: Pred) => if p == Rel("pair") then [[Number(1), Number(2)]] else [];
    Machine(rows,
            (p: Pred) => [],
            (p: Pred, c: nat, k: Value) => rows(p),
            (f: string, vs: seq<Value>) => Ok(Null),
            (t: Test, a: Value, b: Value) => Ok(false),
            (a: Value, b: Value) => Less)
  }

  lemma {:induction false} LessRuleVars()
    ensures TermsVars([XT, YT]) == {X, Y} && DirectVars([XT, YT]) == {X, Y}
  {
    PairVars(XT, YT);
    assert [XT, YT][1..] == [YT] && [YT][1..] == [];
    assert DirectVars([YT]) == {Y} + DirectVars([]);
  }

  lemma {:induction false} LessRuleSafe()
    ensures Safe(LessRule()) && Delayed(LessRule().premises) == LessRule().premises
  {
    var r := LessRule();
    var ps := r.premises;
    LessRuleVars();
    assert ps[1..] == [ps[1]] && [ps[1]][1..] == [];
    var s0 := Start(r.head);
    var s1 := ScanPremise(ps[0], s0).value;
    assert s1.bound == {X, Y};
    var s2 := ScanPremise(ps[1], s1).value;
    assert ScanAll([], s2) == Ok(s2) && ScanAll([ps[1]], s1) == Ok(s2) && ScanAll(ps, s0) == Ok(s2);
    assert s2.bound == {X, Y} && s2.seen == {X, Y};
    assert Accepts(r);
    var t0 := State([], {}, []);
    IdleSettle(Append(t0, ps[0]));
    IdleSettle(Append(Append(t0, ps[0]), ps[1]));
    var t2 := Append(Append(t0, ps[0]), ps[1]);
    assert Reorder([], t2) == t2 && Reorder([ps[1]], Append(t0, ps[0])) == t2 && Reorder(ps, t0) == t2;
    assert t2.ordered + t2.waiting == ps;
    assert PremisesVars([ps[1]]) == PremiseVars(ps[1]) + PremisesVars([]);
    assert PremisesVars(ps) == {X, Y};
    assert AllCompoundReady([ps[1]], {X, Y}) <== AllCompoundReady([], {X, Y});
  }

  lemma {:induction false} IdleSettle(s: State)
    requires s.waiting == []
    ensures Settle(s) == s
  {
  }

  /** A safe rule and a database on which the hash join loses the one fact it should derive. */
  lemma {:induction false} HashJoinLosesFacts()
    ensures var r, m, f := LessRule(), PairMachine(), Fact(Rel("less"), [Number(1), Number(2)]);
            && Safe(r) && PlanOf(r, Config(None, true)).Ok? && m.IndexSound() && NoBuiltinRows(m)
            && Derives(r, f, m) && Run(PlanOf(r, Config(None, true)).value, map[], m) == Ok({})
  {
    var r, m, f := LessRule(), PairMachine(), Fact(Rel("less"), [Number(1), Number(2)]);
    LessRuleSafe();
    PairMachineSound();
    LessDerives();
    var op := LessPlan();
    LessRuns(op);
  }

  lemma {:induction false} PairMachineSound()
    ensures PairMachine().IndexSound() && NoBuiltinRows(PairMachine())
  {
  }

  lemma {:induction false} LessDerives()
    ensures Derives(LessRule(), Fact(Rel("less"), [Number(1), Number(2)]), PairMachine())
  {
    var r, m := LessRule(), PairMachine();
    var sigma := map[X := Number(1), Y := Number(2)];
    PairTerms(XT, YT, sigma, m);
    assert r.premises[0] in r.premises && r.premises[1] in r.premises;
    assert Satisfies(sigma, r, Fact(Rel("less"), [Number(1), Number(2)]), m);
  }

  lemma {:induction false} LessRuns(op: Op)
    requires op.HashJoin? && op.probeRel == Compare(Plain, OLt) &&
             forall k :: k in op.keys ==> k in op.buildVars && k in op.probeVars
    ensures Run(op, map[], PairMachine()) == Ok({})
  {
    assert PairMachine().full(op.probeRel) == [];
    assert Branches(op, map[], PairMachine()) == Ok([]);
    assert RunAll([], op.body, PairMachine()) == Ok({});
  }

  lemma {:induction false} LessPlan() returns (op: Op)
    ensures PlanOf(LessRule(), Config(None, true)) == Ok(op)
    ensures op.HashJoin? && op.probeRel == Compare(Plain, OLt) &&
            forall k :: k in op.keys ==> k in op.buildVars && k in op.probeVars
  {
    var r, cfg := LessRule(), Config(None, true);
    var ps := r.premises;
    LessRuleSafe();
    assert [XT, YT][1..] == [YT] && [YT][1..] == [];
    assert {X} + {Y} == {X, Y} && {} + {X} == {X} && Y != X;
    assert AllFreshDistinct([], {X, Y}) == Some([]);
    assert [Y] + [] == [Y] && [X] + [Y] == [X, Y];
    assert AllFreshDistinct([YT], {X}) == Some([Y]);
    assert AllFreshDistinct([XT, YT], {}) == Some([X, Y]);
    assert X in Shared([X, Y], [X, Y]);
    assert ps[1..] == [ps[1]] && ps[2..] == [];
    var j := ChosenJoin(ps[0].args, ps, {}, cfg).value;
    LowerTermsOk([XT, YT], 0);
    AllSupportedPair();
    assert PlanJoin(ps, {}, 0, r.head, cfg) == PlanAtom(ps[0].pred, ps[0].args, ps, {}, 0, r.head, cfg);
    op := PlanOf(r, cfg).value;
  }

  lemma AllSupportedPair()
    ensures AllSupported([XT, YT])
  {
    PairSupported(XT, YT);
  }

  /** `next(X) :- num(fn:plus(X)).` */
  function NestedRule(): Rule {
    Rule(Head(Rel("next"), [XT]), [Atom(Rel("num"), [Apply("fn:plus", [XT])])])
  }

  function NumMachine(): Machine {
    var rows := (p: Pred) => if p == Rel("num") then [[Number(1)]] else [];
    Machine(rows,
            (p: Pred) => [],
            (p: Pred, c: nat, k: Value) => rows(p),
            (f: string, vs: seq<Value>) => Ok(Number(1)),
            (t: Test, a: Value, b: Value) => Ok(false),
            (a: Value, b: Value) => Less)
  }

  /** The check accepts the rule although no premise gives the variable a value; the plan
      then fails at run time, on a machine where no function fails. */
  lemma {:induction false} NestedVariableFails()
    ensures var r, m := NestedRule(), NumMachine();
            && Parsed(r) && Accepts(r) && m.IndexSound() && m.Total()
            && PlanOf(r, Config(None, false)).Ok? && Run(PlanOf(r, Config(None, false)).value, map[], m).Err?
  {
    var r, m := NestedRule(), NumMachine();
    var p := r.premises[0];
    var cfg := Config(None, false);
    EvalTermsOne(XT, map[], m);
    EvalTermsOne(p.args[0], map[], m);
    assert r.premises[1..] == [];
    assert PremisesVars(r.premises) == PremiseVars(p) + PremisesVars([]);
    var s1 := ScanPremise(p, Start(r.head)).value;
    assert ScanAll([], s1) == Ok(s1) && ScanAll(r.premises, Start(r.head)) == Ok(s1);
    assert Accepts(r);
    var t1 := Append(State([], {}, []), p);
    IdleSettle(t1);
    assert Reorder([], t1) == t1 && Reorder(r.premises, State([], {}, [])) == t1;
    assert t1.ordered + t1.waiting == r.premises;
    assert Delayed(r.premises) == r.premises;
    NestedPlan();
  }

  lemma {:induction false} NestedPlan()
    ensures var op := PlanJoin(NestedRule().premises, {}, 0, NestedRule().head, Config(None, false));
            op.Ok? && Run(op.value.op, map[], NumMachine()).Err?
  {
    var r, m, cfg := NestedRule(), NumMachine(), Config(None, false);
    var p := r.premises[0];
    var args := p.args;
    assert r.premises[1..] == [] && args[1..] == [] && [XT][1..] == [];
    var scan := ScanVars(args, {}, 0);
    assert scan == ScanPlan([Fresh("scan", 0)], 1) by { assert ScanVars([], {}, 1) == ScanPlan([], 1); }
    LowerTermsOk([XT], 1);
    assert AllSupported([XT]) <==> Supported(XT) && AllSupported([]);
    var body := PlanHead(r.head, 1).value;
    assert PlanJoin([], {} + DirectVars(args), 1, r.head, cfg) == Ok(body);
    LowerTermsOk([XT], body.next);
    var l := LowerTerms([XT], body.next).value;
    assert LowerTerms([], body.next) == Ok(Lowered([], [], body.next));
    assert l == Lowered([], [OVar(X)], body.next);
    var tmp := Fresh("call", body.next);
    var test := Filter(Cmp(Eq, OVar(Fresh("scan", 0)), OVar(tmp)), body.op);
    var inner := WrapLets([Binding(tmp, Call("fn:plus", [OVar(X)]))], test);
    var low := LowerTerm(args[0], body.next);
    assert args[0] == Apply("fn:plus", [XT]);
    assert low == LowerCall("call", "fn:plus", [XT], body.next);
    assert low == Ok(Lowered(l.lets + [Binding(tmp, Call("fn:plus", l.values))], [OVar(tmp)], l.next + 1));
    assert l.lets + [Binding(tmp, Call("fn:plus", l.values))] == [Binding(tmp, Call("fn:plus", [OVar(X)]))];
    assert Constrain(args[0], Fresh("scan", 0), body) == Ok(Planned(inner, body.next + 1));
    assert args[..0] == [] && scan.vars[..0] == [];
    assert ApplyConstraints(args, scan.vars, body) == Ok(Planned(inner, body.next + 1));
    assert FindLookup(args, {}, 1).None? && FindLookup(args, {}, 0).None?;
    var op := Iterate(Scan(Rel("num"), scan.vars), inner);
    assert PlanJoin(r.premises, {}, 0, r.head, cfg) == PlanAtom(p.pred, args, r.premises, {}, 0, r.head, cfg);
    assert PlanJoin(r.premises, {}, 0, r.head, cfg) == Ok(Planned(op, body.next + 1));
    var row: Tuple := [Number(1)];
    var e := BindRow(map[], scan.vars, row);
    BindRowKeys(map[], scan.vars, row);
    assert X !in e;
    var rows: seq<Tuple> := [row];
    assert rows[1..] == [];
    assert BindRows(map[], scan.vars, []) == [];
    assert BindRows(map[], scan.vars, rows) == [e] + [] == [e];
    assert Branches(op, map[], m) == Ok([e]);
    EvalOne(OVar(X), e);
    var lets := [Binding(tmp, Call("fn:plus", [OVar(X)]))];
    assert EvalOperand(OVar(X), e) == Err;
    assert EvalExpr(lets[0].expr, e, m) == Err;
    assert RunLets(lets, e, m) == Err;
    RunWrapLets(lets, test, e, m);
    assert Run(inner, e, m).Err?;
    assert RunAll([e], inner, m).Err?;
  }
}
