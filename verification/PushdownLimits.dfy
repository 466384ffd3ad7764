/** Selections from one relation: exactly when loading only the rows that pass the extracted
    predicates changes what the plans insert, and a program for which it does. */
module PushdownLimits {
  import opened Datalog
  import opened Interp
  import opened Planner
  import opened Lowering
  import opened Delay
  import opened RuleTheorem
  import opened Pushdown

  // ----- Plans that select rows -----

  /** A rule that selects rows of a relation: the scanned variables, the tests and the head. */
  datatype Site = Site(vars: seq<Var>, conds: seq<Cond>, head: Pred)

  function Filters(conds: seq<Cond>, body: Op): Op {
    if conds == [] then body else Filter(conds[0], Filters(conds[1..], body))
  }

  function VarOperands(vars: seq<Var>): (r: seq<Operand>)
    ensures |r| == |vars|
  {
    if vars == [] then [] else [OVar(vars[0])] + VarOperands(vars[1..])
  }

  function RowInsert(s: Site): Op {
    Insert(s.head, VarOperands(s.vars))
  }

  function SitePlan(p: Pred, s: Site): Op {
    Iterate(Scan(p, s.vars), Filters(s.conds, RowInsert(s)))
  }

  ghost predicate AllTrue(conds: seq<Cond>, e: Env, m: Machine) {
    forall c :: c in conds ==> EvalCond(c, e, m) == Ok(true)
  }

  /** The plan inserts the row. */
  ghost predicate Selected(s: Site, env: Env, row: Tuple, m: Machine) {
    |row| == |s.vars| && AllTrue(s.conds, BindRow(env, s.vars, row), m)
  }

  /** No test reads a relation of which less is loaded. */
  ghost predicate TestsUnaffected(s: Site, sel: Selection) {
    forall c, q :: c in s.conds && q in sel && CondReads(c, q) ==> sel[q] == []
  }

  lemma {:induction false} FiltersRun(conds: seq<Cond>, body: Op, e: Env, m: Machine)
    requires Run(Filters(conds, body), e, m).Ok?
    ensures AllTrue(conds, e, m) ==> Run(Filters(conds, body), e, m) == Run(body, e, m)
    ensures !AllTrue(conds, e, m) ==> Run(Filters(conds, body), e, m) == Ok({})
    decreases |conds|
  {
    if conds != [] {
      RunFilter(conds[0], Filters(conds[1..], body), e, m);
      SplitHead(conds);
      assert conds[0] in conds;
      if EvalCond(conds[0], e, m) == Ok(true) { FiltersRun(conds[1..], body, e, m); }
    }
  }

  lemma {:induction false} FiltersLoaded(conds: seq<Cond>, body: Op, e: Env, m: Machine, sel: Selection)
    requires Run(Filters(conds, body), e, m).Ok? && Run(body, e, Loaded(m, sel)) == Run(body, e, m)
    requires forall c, q :: c in conds && q in sel && CondReads(c, q) ==> sel[q] == []
    ensures Run(Filters(conds, body), e, Loaded(m, sel)) == Run(Filters(conds, body), e, m)
    decreases |conds|
  {
    if conds != [] {
      assert conds[0] in conds;
      SameCond(conds[0], e, m, sel);
      RunFilter(conds[0], Filters(conds[1..], body), e, m);
      RunFilter(conds[0], Filters(conds[1..], body), e, Loaded(m, sel));
      if EvalCond(conds[0], e, m) == Ok(true) { FiltersLoaded(conds[1..], body, e, m, sel); }
    }
  }

  lemma {:induction false} RowOperands(vars: seq<Var>, e: Env, row: Tuple)
    requires |vars| == |row| && forall i :: 0 <= i < |vars| ==> vars[i] in e && e[vars[i]] == row[i]
    ensures EvalOperands(VarOperands(vars), e) == Ok(row)
    decreases |vars|
  {
    if vars != [] {
      RowOperands(vars[1..], e, row[1..]);
      assert VarOperands(vars)[1..] == VarOperands(vars[1..]);
      assert [row[0]] + row[1..] == row;
    } else {
      assert row == [];
    }
  }

  lemma {:induction false} RowInserted(s: Site, env: Env, row: Tuple, m: Machine)
    requires Distinct(s.vars) && |row| == |s.vars|
    ensures Run(RowInsert(s), BindRow(env, s.vars, row), m) == Ok({Fact(s.head, row)})
  {
    var e := BindRow(env, s.vars, row);
    forall i | 0 <= i < |s.vars| ensures s.vars[i] in e && e[s.vars[i]] == row[i] { BindRowAt(env, s.vars, row, i); }
    RowOperands(s.vars, e, row);
  }

  lemma {:induction false} SelectMember(rows: seq<Tuple>, ps: seq<ColPred>, m: Machine, row: Tuple)
    ensures row in Select(rows, ps, m) <==> row in rows && PassesAll(row, ps, m)
    decreases |rows|
  {
    hide PassesAll;
    if rows != [] {
      SplitHead(rows);
      SelectMember(rows[1..], ps, m, row);
    }
  }

  lemma {:induction false} SiteRun(p: Pred, s: Site, env: Env, m: Machine)
    ensures Run(SitePlan(p, s), env, m) == RunAll(BindRows(env, s.vars, m.full(p)), Filters(s.conds, RowInsert(s)), m)
  {
  }

  /** What a selection inserts from these rows. */
  lemma {:induction false} SiteFacts(p: Pred, s: Site, env: Env, m: Machine, f: Fact)
    requires Distinct(s.vars) && Run(SitePlan(p, s), env, m).Ok?
    ensures f in Run(SitePlan(p, s), env, m).value <==>
            f.rel == s.head && f.tuple in m.full(p) && Selected(s, env, f.tuple, m)
  {
    var body := Filters(s.conds, RowInsert(s));
    var envs := BindRows(env, s.vars, m.full(p));
    RunAllOk(envs, body, m);
    RunAllFacts(envs, body, m, f);
    hide Run, EvalCond;
    if e :| e in envs && Run(body, e, m).Ok? && f in Run(body, e, m).value {
      BindRowsMember(env, s.vars, m.full(p), e);
      var row :| row in m.full(p) && |row| == |s.vars| && e == BindRow(env, s.vars, row);
      FiltersRun(s.conds, RowInsert(s), e, m);
      RowInserted(s, env, row, m);
    }
    if f.rel == s.head && f.tuple in m.full(p) && Selected(s, env, f.tuple, m) {
      var e := BindRow(env, s.vars, f.tuple);
      BindRowsMember(env, s.vars, m.full(p), e);
      FiltersRun(s.conds, RowInsert(s), e, m);
      RowInserted(s, env, f.tuple, m);
    }
  }

  lemma {:induction false} SiteLoadedRuns(p: Pred, s: Site, env: Env, m: Machine, sel: Selection)
    requires Distinct(s.vars) && TestsUnaffected(s, sel) && Run(SitePlan(p, s), env, m).Ok?
    ensures Run(SitePlan(p, s), env, Loaded(m, sel)).Ok?
    ensures forall row :: row in m.full(p) ==> (Selected(s, env, row, Loaded(m, sel)) <==> Selected(s, env, row, m))
  {
    var n, body, ps := Loaded(m, sel), Filters(s.conds, RowInsert(s)), Chosen(sel, p);
    var envs, few := BindRows(env, s.vars, m.full(p)), BindRows(env, s.vars, n.full(p));
    SiteRun(p, s, env, m);
    SiteRun(p, s, env, n);
    hide Run, EvalCond, RunAll, SitePlan;
    RunAllOk(envs, body, m);
    RunAllOk(few, body, n);
    forall e | e in few ensures Run(body, e, n).Ok? {
      BindRowsMember(env, s.vars, n.full(p), e);
      var row :| row in n.full(p) && |row| == |s.vars| && e == BindRow(env, s.vars, row);
      SelectMember(m.full(p), ps, m, row);
      BindRowsMember(env, s.vars, m.full(p), e);
      RowInserted(s, env, row, m);
      RowInserted(s, env, row, n);
      FiltersLoaded(s.conds, RowInsert(s), e, m, sel);
    }
    forall row, c | row in m.full(p) && |row| == |s.vars| && c in s.conds
      ensures EvalCond(c, BindRow(env, s.vars, row), n) == EvalCond(c, BindRow(env, s.vars, row), m)
    {
      SameCond(c, BindRow(env, s.vars, row), m, sel);
    }
  }

  /** Loading less leaves a selection alone if and only if every row that it selects passes
      the predicates with which the relation is loaded. */
  lemma {:induction false} SiteExactIff(p: Pred, s: Site, env: Env, m: Machine, sel: Selection)
    requires Distinct(s.vars) && TestsUnaffected(s, sel) && Run(SitePlan(p, s), env, m).Ok?
    ensures Run(SitePlan(p, s), env, Loaded(m, sel)) == Run(SitePlan(p, s), env, m) <==>
            forall row :: row in m.full(p) && Selected(s, env, row, m) ==> PassesAll(row, Chosen(sel, p), m)
  {
    var op, n, ps := SitePlan(p, s), Loaded(m, sel), Chosen(sel, p);
    SiteLoadedRuns(p, s, env, m, sel);
    hide Run, EvalCond, Selected, PassesAll;
    var all, few := Run(op, env, m).value, Run(op, env, n).value;
    forall f ensures f in all <==> f.rel == s.head && f.tuple in m.full(p) && Selected(s, env, f.tuple, m) {
      SiteFacts(p, s, env, m, f);
    }
    forall f ensures f in few <==> f in all && PassesAll(f.tuple, ps, m) {
      SiteFacts(p, s, env, n, f);
      SelectMember(m.full(p), ps, m, f.tuple);
    }
    if all == few {
      forall row | row in m.full(p) && Selected(s, env, row, m) ensures PassesAll(row, ps, m) {
        assert Fact(s.head, row) in few;
      }
    }
    if forall row :: row in m.full(p) && Selected(s, env, row, m) ==> PassesAll(row, ps, m) {
      assert all == few;
    }
  }

  // ----- Programs of selections -----

  function SitePlans(p: Pred, ss: seq<Site>): (r: seq<Op>)
    ensures |r| == |ss| && forall i :: 0 <= i < |ss| ==> r[i] == SitePlan(p, ss[i])
  {
    if ss == [] then [] else [SitePlan(p, ss[0])] + SitePlans(p, ss[1..])
  }

  function Extracted(s: Site): seq<ColPred> {
    CollectFilters(Filters(s.conds, RowInsert(s)), s.vars)
  }

  lemma {:induction false} ChainExtractsNothing(conds: seq<Cond>, body: Op, edb: set<Pred>, sel: Selection)
    requires body.Insert?
    ensures Extract(Filters(conds, body), edb, sel) == sel
    decreases |conds|
  {
    if conds != [] { ChainExtractsNothing(conds[1..], body, edb, sel); }
  }

  /** The predicates of all selections from the relation are put together. */
  lemma {:induction false} PlansExtract(p: Pred, ss: seq<Site>, sel: Selection, q: ColPred)
    ensures q in Chosen(ExtractAll(SitePlans(p, ss), {p}, sel), p) <==>
            q in Chosen(sel, p) || exists s :: s in ss && q in Extracted(s)
    decreases |ss|
  {
    if ss != [] {
      var s, ops := ss[0], SitePlans(p, ss);
      var next := Extend(sel, p, Extracted(s));
      ChainExtractsNothing(s.conds, RowInsert(s), {p}, next);
      assert Extract(ops[0], {p}, sel) == next && ops[1..] == SitePlans(p, ss[1..]);
      assert q in Chosen(next, p) <==> q in Chosen(sel, p) || q in Extracted(s);
      SplitHead(ss);
      PlansExtract(p, ss[1..], next, q);
    }
  }

  lemma {:induction false} OnlyRelation(p: Pred, ops: seq<Op>, sel: Selection, q: Pred)
    requires q != p && q !in sel
    ensures q !in ExtractAll(ops, {p}, sel)
    decreases |ops|
  {
    if ops != [] {
      OnlyRelationOp(p, ops[0], sel, q);
      OnlyRelation(p, ops[1..], Extract(ops[0], {p}, sel), q);
    }
  }

  lemma {:induction false} OnlyRelationOp(p: Pred, op: Op, sel: Selection, q: Pred)
    requires q != p && q !in sel
    ensures q !in Extract(op, {p}, sel)
    decreases op
  {
    match op
    case Nop =>
    case Insert(_, _) =>
    case Iterate(src, body) =>
      OnlyRelationOp(p, body, if src.rel == p then Extend(sel, p, SitePreds(src, body)) else sel, q);
    case _ => OnlyRelationOp(p, op.body, sel, q);
  }

  /** In a program of selections from one relation whose tests do not read it, pushdown
      changes nothing if and only if each row that one rule selects passes the predicates
      extracted from every rule. */
  lemma {:induction false} SelectionsExactIff(p: Pred, ss: seq<Site>, env: Env, m: Machine)
    requires forall s :: s in ss ==> Distinct(s.vars) && Run(SitePlan(p, s), env, m).Ok?
    requires forall s, c :: s in ss && c in s.conds ==> !CondReads(c, p)
    ensures var n := Loaded(m, ExtractAll(SitePlans(p, ss), {p}, map[]));
            (forall s :: s in ss ==> Run(SitePlan(p, s), env, n) == Run(SitePlan(p, s), env, m)) <==>
            (forall s, t, row ::
             s in ss && t in ss && row in m.full(p) && Selected(s, env, row, m) ==> PassesAll(row, Extracted(t), m))
  {
    var sel := ExtractAll(SitePlans(p, ss), {p}, map[]);
    var ps := Chosen(sel, p);
    forall q ensures q in ps <==> exists s :: s in ss && q in Extracted(s) { PlansExtract(p, ss, map[], q); }
    forall s | s in ss
      ensures Run(SitePlan(p, s), env, Loaded(m, sel)) == Run(SitePlan(p, s), env, m) <==>
              forall row :: row in m.full(p) && Selected(s, env, row, m) ==> PassesAll(row, ps, m)
    {
      forall q | q in sel ensures q == p { if q != p { OnlyRelation(p, SitePlans(p, ss), map[], q); assert false; } }
      assert TestsUnaffected(s, sel);
      SiteExactIff(p, s, env, m, sel);
    }
    forall row: Tuple ensures PassesAll(row, ps, m) <==> forall t :: t in ss ==> PassesAll(row, Extracted(t), m) {
      PassesTogether(ss, ps, row, m);
    }
  }

  lemma {:induction false} PassesTogether(ss: seq<Site>, ps: seq<ColPred>, row: Tuple, m: Machine)
    requires forall q :: q in ps <==> exists s :: s in ss && q in Extracted(s)
    ensures PassesAll(row, ps, m) <==> forall t :: t in ss ==> PassesAll(row, Extracted(t), m)
  {
    hide Extracted, Pushdown.Passes;
    if forall t :: t in ss ==> PassesAll(row, Extracted(t), m) {
      forall q | q in ps ensures Pushdown.Passes(row, q, m) {
        var s :| s in ss && q in Extracted(s);
        assert PassesAll(row, Extracted(s), m);
      }
    }
  }

  // ----- A program that loses a fact -----

  const E := Rel("e")
  const V := User("X")

  /** `out(X) :- e(X), X < bound.` and the same with the other orders. */
  function SideRule(order: Order, bound: int): Rule {
    Rule(Head(Rel("out"), [VarTerm(V)]),
         [Atom(E, [VarTerm(V)]), Atom(Compare(Plain, order), [VarTerm(V), ConstTerm(CNumber(bound))])])
  }

  function Side(order: Order, bound: int): Site {
    Site([V], [Cmp(OrderOp(order), OVar(V), OConst(CNumber(bound)))], Rel("out"))
  }

  function BothSides(): seq<Site> {
    [Side(OLt, 3), Side(OGt, 5)]
  }

  lemma {:induction false} SideInOrder(order: Order, bound: int)
    ensures Delayed(SideRule(order, bound).premises) == SideRule(order, bound).premises
  {
    var ps := SideRule(order, bound).premises;
    var s0 := State([], {}, []);
    var s1 := Append(s0, ps[0]);
    var s2 := Append(s1, ps[1]);
    assert Sweep([], s1) == s1 && Sweep([], s2) == s2 && Settle(s1) == s1 && Settle(s2) == s2;
    assert TermsVars([VarTerm(V)]) == {V} by { assert [VarTerm(V)][1..] == []; }
    assert TermsVars([ConstTerm(CNumber(bound))]) == {} by { assert [ConstTerm(CNumber(bound))][1..] == []; }
    assert TermsVars(ps[1].args) == {V} by { assert ps[1].args[1..] == [ConstTerm(CNumber(bound))]; }
    assert Step(ps[0], s0) == s1 && V in s1.bound && Step(ps[1], s1) == s2;
    assert ps[1..] == [ps[1]] && [ps[1]][1..] == [];
    assert Reorder([], s2) == s2 && Reorder(ps[1..], s1) == s2 && Reorder(ps, s0) == s2;
  }

  /** The planner makes a selection of each of the two rules. */
  lemma {:induction false} SidePlanned(order: Order, bound: int, hashJoin: bool)
    ensures PlanOf(SideRule(order, bound), Config(None, hashJoin)) == Ok(SitePlan(E, Side(order, bound)))
  {
    var r, cfg := SideRule(order, bound), Config(None, hashJoin);
    var ps, x, c := r.premises, VarTerm(V), ConstTerm(CNumber(bound));
    SideInOrder(order, bound);
    assert [x][1..] == [] && [x, c][1..] == [c] && [c][1..] == [] && ps[1..] == [ps[1]] && [ps[1]][1..] == [];
    assert AllFreshDistinct([x, c], {}).None? by { assert AllFreshDistinct([c], {V}).None?; }
    assert ChosenJoin([x], ps, {}, cfg).None?;
    SideTail(order, bound, cfg);
    SideScan(ps, cfg);
    assert VarOperands([V]) == [OVar(V)] by { assert [V][1..] == [] && VarOperands([]) == []; }
    var s := Side(order, bound);
    assert s.conds[1..] == [] && Filters([], RowInsert(s)) == RowInsert(s);
    assert DirectVars([x]) == {V} && {} + {V} == {V};
    assert PlanJoin(ps, {}, 0, r.head, cfg) == PlanAtom(E, [x], ps, {}, 0, r.head, cfg);
  }

  lemma {:induction false} SideScan(ps: seq<Premise>, cfg: Config)
    requires cfg.delta.None?
    ensures var x := VarTerm(V);
            && ScanVars([x], {}, 0) == ScanPlan([V], 0) && AtomSource(E, [x], {}, [V], cfg) == Scan(E, [V])
            && forall body: Planned :: ApplyConstraints([x], [V], body) == Ok(body)
  {
    var x := VarTerm(V);
    assert [x][1..] == [] && [x][..0] == [] && [V][..0] == [];
    assert ScanVars([], {V}, 0) == ScanPlan([], 0) && [V] + [] == [V];
    assert FindLookup([x], {}, 1).None? && FindLookup([x], {}, 0).None?;
    forall body: Planned ensures ApplyConstraints([x], [V], body) == Ok(body) {
      assert ApplyConstraints([], [], body) == Ok(body);
    }
  }

  lemma {:induction false} LowerOne(t: Term)
    requires t.VarTerm? || t.ConstTerm?
    ensures LowerTerms([t], 0) == LowerTerm(t, 0)
  {
    var a := LowerTerm(t, 0).value;
    assert [t][1..] == [] && LowerTerms([], 0) == Ok(Lowered([], [], 0));
    assert a.lets + [] == a.lets && a.values + [] == a.values;
  }

  lemma {:induction false} LowerTwo(t: Term, u: Term)
    requires (t.VarTerm? || t.ConstTerm?) && (u.VarTerm? || u.ConstTerm?)
    ensures LowerTerms([t, u], 0) == Ok(Lowered([], LowerTerm(t, 0).value.values + LowerTerm(u, 0).value.values, 0))
  {
    LowerOne(u);
    var a, b := LowerTerm(t, 0).value, LowerTerm(u, 0).value;
    assert [t, u][1..] == [u] && a.lets + b.lets == [];
  }

  lemma {:induction false} SideTail(order: Order, bound: int, cfg: Config)
    ensures var r := SideRule(order, bound);
            PlanJoin([r.premises[1]], {V}, 0, r.head, cfg) ==
            Ok(Planned(Filter(Cmp(OrderOp(order), OVar(V), OConst(CNumber(bound))), Insert(Rel("out"), [OVar(V)])), 0))
  {
    var r := SideRule(order, bound);
    var x, c, t := VarTerm(V), ConstTerm(CNumber(bound)), r.premises[1];
    assert [x][1..] == [] && [x, c][1..] == [c] && [c][1..] == [] && [t][1..] == [];
    LowerOne(x);
    LowerOne(c);
    LowerTwo(x, c);
    assert PlanJoin([], {V}, 0, r.head, cfg) == Ok(Planned(Insert(Rel("out"), [OVar(V)]), 0));
  }

  lemma {:induction false} SideExtracted(order: Order, bound: int)
    ensures Extracted(Side(order, bound)) == [ColPred(0, OrderOp(order), Number(bound))]
  {
    var s, p := Side(order, bound), ColPred(0, OrderOp(order), Number(bound));
    assert ColumnOf(V, [V]) == Some(0);
    assert s.conds[1..] == [] && Filters([], RowInsert(s)) == RowInsert(s) && CollectFilters(RowInsert(s), [V]) == [];
    assert [p] + [] == [p];
  }

  lemma {:induction false} SideSelects(order: Order, bound: int, n: int, m: Machine)
    ensures Selected(Side(order, bound), map[], [Number(n)], m) <==>
            Compares(OrderOp(order), Number(n), Number(bound), m)
    ensures Run(Filters(Side(order, bound).conds, RowInsert(Side(order, bound))), map[V := Number(n)], m).Ok?
  {
    var s := Side(order, bound);
    var row: Tuple := [Number(n)];
    var e: Env := map[V := Number(n)];
    assert [V][1..] == [] && row[1..] == [] && BindRow(map[], [V], row) == e;
    PairOperands(OVar(V), OConst(CNumber(bound)), e);
    assert s.conds[0] in s.conds;
    assert s.conds[1..] == [] && Filters([], RowInsert(s)) == RowInsert(s);
    RunFilter(s.conds[0], RowInsert(s), e, m);
    assert VarOperands([V]) == [OVar(V)] by { assert VarOperands([]) == []; }
    EvalOne(OVar(V), e);
  }

  /** The two rules `out(X) :- e(X), X < 3.` and `out(X) :- e(X), X > 5.`, planned, and one row
      `e(1)`: without pushdown the first inserts `out(1)`, with it nothing. */
  lemma {:induction false} TwoSitesLoseFacts(m: Machine, hashJoin: bool)
    requires m.full(E) == [[Number(1)]] && m.cmp(Number(1), Number(3)) == Less && m.cmp(Number(1), Number(5)) == Less
    ensures var ops := SitePlans(E, BothSides());
            var n := Loaded(m, ExtractAll(ops, {E}, map[]));
            && PlanOf(SideRule(OLt, 3), Config(None, hashJoin)) == Ok(ops[0])
            && PlanOf(SideRule(OGt, 5), Config(None, hashJoin)) == Ok(ops[1])
            && Run(ops[0], map[], m) == Ok({Fact(Rel("out"), [Number(1)])}) && Run(ops[0], map[], n) == Ok({})
  {
    var ss := BothSides();
    var sel := ExtractAll(SitePlans(E, ss), {E}, map[]);
    var row: Tuple, q := [Number(1)], ColPred(0, CmpOp.Gt, Number(5));
    OneRowRuns(OLt, 3, 1, m);
    SideSelects(OLt, 3, 1, m);
    SideExtracted(OGt, 5);
    assert ss[1] in ss && q in Extracted(ss[1]);
    PlansExtract(E, ss, map[], q);
    assert !Pushdown.Passes(row, q, m) && !PassesAll(row, Chosen(sel, E), m);
    OneRowLost(E, ss[0], row, m, sel);
    SidePlanned(OLt, 3, hashJoin);
    SidePlanned(OGt, 5, hashJoin);
  }

  /** A selection of the only row, which is not loaded. */
  lemma {:induction false} OneRowLost(p: Pred, s: Site, row: Tuple, m: Machine, sel: Selection)
    requires Distinct(s.vars) && TestsUnaffected(s, sel) && Run(SitePlan(p, s), map[], m).Ok?
    requires m.full(p) == [row] && Selected(s, map[], row, m) && !PassesAll(row, Chosen(sel, p), m)
    ensures Run(SitePlan(p, s), map[], m) == Ok({Fact(s.head, row)}) &&
            Run(SitePlan(p, s), map[], Loaded(m, sel)) == Ok({})
  {
    var op, n := SitePlan(p, s), Loaded(m, sel);
    SiteLoadedRuns(p, s, map[], m, sel);
    hide Run, EvalCond, Selected, PassesAll, SitePlan;
    forall f ensures f in Run(op, map[], m).value <==> f == Fact(s.head, row) { SiteFacts(p, s, map[], m, f); }
    forall f ensures f !in Run(op, map[], n).value {
      SiteFacts(p, s, map[], n, f);
      SelectMember(m.full(p), Chosen(sel, p), m, f.tuple);
    }
    assert Run(op, map[], m).value == {Fact(s.head, row)} && Run(op, map[], n).value == {};
  }

  lemma {:induction false} OneRowRuns(order: Order, bound: int, k: int, m: Machine)
    requires m.full(E) == [[Number(k)]]
    ensures Run(SitePlan(E, Side(order, bound)), map[], m).Ok?
  {
    var s := Side(order, bound);
    var body := Filters(s.conds, RowInsert(s));
    var row: Tuple := [Number(k)];
    var e: Env := map[V := Number(k)];
    SideSelects(order, bound, k, m);
    hide Run;
    assert [V][1..] == [] && row[1..] == [] && BindRow(map[], [V], row) == e;
    assert [row][1..] == [] && BindRows(map[], [V], [row]) == [e] + [] == [e];
    RunAllOk([e], body, m);
    SiteRun(E, s, map[], m);
  }
}
