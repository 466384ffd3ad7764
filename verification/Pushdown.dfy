/** Predicate pushdown: comparisons with constants that a plan applies to every row of an
    external relation are handed to the source, which loads only the rows that pass. */
module Pushdown {
  import opened Datalog
  import opened Interp
  import opened Lowering

  datatype ColPred = ColPred(col: nat, op: CmpOp, value: Value)

  type Selection = map<Pred, seq<ColPred>>

  // ----- Extraction -----

  function Flip(op: CmpOp): CmpOp {
    match op
    case Eq => Eq
    case Neq => Neq
    case Lt => Gt
    case Le => Ge
    case Gt => Lt
    case Ge => Le
  }

  /** The column of a scan variable; the last one when a name repeats. */
  function ColumnOf(v: Var, vars: seq<Var>): (r: Option<nat>)
    ensures r.Some? ==> r.value < |vars| && vars[r.value] == v && forall j :: r.value < j < |vars| ==> vars[j] != v
    ensures r.None? ==> v !in vars
  {
    if vars == [] then None
    else if vars[|vars| - 1] == v then Some(|vars| - 1)
    else ColumnOf(v, vars[..|vars| - 1])
  }

  function TryVarConst(op: CmpOp, l: Operand, r: Operand, vars: seq<Var>): Option<ColPred> {
    if l.OVar? && r.OConst? && ColumnOf(l.v, vars).Some? then
    Some(ColPred(ColumnOf(l.v, vars).value, op, ConstValue(r.c))) else None
  }

  function CondPred(c: Cond, vars: seq<Var>): Option<ColPred> {
    match c
    case Cmp(op, l, r) =>
      if TryVarConst(op, l, r, vars).Some? then TryVarConst(op, l, r, vars) else TryVarConst(Flip(op), r, l, vars)
    case _ => None
  }

  /** The predicates in the chain of filters directly under a scan. */
  function CollectFilters(op: Op, vars: seq<Var>): seq<ColPred> {
    if op.Filter? then
      (match CondPred(op.cond, vars) case Some(p) => [p] case None => []) + CollectFilters(op.body, vars)
    else []
  }

  function SitePreds(src: Source, body: Op): seq<ColPred> {
    match src
    case Scan(_, vars) => CollectFilters(body, vars)
    case ScanDelta(_, _) => []
    case IndexLookup(_, col, key, _) => if key.OConst? then [ColPred(col, CmpOp.Eq, ConstValue(key.c))] else []
  }

  function Extend(sel: Selection, rel: Pred, ps: seq<ColPred>): Selection {
    if ps == [] then sel else sel[rel := (if rel in sel then sel[rel] else []) + ps]
  }

  /** Predicates from all sites of a relation are put together. */
  function Extract(op: Op, edb: set<Pred>, sel: Selection): Selection {
    match op
    case Nop => sel
    case Insert(_, _) => sel
    case Iterate(src, body) =>
      Extract(body, edb, if src.rel in edb then Extend(sel, src.rel, SitePreds(src, body)) else sel)
    case _ => Extract(op.body, edb, sel)
  }

  function ExtractAll(ops: seq<Op>, edb: set<Pred>, sel: Selection): Selection {
    if ops == [] then sel else ExtractAll(ops[1..], edb, Extract(ops[0], edb, sel))
  }

  // ----- What is extracted -----

  /** A comparison of a scan variable with a constant is extracted, whichever side it is on, and
      no other condition. */
  lemma {:induction false} CondPredIff(c: Cond, vars: seq<Var>)
    ensures CondPred(c, vars).Some? <==>
            && c.Cmp?
            && (|| (c.left.OVar? && c.left.v in vars && c.right.OConst?)
                || (c.right.OVar? && c.right.v in vars && c.left.OConst?))
  {
  }

  /** The conditions of the filters directly under a scan. */
  function FilterChain(op: Op): seq<Cond> {
    if op.Filter? then [op.cond] + FilterChain(op.body) else []
  }

  lemma {:induction false} CollectedIff(op: Op, vars: seq<Var>, q: ColPred)
    ensures q in CollectFilters(op, vars) <==> exists c :: c in FilterChain(op) && CondPred(c, vars) == Some(q)
    decreases op
  {
    if op.Filter? {
      CollectedIff(op.body, vars, q);
      assert op.cond in FilterChain(op) && forall c :: c in FilterChain(op.body) ==> c in FilterChain(op);
      hide CondPred;
    }
  }

  /** The plan reads the source with this plan under it. */
  ghost predicate ReadsAt(op: Op, src: Source, body: Op) {
    op == Iterate(src, body) || (!op.Nop? && !op.Insert? && ReadsAt(op.body, src, body))
  }

  /** The predicates that a place yields: of a scan those of its filters, of a lookup with a
      constant its key, of a scan of the delta none. */
  ghost predicate Yields(src: Source, body: Op, q: ColPred) {
    match src
    case Scan(_, vars) => exists c :: c in FilterChain(body) && CondPred(c, vars) == Some(q)
    case ScanDelta(_, _) => false
    case IndexLookup(_, col, key, _) =>
      key.OConst? && q.col == col && q.op == CmpOp.Eq && q.value == ConstValue(key.c)
  }

  /** The predicates of a relation after extraction are those of all places that read it. */
  lemma {:induction false} ExtractIff(op: Op, edb: set<Pred>, sel: Selection, p: Pred, q: ColPred)
    ensures q in Chosen(Extract(op, edb, sel), p) <==>
            || q in Chosen(sel, p)
            || (p in edb && exists src, body :: ReadsAt(op, src, body) && src.rel == p && Yields(src, body, q))
    decreases op
  {
    if !op.Nop? && !op.Insert? {
      var next := sel;
      if op.Iterate? {
        assert ReadsAt(op, op.source, op.body);
        SiteYields(op.source, op.body, q);
        if op.source.rel in edb { next := Extend(sel, op.source.rel, SitePreds(op.source, op.body)); }
      }
      hide SitePreds, Yields;
      ExtractIff(op.body, edb, next, p, q);
      if src, body :| ReadsAt(op.body, src, body) && src.rel == p && Yields(src, body, q) {
        assert ReadsAt(op, src, body);
      }
    }
  }

  lemma {:induction false} SiteYields(src: Source, body: Op, q: ColPred)
    ensures q in SitePreds(src, body) <==> Yields(src, body, q)
  {
    if src.Scan? { CollectedIff(body, src.vars, q); }
  }

  // ----- Loading -----

  predicate Passes(row: Tuple, p: ColPred, m: Machine) {
    p.col < |row| && Compares(p.op, row[p.col], p.value, m)
  }

  predicate PassesAll(row: Tuple, ps: seq<ColPred>, m: Machine) {
    forall p :: p in ps ==> Passes(row, p, m)
  }

  function Select(rows: seq<Tuple>, ps: seq<ColPred>, m: Machine): seq<Tuple> {
    if rows == [] then [] else (if PassesAll(rows[0], ps, m) then [rows[0]] else []) + Select(rows[1..], ps, m)
  }

  function Chosen(sel: Selection, p: Pred): seq<ColPred> {
    if p in sel then sel[p] else []
  }

  /** The machine on which only the selected rows have been loaded. */
  function Loaded(m: Machine, sel: Selection): Machine {
    Machine((p: Pred) => Select(m.full(p), Chosen(sel, p), m), m.delta,
            (p: Pred, c: nat, k: Value) => Select(m.index(p, c, k), Chosen(sel, p), m),
            m.fn, m.test, m.cmp)
  }

  /** Comparing the other way round gives the opposite; an index returns rows with the key. */
  ghost predicate Regular(m: Machine) {
    && (forall a: Value, b: Value {:trigger m.cmp(a, b)} :: m.cmp(a, b) == Less <==> m.cmp(b, a) == Greater)
    && (forall p: Pred, c: nat, k: Value, row: Tuple {:trigger row in m.index(p, c, k)} ::
        row in m.index(p, c, k) ==> c < |row| && row[c] == k)
  }

  // ----- When loading less changes nothing -----

  predicate CondReads(c: Cond, p: Pred) {
    match c
    case Negation(rel, _) => rel == p
    case Not(inner) => CondReads(inner, p)
    case _ => false
  }

  /** Every read of the relation applies these predicates itself. */
  ghost predicate Applies(op: Op, p: Pred, ps: seq<ColPred>) {
    match op
    case Nop => true
    case Insert(_, _) => true
    case Filter(c, body) => (CondReads(c, p) ==> ps == []) && Applies(body, p, ps)
    case Iterate(src, body) =>
      (src.rel == p ==> forall q :: q in ps ==> q in SitePreds(src, body)) && Applies(body, p, ps)
    case HashJoin(build, _, probe, _, _, body) => (build == p || probe == p ==> ps == []) && Applies(body, p, ps)
    case _ => Applies(op.body, p, ps)
  }

  ghost predicate Justified(op: Op, sel: Selection) {
    forall p :: p in sel ==> Applies(op, p, sel[p])
  }

  lemma {:induction false} SelectAll(rows: seq<Tuple>, m: Machine)
    ensures Select(rows, [], m) == rows
    decreases |rows|
  {
    if rows != [] { SelectAll(rows[1..], m); }
  }

  lemma {:induction false} FlipMeans(op: CmpOp, a: Value, b: Value, m: Machine)
    requires Regular(m)
    ensures Compares(Flip(op), b, a, m) == Compares(op, a, b, m)
  {
    assert m.cmp(a, b) == Less <==> m.cmp(b, a) == Greater;
    assert m.cmp(b, a) == Less <==> m.cmp(a, b) == Greater;
  }

  /** A variable of the scan has the value of its last column. */
  lemma {:induction false} BoundColumn(env: Env, vars: seq<Var>, row: Tuple, v: Var)
    requires |vars| == |row| && ColumnOf(v, vars).Some?
    ensures var e := BindRow(env, vars, row); v in e && e[v] == row[ColumnOf(v, vars).value]
    decreases |vars|
  {
    var i := ColumnOf(v, vars).value;
    if |vars| == 1 {
      assert vars[1..] == [] && BindRow(env[vars[0] := row[0]], [], row[1..]) == env[vars[0] := row[0]];
    } else if i > 0 {
      LaterColumn(v, vars);
      BoundColumn(env[vars[0] := row[0]], vars[1..], row[1..], v);
    } else {
      assert v !in vars[1..];
      Untouched(env[vars[0] := row[0]], vars[1..], row[1..], v);
    }
  }

  lemma {:induction false} LaterColumn(v: Var, vars: seq<Var>)
    requires |vars| > 1 && ColumnOf(v, vars).Some? && ColumnOf(v, vars).value > 0
    ensures ColumnOf(v, vars[1..]) == Some(ColumnOf(v, vars).value - 1)
  {
    var i, rest := ColumnOf(v, vars).value, vars[1..];
    assert rest[i - 1] == v;
    var j := ColumnOf(v, rest).value;
    assert rest[j] == vars[j + 1];
    assert vars[j + 1] == v;
    assert j + 1 <= i && i - 1 <= j;
  }

  lemma {:induction false} Untouched(env: Env, vars: seq<Var>, row: Tuple, v: Var)
    requires |vars| == |row| && v !in vars && v in env
    ensures var e := BindRow(env, vars, row); v in e && e[v] == env[v]
    decreases |vars|
  {
    if vars != [] { Untouched(env[vars[0] := row[0]], vars[1..], row[1..], v); }
  }

  lemma {:induction false} CondPredMeans(c: Cond, vars: seq<Var>, env: Env, row: Tuple, m: Machine)
    requires |vars| == |row| && CondPred(c, vars).Some? && Regular(m)
    ensures EvalCond(c, BindRow(env, vars, row), m) == Ok(Passes(row, CondPred(c, vars).value, m))
  {
    var e := BindRow(env, vars, row);
    PairOperands(c.left, c.right, e);
    if TryVarConst(c.op, c.left, c.right, vars).Some? {
      BoundColumn(env, vars, row, c.left.v);
    } else {
      BoundColumn(env, vars, row, c.right.v);
      var p := TryVarConst(Flip(c.op), c.right, c.left, vars).value;
      FlipMeans(c.op, ConstValue(c.left.c), row[p.col], m);
    }
  }

  /** A row that fails one of the collected predicates inserts nothing. */
  lemma {:induction false} FailingRow(op: Op, vars: seq<Var>, env: Env, row: Tuple, p: ColPred, m: Machine)
    requires |vars| == |row| && p in CollectFilters(op, vars) && !Passes(row, p, m) && Regular(m)
    requires Run(op, BindRow(env, vars, row), m).Ok?
    ensures Run(op, BindRow(env, vars, row), m).value == {}
    decreases op
  {
    var e := BindRow(env, vars, row);
    RunFilter(op.cond, op.body, e, m);
    if CondPred(op.cond, vars).Some? { CondPredMeans(op.cond, vars, env, row, m); }
    if EvalCond(op.cond, e, m).value { FailingRow(op.body, vars, env, row, p, m); }
  }

  lemma {:induction false} SameCond(c: Cond, env: Env, m: Machine, sel: Selection)
    requires forall p :: p in sel && CondReads(c, p) ==> sel[p] == []
    ensures EvalCond(c, env, Loaded(m, sel)) == EvalCond(c, env, m)
    decreases c
  {
    match c
    case Negation(rel, _) => SelectAll(m.full(rel), m);
    case Not(inner) => SameCond(inner, env, m, sel);
    case _ =>
  }

  /** Rows that insert nothing may stay away. */
  lemma {:induction false} RowsLoaded(rows: seq<Tuple>, ps: seq<ColPred>, vars: seq<Var>, body: Op, env: Env,
      m: Machine, sel: Selection)
    requires RunAll(BindRows(env, vars, rows), body, m).Ok?
    requires forall e: Env :: Run(body, e, m).Ok? ==> Run(body, e, Loaded(m, sel)) == Run(body, e, m)
    requires forall row: Tuple ::
             row in rows && |row| == |vars| && !PassesAll(row, ps, m) && Run(body, BindRow(env, vars, row), m).Ok? ==>
      Run(body, BindRow(env, vars, row), m).value == {}
    ensures RunAll(BindRows(env, vars, Select(rows, ps, m)), body, Loaded(m, sel)) ==
            RunAll(BindRows(env, vars, rows), body, m)
    decreases |rows|
  {
    hide Run, Passes, PassesAll, Loaded;
    if rows != [] {
      var row, rest, kept := rows[0], rows[1..], Select(rows[1..], ps, m);
      assert Select(rows, ps, m) == if PassesAll(row, ps, m) then [row] + kept else kept;
      hide RunAll, BindRows, Select;
      assert row in rows && [row] + rest == rows && forall x :: x in rest ==> x in rows;
      BindRowsCons(env, vars, row, rest);
      if |row| == |vars| { HeadRuns(BindRows(env, vars, rows), body, m); }
      RowsLoaded(rest, ps, vars, body, env, m, sel);
      OneRowLoaded(row, rest, kept, PassesAll(row, ps, m), vars, body, env, m, Loaded(m, sel));
    }
  }

  /** One more row in front, on both sides or, when its plan inserts nothing, on one. */
  lemma {:induction false} OneRowLoaded(row: Tuple, rest: seq<Tuple>, kept: seq<Tuple>, keep: bool, vars: seq<Var>,
      body: Op, env: Env, m: Machine, n: Machine)
    requires RunAll(BindRows(env, vars, kept), body, n) == RunAll(BindRows(env, vars, rest), body, m)
    requires |row| == |vars| ==>
             var one := Run(body, BindRow(env, vars, row), m);
             one.Ok? && (if keep then Run(body, BindRow(env, vars, row), n) == one else one.value == {})
    ensures RunAll(BindRows(env, vars, if keep then [row] + kept else kept), body, n) ==
            RunAll(BindRows(env, vars, [row] + rest), body, m)
  {
    hide Run, RunAll, BindRows;
    BindRowsCons(env, vars, row, rest);
    BindRowsCons(env, vars, row, kept);
    if |row| == |vars| {
      var all, few := BindRows(env, vars, [row] + rest), BindRows(env, vars, [row] + kept);
      if keep { SameHead(all, few, body, m, n); } else { EmptyHead(all, body, m); }
    }
  }

  lemma {:induction false} HeadRuns(all: seq<Env>, body: Op, m: Machine)
    requires all != [] && RunAll(all, body, m).Ok?
    ensures Run(body, all[0], m).Ok? && RunAll(all[1..], body, m).Ok?
  {
  }

  lemma {:induction false} EmptyHead(all: seq<Env>, body: Op, m: Machine)
    requires all != [] && Run(body, all[0], m) == Ok({})
    ensures RunAll(all, body, m) == RunAll(all[1..], body, m)
  {
    if RunAll(all[1..], body, m).Ok? {
      assert {} + RunAll(all[1..], body, m).value == RunAll(all[1..], body, m).value;
    }
  }

  lemma {:induction false} SameHead(all: seq<Env>, few: seq<Env>, body: Op, m: Machine, n: Machine)
    requires all != [] && few != [] && all[0] == few[0] && Run(body, few[0], n) == Run(body, all[0], m)
    requires RunAll(few[1..], body, n) == RunAll(all[1..], body, m)
    ensures RunAll(few, body, n) == RunAll(all, body, m)
  {
  }

  lemma {:induction false} BindRowsCons(env: Env, vars: seq<Var>, row: Tuple, rest: seq<Tuple>)
    ensures var all := BindRows(env, vars, [row] + rest);
            if |row| == |vars| then
              all != [] && all[0] == BindRow(env, vars, row) && all[1..] == BindRows(env, vars, rest)
            else all == BindRows(env, vars, rest)
  {
    assert ([row] + rest)[0] == row && ([row] + rest)[1..] == rest;
  }

  lemma {:induction false} ElemsLoaded(envs: seq<Env>, body: Op, m: Machine, sel: Selection)
    requires RunAll(envs, body, m).Ok?
    requires forall e: Env :: Run(body, e, m).Ok? ==> Run(body, e, Loaded(m, sel)) == Run(body, e, m)
    ensures RunAll(envs, body, Loaded(m, sel)) == RunAll(envs, body, m)
    decreases |envs|
  {
    if envs != [] { ElemsLoaded(envs[1..], body, m, sel); }
  }

  /** A plan whose every read applies the predicates itself inserts the same facts when only
      the rows that pass have been loaded. */
  lemma {:induction false} LoadedRuns(op: Op, env: Env, m: Machine, sel: Selection)
    requires Justified(op, sel) && Regular(m) && Run(op, env, m).Ok?
    ensures Run(op, env, Loaded(m, sel)) == Run(op, env, m)
    decreases op
  {
    if !op.Nop? && !op.Insert? {
      var body := op.body;
      assert Justified(body, sel) by {
        forall p | p in sel ensures Applies(body, p, sel[p]) { assert Applies(op, p, sel[p]); }
      }
      forall e: Env | Run(body, e, m).Ok?
        ensures Run(body, e, Loaded(m, sel)) == Run(body, e, m) { LoadedRuns(body, e, m, sel); }
      if op.Iterate? {
        SiteLoaded(op.source, body, env, m, sel);
      } else {
        SameBranches(op, env, m, sel);
        ElemsLoaded(Branches(op, env, m).value, body, m, sel);
      }
    }
  }

  lemma {:induction false} SameBranches(op: Op, env: Env, m: Machine, sel: Selection)
    requires !op.Nop? && !op.Insert? && !op.Iterate? && Justified(op, sel)
    ensures Branches(op, env, Loaded(m, sel)) == Branches(op, env, m)
  {
    match op
    case Filter(c, _) =>
      forall p | p in sel && CondReads(c, p) ensures sel[p] == [] { assert Applies(op, p, sel[p]); }
      SameCond(c, env, m, sel);
    case HashJoin(build, _, probe, _, _, _) =>
      if build in sel { assert Applies(op, build, sel[build]); }
      if probe in sel { assert Applies(op, probe, sel[probe]); }
      SelectAll(m.full(build), m);
      SelectAll(m.full(probe), m);
    case _ =>
  }

  lemma {:induction false} SelectKeeps(rows: seq<Tuple>, ps: seq<ColPred>, m: Machine)
    requires forall row :: row in rows ==> PassesAll(row, ps, m)
    ensures Select(rows, ps, m) == rows
    decreases |rows|
  {
    if rows != [] {
      assert rows[0] in rows;
      SelectKeeps(rows[1..], ps, m);
    }
  }

  /** One scan of a relation. */
  lemma {:induction false} SiteLoaded(src: Source, body: Op, env: Env, m: Machine, sel: Selection)
    requires Justified(Iterate(src, body), sel) && Regular(m) && Run(Iterate(src, body), env, m).Ok?
    requires forall e: Env :: Run(body, e, m).Ok? ==> Run(body, e, Loaded(m, sel)) == Run(body, e, m)
    ensures Run(Iterate(src, body), env, Loaded(m, sel)) == Run(Iterate(src, body), env, m)
  {
    var ps := Chosen(sel, src.rel);
    if src.rel in sel { assert Applies(Iterate(src, body), src.rel, sel[src.rel]); }
    var rows := SourceRows(src, env, m).value;
    match src
    case Scan(rel, vars) =>
      forall row: Tuple | row in rows && |row| == |vars| && !PassesAll(row, ps, m) &&
      Run(body, BindRow(env, vars, row), m).Ok?
        ensures Run(body, BindRow(env, vars, row), m).value == {}
      {
        var p :| p in ps && !Passes(row, p, m);
        FailingRow(body, vars, env, row, p, m);
      }
      RowsLoaded(rows, ps, vars, body, env, m, sel);
    case ScanDelta(_, vars) => ElemsLoaded(BindRows(env, vars, rows), body, m, sel);
    case IndexLookup(rel, col, key, vars) =>
      forall row | row in rows ensures PassesAll(row, ps, m) {
        assert row in m.index(rel, col, EvalOperand(key, env).value);
      }
      SelectKeeps(rows, ps, m);
      ElemsLoaded(BindRows(env, vars, rows), body, m, sel);
  }

  // ----- Relations read at one place -----

  function CondSites(c: Cond, p: Pred): nat {
    if CondReads(c, p) then 1 else 0
  }

  /** How many places of the plan read the relation. */
  function Sites(op: Op, p: Pred): nat {
    match op
    case Nop => 0
    case Insert(_, _) => 0
    case Filter(c, body) => CondSites(c, p) + Sites(body, p)
    case Iterate(src, body) => (if src.rel == p then 1 else 0) + Sites(body, p)
    case HashJoin(build, _, probe, _, _, body) =>
      (if build == p then 1 else 0) + (if probe == p then 1 else 0) + Sites(body, p)
    case _ => Sites(op.body, p)
  }

  function AllSites(ops: seq<Op>, p: Pred): nat {
    if ops == [] then 0 else Sites(ops[0], p) + AllSites(ops[1..], p)
  }

  lemma {:induction false} NoSite(op: Op, p: Pred, ps: seq<ColPred>, edb: set<Pred>, sel: Selection)
    requires Sites(op, p) == 0
    ensures Applies(op, p, ps) && Chosen(Extract(op, edb, sel), p) == Chosen(sel, p)
    decreases op
  {
    match op
    case Nop =>
    case Insert(_, _) =>
    case Iterate(src, body) =>
      NoSite(body, p, ps, edb, if src.rel in edb then Extend(sel, src.rel, SitePreds(src, body)) else sel);
    case _ => NoSite(op.body, p, ps, edb, sel);
  }

  lemma {:induction false} OneSite(op: Op, p: Pred, edb: set<Pred>, sel: Selection)
    requires Sites(op, p) <= 1 && Chosen(sel, p) == []
    ensures Applies(op, p, Chosen(Extract(op, edb, sel), p))
    decreases op
  {
    match op
    case Nop =>
    case Insert(_, _) =>
    case Iterate(src, body) =>
      var next := if src.rel in edb then Extend(sel, src.rel, SitePreds(src, body)) else sel;
      if src.rel == p {
        NoSite(body, p, Chosen(Extract(body, edb, next), p), edb, next);
      } else {
        OneSite(body, p, edb, next);
      }
    case _ =>
      if Sites(op.body, p) == 0 {
        NoSite(op.body, p, Chosen(Extract(op.body, edb, sel), p), edb, sel);
      } else {
        OneSite(op.body, p, edb, sel);
      }
  }

  lemma {:induction false} NoSites(ops: seq<Op>, p: Pred, ps: seq<ColPred>, edb: set<Pred>, sel: Selection)
    requires AllSites(ops, p) == 0
    ensures (forall op :: op in ops ==> Applies(op, p, ps)) && Chosen(ExtractAll(ops, edb, sel), p) == Chosen(sel, p)
    decreases |ops|
  {
    if ops != [] {
      NoSite(ops[0], p, ps, edb, sel);
      NoSites(ops[1..], p, ps, edb, Extract(ops[0], edb, sel));
    }
  }

  lemma {:induction false} OneSiteInAll(ops: seq<Op>, p: Pred, edb: set<Pred>, sel: Selection)
    requires AllSites(ops, p) <= 1 && Chosen(sel, p) == []
    ensures forall op :: op in ops ==> Applies(op, p, Chosen(ExtractAll(ops, edb, sel), p))
    decreases |ops|
  {
    if ops != [] {
      var next := Extract(ops[0], edb, sel);
      if Sites(ops[0], p) == 1 {
        OneSite(ops[0], p, edb, sel);
        NoSites(ops[1..], p, Chosen(next, p), edb, next);
      } else {
        NoSite(ops[0], p, Chosen(ExtractAll(ops, edb, sel), p), edb, sel);
        OneSiteInAll(ops[1..], p, edb, next);
      }
    }
  }

  /** When each relation with extracted predicates is read at one place only, loading the rows
      that pass changes no inserted fact. */
  lemma {:induction false} PushdownSafe(ops: seq<Op>, edb: set<Pred>, m: Machine, op: Op, env: Env)
    requires forall p :: p in ExtractAll(ops, edb, map[]) ==> AllSites(ops, p) <= 1
    requires Regular(m) && op in ops && Run(op, env, m).Ok?
    ensures Run(op, env, Loaded(m, ExtractAll(ops, edb, map[]))) == Run(op, env, m)
  {
    var sel := ExtractAll(ops, edb, map[]);
    forall p | p in sel ensures Applies(op, p, sel[p]) { OneSiteInAll(ops, p, edb, map[]); }
    LoadedRuns(op, env, m, sel);
  }
}
