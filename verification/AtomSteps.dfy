/** Relation atoms: scans, index lookups and delta scans with their filters, and hash joins. */
module AtomSteps {
  import opened Datalog
  import opened Interp
  import opened Planner
  import opened Lowering
  import opened PlanCorrect

  // ----- The rows of an atom -----

  /** The environment after binding a row, and what it says about the row. */
  ghost predicate RowEnv(e: Env, row: Tuple, vars: seq<Var>, args: seq<Term>, bound: set<Var>, env: Env) {
    && |row| == |vars| == |args|
    && e == BindRow(env, vars, row)
    && Fits(e, bound + DirectVars(args))
    && (forall v: Var :: v in env && v !in vars ==> v in e && e[v] == env[v])
    && (forall i :: 0 <= i < |vars| ==> vars[i] in e && e[vars[i]] == row[i])
  }

  lemma {:induction false} MakeRowEnv(row: Tuple, args: seq<Term>, bound: set<Var>, k: nat, env: Env)
    requires |row| == |args| && UserVars(TermsVars(args)) && Fits(env, bound)
    ensures var vars := ScanVars(args, bound, k).vars;
            RowEnv(BindRow(env, vars, row), row, vars, args, bound, env)
  {
    var s := ScanVars(args, bound, k);
    var e := BindRow(env, s.vars, row);
    ScanVarsShape(args, bound, k);
    DirectAreVars(args);
    BindRowKeys(env, s.vars, row);
    forall i | 0 <= i < |s.vars| ensures s.vars[i] in e && e[s.vars[i]] == row[i] {
      BindRowAt(env, s.vars, row, i);
    }
    forall v: Var | v.User? ensures v in e <==> v in bound + DirectVars(args) {
      if v in s.vars {
        var i :| 0 <= i < |s.vars| && s.vars[i] == v;
        assert args[i] == VarTerm(v);
      }
    }
  }

  /** An assignment that extends the row's environment gives the arguments the row's values. */
  lemma {:induction false} RowArgs(e: Env, row: Tuple, vars: seq<Var>, args: seq<Term>, bound: set<Var>, env: Env,
      sigma: Env, m: Machine)
    requires RowEnv(e, row, vars, args, bound, env) && UserVars(TermsVars(args)) &&
             TermsVars(args) <= bound + DirectVars(args)
    requires Extends(sigma, e)
    ensures (forall v :: v in vars ==> v in e)
    ensures Passes(args, vars, e, m) <==> EvalTerms(args, sigma, m) == Ok(row)
  {
    DirectAreVars(args);
    forall i | 0 <= i < |args| ensures EvalTerm(args[i], sigma, m) == EvalTerm(args[i], e, m) {
      EvalTermAgree(args[i], sigma, e, m);
    }
    forall v | v in vars ensures v in e {
      var i :| 0 <= i < |vars| && vars[i] == v;
    }
    if Passes(args, vars, e, m) {
      EvalTermsFrom(args, sigma, m, row);
    }
    if EvalTerms(args, sigma, m) == Ok(row) {
      forall i | 0 <= i < |args| ensures EvalTerm(args[i], e, m) == Ok(e[vars[i]]) {
        EvalTermsAt(args, sigma, m, i);
      }
    }
  }

  /** An assignment that extends the environment and evaluates the arguments to a row
      extends the row's environment. */
  lemma {:induction false} RowExtends(row: Tuple, args: seq<Term>, bound: set<Var>, k: nat, env: Env, sigma: Env,
      m: Machine)
    requires UserVars(TermsVars(args)) && Fits(env, bound) && Extends(sigma, env) &&
             EvalTerms(args, sigma, m) == Ok(row)
    ensures Extends(sigma, BindRow(env, ScanVars(args, bound, k).vars, row))
  {
    var vars := ScanVars(args, bound, k).vars;
    var e := BindRow(env, vars, row);
    ScanVarsShape(args, bound, k);
    BindRowKeys(env, vars, row);
    forall v: Var | v.User? && v in e ensures v in sigma && sigma[v] == e[v] {
      if v in vars {
        var i :| 0 <= i < |vars| && vars[i] == v;
        BindRowAt(env, vars, row, i);
        EvalTermsAt(args, sigma, m, i);
      }
    }
  }

  /** Whatever the access path, the rows come from the atom's table and include every row
      that the arguments can match. */
  lemma {:induction false} SourceCovers(p: Premise, bound: set<Var>, vars: seq<Var>, env: Env, cfg: Config, m: Machine)
      returns (rows: seq<Tuple>)
    requires p.Atom? && p.pred.IsRelation() && UserVars(TermsVars(p.args)) && Fits(env, bound) && m.IndexSound()
    ensures SourceRows(AtomSource(p.pred, p.args, bound, vars, cfg), env, m) == Ok(rows)
    ensures forall row :: row in rows ==> row in RowsFor(p, bound, cfg.delta, m)
    ensures forall row, sigma {:trigger EvalTerms(p.args, sigma, m), row in rows} ::
              row in RowsFor(p, bound, cfg.delta, m) && Extends(sigma, env) &&
              EvalTerms(p.args, sigma, m) == Ok(row) ==>
              row in rows
  {
    var look := FindLookup(p.args, bound, 0);
    DirectAreVars(p.args);
    if look.None? {
      rows := RowsFor(p, bound, cfg.delta, m);
    } else {
      var c := look.value.col;
      if p.args[c].VarTerm? { assert p.args[c].v in TermsVars(p.args); }
      var key := EvalOperand(look.value.key, env).value;
      rows := m.index(p.pred, c, key);
      forall row, sigma | row in m.full(p.pred) && Extends(sigma, env) && EvalTerms(p.args, sigma, m) == Ok(row)
        ensures row in rows
      {
        EvalTermsAt(p.args, sigma, m, c);
        assert row[c] == key;
      }
    }
  }

  // ----- Scans with filters -----

  /** The filtered body of a scan inserts what is derivable from the row, if the row matches. */
  lemma {:induction false} RowCorrect(e: Env, row: Tuple, scan: ScanPlan, args: seq<Term>, env: Env, body: Planned,
      inner: Planned,
                                      rest: seq<Premise>, bound: set<Var>, h: Head, delta: Option<Pred>, m: Machine)
    requires RowEnv(e, row, scan.vars, args, bound, env)
    requires UserVars(TermsVars(args)) && TermsVars(args) <= bound + DirectVars(args)
    requires forall v :: v in scan.vars ==> v in e && !(v.Fresh? && v.id >= scan.next)
    requires scan.next <= body.next && ApplyConstraints(args, scan.vars, body) == Ok(inner)
    requires RestCorrect(body.op, rest, bound + DirectVars(args), h, delta, m)
    ensures m.Total() ==> Run(inner.op, e, m).Ok?
    ensures Run(inner.op, e, m).Ok? ==>
              forall f :: f in Run(inner.op, e, m).value <==>
                          Passes(args, scan.vars, e, m) && Derivable(rest, bound + DirectVars(args), h, e, delta, f, m)
  {
    var bound' := bound + DirectVars(args);
    var e' := ConstraintsRun(args, scan.vars, body, e, m);
    assert SameUser(e, e');
    assert Fits(e', bound');
    assert Correct(body.op, rest, bound', h, e', delta, m);
    forall f { DerivableSame(rest, bound', h, e, e', delta, f, m); }
  }

  ghost predicate RowDerives(row: Tuple, vars: seq<Var>, args: seq<Term>, env: Env, rest: seq<Premise>,
      bound': set<Var>, h: Head, delta: Option<Pred>, f: Fact, m: Machine) {
    && |row| == |vars| == |args|
    && (forall v :: v in vars ==> v in BindRow(env, vars, row))
    && Passes(args, vars, BindRow(env, vars, row), m)
    && Derivable(rest, bound', h, BindRow(env, vars, row), delta, f, m)
  }

  /** What is derivable with the atom first is derivable from one of its rows. */
  lemma {:induction false} AtomSplit(ps: seq<Premise>, bound: set<Var>, k: nat, rows: seq<Tuple>, h: Head, env: Env,
      delta: Option<Pred>, f: Fact, m: Machine)
    requires ps != [] && ps[0].Atom? && ps[0].pred.IsRelation() && UserVars(PremiseVars(ps[0])) &&
             Ready(ps[0], bound) && Fits(env, bound)
    requires forall row :: row in rows ==> row in RowsFor(ps[0], bound, delta, m)
    requires forall row, sigma {:trigger EvalTerms(ps[0].args, sigma, m), row in rows} ::
               row in RowsFor(ps[0], bound, delta, m) && Extends(sigma, env) &&
               EvalTerms(ps[0].args, sigma, m) == Ok(row) ==>
               row in rows
    ensures Derivable(ps, bound, h, env, delta, f, m) <==>
            exists row :: row in rows &&
              RowDerives(row, ScanVars(ps[0].args, bound, k).vars, ps[0].args, env, ps[1..], BoundAfter(ps[0], bound),
                         h, delta, f, m)
  {
    var args, vars, rest, bound' := ps[0].args, ScanVars(ps[0].args, bound, k).vars, ps[1..], BoundAfter(ps[0], bound);
    if Derivable(ps, bound, h, env, delta, f, m) {
      var sigma :| Completes(sigma, ps, bound, h, env, delta, f, m);
      var row := EvalTerms(args, sigma, m).value;
      assert row in rows;
      MakeRowEnv(row, args, bound, k, env);
      RowExtends(row, args, bound, k, env, sigma, m);
      var e := BindRow(env, vars, row);
      RowArgs(e, row, vars, args, bound, env, sigma, m);
      assert Completes(sigma, rest, bound', h, e, delta, f, m);
      assert RowDerives(row, vars, args, env, rest, bound', h, delta, f, m);
    }
    if row :| row in rows && RowDerives(row, vars, args, env, rest, bound', h, delta, f, m) {
      var e := BindRow(env, vars, row);
      var sigma :| Completes(sigma, rest, bound', h, e, delta, f, m);
      MakeRowEnv(row, args, bound, k, env);
      RowArgs(e, row, vars, args, bound, env, sigma, m);
      ScanVarsShape(args, bound, k);
      assert Extends(sigma, env);
      assert Completes(sigma, ps, bound, h, env, delta, f, m);
    }
  }

  lemma {:induction false} AtomStep(k: nat, body: Planned, inner: Planned, ps: seq<Premise>, bound: set<Var>, h: Head,
      env: Env, cfg: Config, m: Machine)
    requires ps != [] && ps[0].Atom? && ps[0].pred.IsRelation() && UserVars(PremiseVars(ps[0])) && Ready(ps[0], bound)
    requires Fits(env, bound) && m.IndexSound()
    requires ScanVars(ps[0].args, bound, k).next <= body.next
    requires ApplyConstraints(ps[0].args, ScanVars(ps[0].args, bound, k).vars, body) == Ok(inner)
    requires RestCorrect(body.op, ps[1..], BoundAfter(ps[0], bound), h, cfg.delta, m)
    ensures Correct(Iterate(AtomSource(ps[0].pred, ps[0].args, bound, ScanVars(ps[0].args, bound, k).vars, cfg),
                            inner.op),
                    ps, bound, h, env, cfg.delta, m)
  {
    var args, scan, rest, bound' := ps[0].args, ScanVars(ps[0].args, bound, k), ps[1..], BoundAfter(ps[0], bound);
    var op := Iterate(AtomSource(ps[0].pred, args, bound, scan.vars, cfg), inner.op);
    var rows := SourceCovers(ps[0], bound, scan.vars, env, cfg, m);
    assert op.source.vars == scan.vars;
    var envs := BindRows(env, scan.vars, rows);
    assert Branches(op, env, m) == Ok(envs);
    ScanVarsShape(args, bound, k);
    forall row | |row| == |args|
      ensures var e := BindRow(env, scan.vars, row);
              && (forall v :: v in scan.vars ==> v in e)
              && (m.Total() ==> Run(inner.op, e, m).Ok?)
              && (Run(inner.op, e, m).Ok? ==>
                    forall f :: f in Run(inner.op, e, m).value <==>
                                Passes(args, scan.vars, e, m) && Derivable(rest, bound', h, e, cfg.delta, f, m))
    {
      var e := BindRow(env, scan.vars, row);
      MakeRowEnv(row, args, bound, k, env);
      forall v | v in scan.vars ensures v in e && !(v.Fresh? && v.id >= scan.next) {
        var i :| 0 <= i < |scan.vars| && scan.vars[i] == v;
      }
      RowCorrect(e, row, scan, args, env, body, inner, rest, bound, h, cfg.delta, m);
    }
    forall e
      ensures e in envs <==> exists row :: row in rows && |row| == |scan.vars| && e == BindRow(env, scan.vars, row)
    {
      BindRowsMember(env, scan.vars, rows, e);
    }
    RunAllOk(envs, inner.op, m);
    if Run(op, env, m).Ok? {
      forall f ensures f in Run(op, env, m).value <==> Derivable(ps, bound, h, env, cfg.delta, f, m) {
        RunAllFacts(envs, inner.op, m, f);
        AtomSplit(ps, bound, k, rows, h, env, cfg.delta, f, m);
        if e :| e in envs && Run(inner.op, e, m).Ok? && f in Run(inner.op, e, m).value {
          var row :| row in rows && |row| == |scan.vars| && e == BindRow(env, scan.vars, row);
          assert RowDerives(row, scan.vars, args, env, rest, bound', h, cfg.delta, f, m);
        }
        if row :| row in rows && RowDerives(row, scan.vars, args, env, rest, bound', h, cfg.delta, f, m) {
          var e := BindRow(env, scan.vars, row);
          assert e in envs && Run(inner.op, e, m).Ok? && f in Run(inner.op, e, m).value;
        }
      }
    }
  }

  // ----- Hash joins -----

  lemma {:induction false} AllFreshShape(args: seq<Term>, bound: set<Var>)
    requires AllFreshDistinct(args, bound).Some?
    ensures var vs := AllFreshDistinct(args, bound).value;
            && Distinct(vs)
            && (forall i :: 0 <= i < |vs| ==> args[i] == VarTerm(vs[i]) && vs[i] !in bound)
            && VarSet(vs) == DirectVars(args) == TermsVars(args)
    decreases |args|
  {
    if args != [] {
      AllFreshShape(args[1..], bound + {args[0].v});
      var rest := AllFreshDistinct(args[1..], bound + {args[0].v}).value;
      assert args[0].v !in rest;
      assert VarSet([args[0].v] + rest) == {args[0].v} + VarSet(rest);
    } else {
      assert VarSet([]) == {};
    }
  }

  /** All arguments are distinct unbound variables. */
  ghost predicate PlainAtom(args: seq<Term>, vs: seq<Var>, bound: set<Var>) {
    && |vs| == |args| && Distinct(vs)
    && (forall i :: 0 <= i < |vs| ==> args[i] == VarTerm(vs[i]) && vs[i] !in bound && vs[i].User?)
  }

  lemma {:induction false} PlainArgs(args: seq<Term>, vs: seq<Var>, bound: set<Var>, sigma: Env, row: Tuple, m: Machine)
    requires PlainAtom(args, vs, bound) && |row| == |vs|
    ensures EvalTerms(args, sigma, m) == Ok(row) <==>
            forall i :: 0 <= i < |vs| ==> vs[i] in sigma && sigma[vs[i]] == row[i]
  {
    if EvalTerms(args, sigma, m) == Ok(row) {
      forall i | 0 <= i < |vs| ensures vs[i] in sigma && sigma[vs[i]] == row[i] {
        EvalTermsAt(args, sigma, m, i);
      }
    } else if forall i :: 0 <= i < |vs| ==> vs[i] in sigma && sigma[vs[i]] == row[i] {
      EvalTermsFrom(args, sigma, m, row);
    }
  }

  /** An assignment extends the joined environment exactly when it gives both atoms their rows. */
  lemma {:induction false} JoinExtends(build: seq<Var>, b: Tuple, probe: seq<Var>, p: Tuple, keys: seq<Var>, env: Env,
      e: Env, bound: set<Var>, sigma: Env)
    requires Distinct(build) && Distinct(probe) && Fits(env, bound)
    requires forall v :: v in build || v in probe ==> v !in bound && v.User?
    requires forall v :: v in keys <==> v in build && v in probe
    requires Joins(env, keys, build, b, probe, p, e)
    ensures Extends(sigma, e) <==>
            && Extends(sigma, env)
            && (forall i :: 0 <= i < |build| ==> build[i] in sigma && sigma[build[i]] == b[i])
            && (forall i :: 0 <= i < |probe| ==> probe[i] in sigma && sigma[probe[i]] == p[i])
    ensures Fits(e, bound + VarSet(build) + VarSet(probe))
  {
    JoinValues(build, b, probe, p, keys, env, e);
    assert forall v: Var :: v in e && v.User? ==> v in env || v in build || v in probe;
    assert forall v: Var :: v in env && v.User? ==> e[v] == env[v];
    if Extends(sigma, e) {
      assert Extends(sigma, env);
    }
  }

  lemma {:induction false} JoinValues(build: seq<Var>, b: Tuple, probe: seq<Var>, p: Tuple, keys: seq<Var>, env: Env,
      e: Env)
    requires Distinct(build) && Distinct(probe)
    requires forall v :: v in keys <==> v in build && v in probe
    requires Joins(env, keys, build, b, probe, p, e)
    ensures forall v :: v in e <==> v in env || v in build || v in probe
    ensures forall v :: v in env && v !in build && v !in probe ==> e[v] == env[v]
    ensures forall i :: 0 <= i < |build| ==> e[build[i]] == b[i]
    ensures forall i :: 0 <= i < |probe| ==> e[probe[i]] == p[i]
  {
    var mid := BindRow(env, probe, p);
    BindRowKeys(env, probe, p);
    BindRowKeys(mid, build, b);
    forall i | 0 <= i < |build| ensures build[i] in e && e[build[i]] == b[i] {
      BindRowAt(mid, build, b, i);
    }
    forall i | 0 <= i < |probe| ensures probe[i] in e && e[probe[i]] == p[i] {
      BindRowAt(env, probe, p, i);
      if probe[i] in build {
        var j :| 0 <= j < |keys| && keys[j] == probe[i];
        assert KeyOf(keys, build, b)[j] == KeyOf(keys, probe, p)[j];
        assert Position(keys[j], probe) == i;
        assert e[probe[i]] == b[Position(keys[j], build)];
      }
    }
  }

  ghost predicate JoinReady(j: JoinPlan, ps: seq<Premise>, bound: set<Var>) {
    && |ps| >= 2 && ps[0].Atom? && ps[1].Atom? && ps[0].pred.IsRelation() && ps[1].pred.IsRelation()
    && PlainAtom(ps[0].args, j.build, bound) && PlainAtom(ps[1].args, j.probe, bound) && j.probeRel == ps[1].pred
    && (forall v :: v in j.keys <==> v in j.build && v in j.probe)
    && BoundAfter(ps[1], BoundAfter(ps[0], bound)) == bound + VarSet(j.build) + VarSet(j.probe)
  }

  ghost predicate RowsOf(j: JoinPlan, b: Tuple, p: Tuple, ps: seq<Premise>, sigma: Env, m: Machine)
    requires |ps| >= 2 && ps[0].Atom? && ps[1].Atom?
  {
    && b in m.full(ps[0].pred) && p in m.full(ps[1].pred)
    && EvalTerms(ps[0].args, sigma, m) == Ok(b) && EvalTerms(ps[1].args, sigma, m) == Ok(p)
  }

  lemma {:induction false} JoinStep(j: JoinPlan, body: Op, ps: seq<Premise>, bound: set<Var>, h: Head, env: Env,
      m: Machine)
    requires JoinReady(j, ps, bound) && Fits(env, bound)
    requires RestCorrect(body, ps[2..], bound + VarSet(j.build) + VarSet(j.probe), h, None, m)
    ensures Correct(HashJoin(ps[0].pred, j.build, j.probeRel, j.probe, j.keys, body), ps, bound, h, env, None, m)
  {
    var op := HashJoin(ps[0].pred, j.build, j.probeRel, j.probe, j.keys, body);
    var buildRows, probeRows := m.full(ps[0].pred), m.full(ps[1].pred);
    var bound' := bound + VarSet(j.build) + VarSet(j.probe);
    assert forall v :: v in j.build || v in j.probe ==> v !in bound && v.User?;
    var envs := JoinRows(env, j.keys, j.build, buildRows, j.probe, probeRows);
    assert Branches(op, env, m) == Ok(envs);
    forall e
      ensures e in envs <==>
              exists b, p :: b in buildRows && p in probeRows && Joins(env, j.keys, j.build, b, j.probe, p, e)
    {
      JoinRowsMember(env, j.keys, j.build, buildRows, j.probe, probeRows, e);
    }
    forall e | e in envs ensures Fits(e, bound') {
      var b, p :| b in buildRows && p in probeRows && Joins(env, j.keys, j.build, b, j.probe, p, e);
      JoinExtends(j.build, b, j.probe, p, j.keys, env, e, bound, map[]);
    }
    forall f, sigma ensures Completes(sigma, ps, bound, h, env, None, f, m) <==>
                            exists e :: e in envs && Completes(sigma, ps[2..], bound', h, e, None, f, m) {
      JoinSplit(j, envs, ps, bound, h, env, f, sigma, m);
    }
    SplitStep(op, envs, body, ps, bound, ps[2..], bound', h, env, m);
  }

  /** A plan that runs the body in several environments is correct when these split the
      assignments that satisfy the premises. */
  lemma {:induction false} SplitStep(op: Op, envs: seq<Env>, body: Op, ps: seq<Premise>, bound: set<Var>,
      rest: seq<Premise>, bound': set<Var>,
                                     h: Head, env: Env, m: Machine)
    requires Run(op, env, m) == RunAll(envs, body, m) && RestCorrect(body, rest, bound', h, None, m)
    requires forall e :: e in envs ==> Fits(e, bound')
    requires forall f, sigma :: Completes(sigma, ps, bound, h, env, None, f, m) <==>
                                exists e :: e in envs && Completes(sigma, rest, bound', h, e, None, f, m)
    ensures Correct(op, ps, bound, h, env, None, m)
  {
    RunAllOk(envs, body, m);
    assert forall e :: e in envs ==> Correct(body, rest, bound', h, e, None, m);
    if Run(op, env, m).Ok? {
      forall f ensures f in Run(op, env, m).value <==> Derivable(ps, bound, h, env, None, f, m) {
        RunAllFacts(envs, body, m, f);
        if e :| e in envs && Run(body, e, m).Ok? && f in Run(body, e, m).value {
          var sigma :| Completes(sigma, rest, bound', h, e, None, f, m);
          assert Completes(sigma, ps, bound, h, env, None, f, m);
        }
        if sigma :| Completes(sigma, ps, bound, h, env, None, f, m) {
          var e :| e in envs && Completes(sigma, rest, bound', h, e, None, f, m);
          assert Derivable(rest, bound', h, e, None, f, m);
        }
      }
    }
  }

  lemma {:induction false} JoinSplit(j: JoinPlan, envs: seq<Env>, ps: seq<Premise>, bound: set<Var>, h: Head, env: Env,
      f: Fact, sigma: Env, m: Machine)
    requires JoinReady(j, ps, bound) && Fits(env, bound)
    requires forall e ::
             e in envs <==> exists b, p ::
             b in m.full(ps[0].pred) && p in m.full(ps[1].pred) && Joins(env, j.keys, j.build, b, j.probe, p, e)
    ensures Completes(sigma, ps, bound, h, env, None, f, m) <==>
            exists e ::
            e in envs && Completes(sigma, ps[2..], bound + VarSet(j.build) + VarSet(j.probe), h, e, None, f, m)
  {
    hide AllHold, EvalTerms, HeadFact;
    var bound' := bound + VarSet(j.build) + VarSet(j.probe);
    AllHoldTwo(j, ps, bound, sigma, m);
    assert forall v :: v in j.build || v in j.probe ==> v !in bound && v.User?;
    if Completes(sigma, ps, bound, h, env, None, f, m) {
      var b, p :| RowsOf(j, b, p, ps, sigma, m);
      PlainArgs(ps[0].args, j.build, bound, sigma, b, m);
      PlainArgs(ps[1].args, j.probe, bound, sigma, p, m);
      var e := BindRow(BindRow(env, j.probe, p), j.build, b);
      SameKeys(j.keys, j.build, b, j.probe, p, sigma);
      assert Joins(env, j.keys, j.build, b, j.probe, p, e);
      JoinExtends(j.build, b, j.probe, p, j.keys, env, e, bound, sigma);
      assert e in envs && Completes(sigma, ps[2..], bound', h, e, None, f, m);
    }
    if e :| e in envs && Completes(sigma, ps[2..], bound', h, e, None, f, m) {
      var b, p :| b in m.full(ps[0].pred) && p in m.full(ps[1].pred) && Joins(env, j.keys, j.build, b, j.probe, p, e);
      JoinExtends(j.build, b, j.probe, p, j.keys, env, e, bound, sigma);
      PlainArgs(ps[0].args, j.build, bound, sigma, b, m);
      PlainArgs(ps[1].args, j.probe, bound, sigma, p, m);
      assert RowsOf(j, b, p, ps, sigma, m);
    }
  }

  lemma {:induction false} AllHoldTwo(j: JoinPlan, ps: seq<Premise>, bound: set<Var>, sigma: Env, m: Machine)
    requires JoinReady(j, ps, bound)
    ensures AllHold(ps, bound, None, sigma, m) <==>
            (exists b, p :: RowsOf(j, b, p, ps, sigma, m)) &&
            AllHold(ps[2..], bound + VarSet(j.build) + VarSet(j.probe), None, sigma, m)
  {
    assert ps[1..][0] == ps[1] && ps[1..][1..] == ps[2..];
    var b, p := EvalTerms(ps[0].args, sigma, m), EvalTerms(ps[1].args, sigma, m);
    if b.Ok? && p.Ok? && b.value in m.full(ps[0].pred) && p.value in m.full(ps[1].pred) {
      assert RowsOf(j, b.value, p.value, ps, sigma, m);
    }
  }

  lemma {:induction false} SameKeys(keys: seq<Var>, build: seq<Var>, b: Tuple, probe: seq<Var>, p: Tuple, sigma: Env)
    requires |b| == |build| && |p| == |probe| && forall k :: k in keys ==> k in build && k in probe
    requires forall i :: 0 <= i < |build| ==> build[i] in sigma && sigma[build[i]] == b[i]
    requires forall i :: 0 <= i < |probe| ==> probe[i] in sigma && sigma[probe[i]] == p[i]
    ensures KeyOf(keys, build, b) == KeyOf(keys, probe, p)
  {
    forall i | 0 <= i < |keys| ensures KeyOf(keys, build, b)[i] == KeyOf(keys, probe, p)[i] {
      assert build[Position(keys[i], build)] == keys[i] == probe[Position(keys[i], probe)];
    }
  }
}
