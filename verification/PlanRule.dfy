/** The theorem about whole join sequences. */
module PlanRule {
  import opened Datalog
  import opened Interp
  import opened Planner
  import opened PlanCorrect
  import opened PlanTheorem
  import opened AtomSteps

  /** Whatever mix of access paths and bindings it chooses, a join sequence inserts exactly
      what its premises derive. */
  lemma {:induction false} JoinSequenceExact(ps: seq<Premise>, bound: set<Var>, k: nat, h: Head, cfg: Config,
      m: Machine)
    requires PlanJoin(ps, bound, k, h, cfg).Ok? && m.IndexSound()
    requires UserVars(PremisesVars(ps)) && UserVars(TermsVars(h.args))
    requires WellPlaced(ps, bound, h) && JoinsRelations(ps, bound, cfg)
    ensures RestCorrect(PlanJoin(ps, bound, k, h, cfg).value.op, ps, bound, h, cfg.delta, m)
    decreases |ps|
  {
    var op := PlanJoin(ps, bound, k, h, cfg).value.op;
    if ps == [] {
      forall env | Fits(env, bound) ensures Correct(op, ps, bound, h, env, cfg.delta, m) {
        HeadStep(h, k, bound, env, cfg.delta, m);
      }
    } else if IsTest(ps[0], bound) {
      TestCase(ps, bound, k, h, cfg, m);
    } else if ps[0].Equal? {
      LetCase(ps, bound, k, h, cfg, m);
    } else if ps[0].pred.MatchField? {
      FieldCase(ps, bound, k, h, cfg, m);
    } else if ps[0].pred.ListMember? {
      MemberCase(ps, bound, k, h, cfg, m);
    } else if ChosenJoin(ps[0].args, ps, bound, cfg).Some? {
      HashJoinCase(ps, bound, k, h, cfg, m);
    } else {
      AtomCase(ps, bound, k, h, cfg, m);
    }
  }

  /** The hypotheses of the theorem for a nonempty sequence. */
  ghost predicate Plannable(ps: seq<Premise>, bound: set<Var>, k: nat, h: Head, cfg: Config, m: Machine) {
    && ps != [] && PlanJoin(ps, bound, k, h, cfg).Ok? && m.IndexSound()
    && UserVars(PremisesVars(ps)) && UserVars(TermsVars(h.args))
    && WellPlaced(ps, bound, h) && JoinsRelations(ps, bound, cfg)
  }

  lemma {:induction false} TestCase(ps: seq<Premise>, bound: set<Var>, k: nat, h: Head, cfg: Config, m: Machine)
    requires Plannable(ps, bound, k, h, cfg, m) && IsTest(ps[0], bound)
    ensures RestCorrect(PlanJoin(ps, bound, k, h, cfg).value.op, ps, bound, h, cfg.delta, m)
    decreases |ps|, 0
  {
    var ts := TestTerms(ps[0], bound).value;
    var body := PlanJoin(ps[1..], bound, k, h, cfg).value;
    assert BoundAfter(ps[0], bound) == bound;
    JoinSequenceExact(ps[1..], bound, k, h, cfg, m);
    assert PremiseVars(ps[0]) <= bound;
    forall env | Fits(env, bound)
      ensures Correct(PlanJoin(ps, bound, k, h, cfg).value.op, ps, bound, h, env, cfg.delta, m)
    {
      TestStep(ps, bound, ts, body, h, env, cfg.delta, m);
    }
  }

  lemma {:induction false} LetCase(ps: seq<Premise>, bound: set<Var>, k: nat, h: Head, cfg: Config, m: Machine)
    requires Plannable(ps, bound, k, h, cfg, m) && !IsTest(ps[0], bound) && ps[0].Equal?
    ensures RestCorrect(PlanJoin(ps, bound, k, h, cfg).value.op, ps, bound, h, cfg.delta, m)
    decreases |ps|, 0
  {
    var b := EqBinding(ps[0].l, ps[0].r, bound).value;
    assert PlanJoin(ps, bound, k, h, cfg) == PlanLet(b, ps, bound, k, h, cfg);
    var l := if b.1.Apply? then LowerTerms(b.1.args, k).value else LowerTerm(b.1, k).value;
    var body := PlanJoin(ps[1..], bound + {b.0}, l.next, h, cfg).value;
    JoinSequenceExact(ps[1..], bound + {b.0}, l.next, h, cfg, m);
    forall env | Fits(env, bound)
      ensures Correct(PlanJoin(ps, bound, k, h, cfg).value.op, ps, bound, h, env, cfg.delta, m)
    {
      LetStep(b, l, k, body.op, ps, bound, h, env, cfg.delta, m);
    }
  }

  lemma {:induction false} FieldCase(ps: seq<Premise>, bound: set<Var>, k: nat, h: Head, cfg: Config, m: Machine)
    requires Plannable(ps, bound, k, h, cfg, m) && ps[0].Atom? && ps[0].pred.MatchField?
    ensures RestCorrect(PlanJoin(ps, bound, k, h, cfg).value.op, ps, bound, h, cfg.delta, m)
    decreases |ps|, 0
  {
    var args := ps[0].args;
    assert PlanJoin(ps, bound, k, h, cfg) == PlanMatchField(args, ps, bound, k, h, cfg);
    if IsUnboundVar(args[2], bound) {
      var body := PlanJoin(ps[1..], bound + {args[2].v}, k, h, cfg).value;
      var l := LowerTerm(args[0], body.next).value;
      JoinSequenceExact(ps[1..], bound + {args[2].v}, k, h, cfg, m);
      forall env | Fits(env, bound)
        ensures Correct(PlanJoin(ps, bound, k, h, cfg).value.op, ps, bound, h, env, cfg.delta, m)
      {
        FieldBindStep(l, body.next, body.op, ps, bound, h, env, cfg.delta, m);
      }
    } else {
      var body := PlanJoin(ps[1..], bound, k + 1, h, cfg).value;
      var l := LowerTerms([args[0], args[2]], body.next).value;
      assert BoundAfter(ps[0], bound) == bound;
      JoinSequenceExact(ps[1..], bound, k + 1, h, cfg, m);
      forall env | Fits(env, bound)
        ensures Correct(PlanJoin(ps, bound, k, h, cfg).value.op, ps, bound, h, env, cfg.delta, m)
      {
        FieldCheckStep(l, body.next, Fresh("mf", k), body.op, ps, bound, h, env, cfg.delta, m);
      }
    }
  }

  lemma {:induction false} MemberCase(ps: seq<Premise>, bound: set<Var>, k: nat, h: Head, cfg: Config, m: Machine)
    requires Plannable(ps, bound, k, h, cfg, m) && ps[0].Atom? && ps[0].pred.ListMember?
    ensures RestCorrect(PlanJoin(ps, bound, k, h, cfg).value.op, ps, bound, h, cfg.delta, m)
    decreases |ps|, 0
  {
    var args := ps[0].args;
    assert PlanJoin(ps, bound, k, h, cfg) == PlanListMember(args, ps, bound, k, h, cfg);
    if IsUnboundVar(args[0], bound) {
      var body := PlanJoin(ps[1..], bound + {args[0].v}, k, h, cfg).value;
      var l := LowerTerm(args[1], body.next).value;
      JoinSequenceExact(ps[1..], bound + {args[0].v}, k, h, cfg, m);
      forall env | Fits(env, bound)
        ensures Correct(PlanJoin(ps, bound, k, h, cfg).value.op, ps, bound, h, env, cfg.delta, m)
      {
        MemberBindStep(l, body.next, body.op, ps, bound, h, env, cfg.delta, m);
      }
    } else {
      var body := PlanJoin(ps[1..], bound, k + 1, h, cfg).value;
      var l := LowerTerms([args[1], args[0]], body.next).value;
      assert BoundAfter(ps[0], bound) == bound;
      JoinSequenceExact(ps[1..], bound, k + 1, h, cfg, m);
      forall env | Fits(env, bound)
        ensures Correct(PlanJoin(ps, bound, k, h, cfg).value.op, ps, bound, h, env, cfg.delta, m)
      {
        MemberCheckStep(l, body.next, Fresh("listmem", k), body.op, ps, bound, h, env, cfg.delta, m);
      }
    }
  }

  lemma {:induction false} AtomCase(ps: seq<Premise>, bound: set<Var>, k: nat, h: Head, cfg: Config, m: Machine)
    requires Plannable(ps, bound, k, h, cfg, m) && ps[0].Atom? && ps[0].pred.IsRelation()
    requires ChosenJoin(ps[0].args, ps, bound, cfg).None?
    ensures RestCorrect(PlanJoin(ps, bound, k, h, cfg).value.op, ps, bound, h, cfg.delta, m)
    decreases |ps|, 0
  {
    var args := ps[0].args;
    var scan := ScanVars(args, bound, k);
    assert PlanJoin(ps, bound, k, h, cfg) == PlanAtom(ps[0].pred, args, ps, bound, k, h, cfg);
    var body := PlanJoin(ps[1..], bound + DirectVars(args), scan.next, h, cfg).value;
    var inner := ApplyConstraints(args, scan.vars, body).value;
    JoinSequenceExact(ps[1..], bound + DirectVars(args), scan.next, h, cfg, m);
    forall env | Fits(env, bound)
      ensures Correct(PlanJoin(ps, bound, k, h, cfg).value.op, ps, bound, h, env, cfg.delta, m)
    {
      AtomStep(k, body, inner, ps, bound, h, env, cfg, m);
    }
  }

  lemma {:induction false} HashJoinCase(ps: seq<Premise>, bound: set<Var>, k: nat, h: Head, cfg: Config, m: Machine)
    requires Plannable(ps, bound, k, h, cfg, m) && ps[0].Atom? && ps[0].pred.IsRelation()
    requires ChosenJoin(ps[0].args, ps, bound, cfg).Some?
    ensures RestCorrect(PlanJoin(ps, bound, k, h, cfg).value.op, ps, bound, h, cfg.delta, m)
    decreases |ps|, 0
  {
    var j := ChosenJoin(ps[0].args, ps, bound, cfg).value;
    var bound' := bound + VarSet(j.build) + VarSet(j.probe);
    assert PlanJoin(ps, bound, k, h, cfg) == PlanAtom(ps[0].pred, ps[0].args, ps, bound, k, h, cfg);
    var body := PlanJoin(ps[2..], bound', k, h, cfg).value;
    HashJoinReady(ps, bound, k, h, cfg, m);
    JoinSequenceExact(ps[2..], bound', k, h, cfg, m);
    forall env | Fits(env, bound)
      ensures Correct(PlanJoin(ps, bound, k, h, cfg).value.op, ps, bound, h, env, cfg.delta, m)
    {
      JoinStep(j, body.op, ps, bound, h, env, m);
    }
  }

  lemma {:induction false} HashJoinReady(ps: seq<Premise>, bound: set<Var>, k: nat, h: Head, cfg: Config, m: Machine)
    requires Plannable(ps, bound, k, h, cfg, m) && ps[0].Atom? && ps[0].pred.IsRelation()
    requires ChosenJoin(ps[0].args, ps, bound, cfg).Some?
    ensures var j := ChosenJoin(ps[0].args, ps, bound, cfg).value;
            var bound' := bound + VarSet(j.build) + VarSet(j.probe);
            && JoinReady(j, ps, bound)
            && WellPlaced(ps[2..], bound', h)
            && UserVars(PremisesVars(ps[2..]))
  {
    var j := ChosenJoin(ps[0].args, ps, bound, cfg).value;
    var bound' := bound + VarSet(j.build) + VarSet(j.probe);
    AllFreshShape(ps[0].args, bound);
    AllFreshShape(ps[1].args, bound);
    var tail := ps[1..];
    assert tail[0] == ps[1] && tail[1..] == ps[2..];
    assert PremisesVars(ps) == PremiseVars(ps[0]) + PremisesVars(tail);
    assert PremisesVars(tail) == PremiseVars(ps[1]) + PremisesVars(ps[2..]);
    assert BoundAfter(ps[1], BoundAfter(ps[0], bound)) == bound';
    assert WellPlaced(tail, BoundAfter(ps[0], bound), h);
    assert WellPlaced(ps[2..], bound', h);
    PlainUser(ps[0].args, j.build, bound);
    PlainUser(ps[1].args, j.probe, bound);
  }

  lemma {:induction false} PlainUser(args: seq<Term>, vs: seq<Var>, bound: set<Var>)
    requires AllFreshDistinct(args, bound) == Some(vs) && UserVars(TermsVars(args))
    ensures PlainAtom(args, vs, bound)
  {
    AllFreshShape(args, bound);
    forall i | 0 <= i < |vs| ensures vs[i].User? {
      assert vs[i] in VarSet(vs);
    }
  }
}
