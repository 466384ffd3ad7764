/** Whole rules: reorder, plan, run. */
module RuleTheorem {
  import opened Datalog
  import opened Interp
  import opened Planner
  import opened Lowering
  import opened PlanCorrect
  import opened PlanRule
  import AtomSteps
  import opened Delay
  import opened Bindings

  /** The plan of a rule without transforms. */
  function PlanOf(r: Rule, cfg: Config): Result<Op> {
    match PlanJoin(Delayed(r.premises), {}, 0, r.head, cfg)
    case Err => Err
    case Ok(p) => Ok(p.op)
  }

  method CompileRule(r: Rule, cfg: Config) returns (op: Result<Op>)
    ensures op == PlanOf(r, cfg)
  {
    var ordered := DelayUnboundPremises(r.premises);
    var planned := PlanJoin(ordered, {}, 0, r.head, cfg);
    op := if planned.Ok? then Ok(planned.value.op) else Err;
  }

  /** What the analysis guarantees of a rule before it is planned: the binding check accepts
      it, and compound arguments of positive atoms only use variables bound by then. */
  ghost predicate Safe(r: Rule) {
    Parsed(r) && Accepts(r) && AllCompoundReady(Delayed(r.premises), {})
  }

  /** An accepted rule is safe when the arguments of its positive atoms are variables or constants. */
  lemma {:induction false} SimpleRuleSafe(r: Rule)
    requires Parsed(r) && Accepts(r) && forall p, t :: p in r.premises && p.Atom? && t in p.args ==> IsSimple(t)
    ensures Safe(r)
  {
    SamePremises(r.premises);
    SimpleAtomsReady(Delayed(r.premises), {});
  }

  predicate RelationJoins(r: Rule, cfg: Config) {
    JoinsRelations(Delayed(r.premises), {}, cfg)
  }

  // ----- The meaning of a rule does not depend on the order of its premises -----

  lemma {:induction false} AllHoldMeans(ps: seq<Premise>, bound: set<Var>, sigma: Env, m: Machine)
    ensures AllHold(ps, bound, None, sigma, m) <==> forall p :: p in ps ==> Holds(p, sigma, m)
    decreases |ps|
  {
    if ps != [] {
      AllHoldMeans(ps[1..], BoundAfter(ps[0], bound), sigma, m);
      SplitHead(ps);
      assert ps[0] in ps;
      assert HoldsIn(ps[0], sigma, RowsFor(ps[0], bound, None, m), m) == Holds(ps[0], sigma, m);
    }
  }

  lemma {:induction false} SamePremises(ps: seq<Premise>)
    ensures forall p :: p in Delayed(ps) <==> p in ps
  {
    DelayedPermutes(ps);
    assert forall p :: p in ps <==> p in multiset(ps);
    assert forall p :: p in Delayed(ps) <==> p in multiset(Delayed(ps));
  }

  lemma {:induction false} DerivableMeans(r: Rule, f: Fact, m: Machine)
    ensures Derivable(Delayed(r.premises), {}, r.head, map[], None, f, m) <==> Derives(r, f, m)
  {
    SamePremises(r.premises);
    forall sigma: Env
      ensures Completes(sigma, Delayed(r.premises), {}, r.head, map[], None, f, m) <==> Satisfies(sigma, r, f, m)
    {
      AllHoldMeans(Delayed(r.premises), {}, sigma, m);
    }
    if Derivable(Delayed(r.premises), {}, r.head, map[], None, f, m) {
      var sigma :| Completes(sigma, Delayed(r.premises), {}, r.head, map[], None, f, m);
      assert Satisfies(sigma, r, f, m);
    }
    if Derives(r, f, m) {
      var sigma: Env :| Satisfies(sigma, r, f, m);
      assert Completes(sigma, Delayed(r.premises), {}, r.head, map[], None, f, m);
    }
  }

  lemma {:induction false} DelayedUser(r: Rule)
    requires Parsed(r)
    ensures UserVars(PremisesVars(Delayed(r.premises)))
  {
    SamePremises(r.premises);
    forall p | p in Delayed(r.premises) ensures PremiseVars(p) <= PremisesVars(r.premises) {
      PremiseVarsIn(r.premises, p);
    }
    PremisesVarsBelow(Delayed(r.premises), PremisesVars(r.premises));
  }

  lemma {:induction false} PremiseVarsIn(ps: seq<Premise>, p: Premise)
    requires p in ps
    ensures PremiseVars(p) <= PremisesVars(ps)
    decreases |ps|
  {
    if ps[0] != p { PremiseVarsIn(ps[1..], p); }
  }

  /** The plan of a safe rule, full or for a delta, inserts exactly what is derivable. */
  lemma {:induction false} PlanCorrectFor(r: Rule, cfg: Config, m: Machine)
    requires Safe(r) && PlanOf(r, cfg).Ok? && RelationJoins(r, cfg) && m.IndexSound()
    ensures Correct(PlanOf(r, cfg).value, Delayed(r.premises), {}, r.head, map[], cfg.delta, m)
  {
    AcceptedIsPlaced(r);
    DelayedUser(r);
    JoinSequenceExact(Delayed(r.premises), {}, 0, r.head, cfg, m);
  }

  /** The plan of a safe rule inserts exactly the head instances of the assignments that
      satisfy all premises, and runs without error when no function does. */
  lemma {:induction false} PlanExact(r: Rule, hashJoin: bool, m: Machine)
    requires Safe(r) && PlanOf(r, Config(None, hashJoin)).Ok? && RelationJoins(r, Config(None, hashJoin)) &&
             m.IndexSound()
    ensures var run := Run(PlanOf(r, Config(None, hashJoin)).value, map[], m);
            && (m.Total() ==> run.Ok?)
            && (run.Ok? ==> forall f :: f in run.value <==> Derives(r, f, m))
  {
    PlanCorrectFor(r, Config(None, hashJoin), m);
    forall f { DerivableMeans(r, f, m); }
  }

  lemma {:induction false} NoJoinsWhenOff(ps: seq<Premise>, bound: set<Var>, cfg: Config)
    requires !cfg.hashJoin || cfg.delta.Some?
    ensures JoinsRelations(ps, bound, cfg)
    decreases |ps|
  {
    if ps != [] { NoJoinsWhenOff(ps[1..], BoundAfter(ps[0], bound), cfg); }
  }

  // ----- Which rules the planner accepts -----

  predicate Supported(t: Term)
    decreases t, 1
  {
    match t
    case VarTerm(_) => true
    case ConstTerm(_) => true
    case Apply(_, args) => AllSupported(args)
    case Literal(_, parts) => AllSupported(parts)
    case Unsupported => false
  }

  predicate AllSupported(ts: seq<Term>)
    decreases ts, 0
  {
    ts != [] ==> Supported(ts[0]) && AllSupported(ts[1..])
  }

  predicate NameConst(t: Term) {
    t.ConstTerm? && t.c.CName?
  }

  /** The shape the planner asks of a premise, whatever is bound. */
  predicate WellFormed(p: Premise) {
    match p
    case Atom(pred, args) =>
      AllSupported(args) &&
      (match pred
       case Compare(_, _) => |args| == 2
       case Check(_) => |args| == 2
       case ListMember => |args| == 2
       case MatchField => |args| == 3 && NameConst(args[1])
       case _ => true)
    case NegAtom(pred, args) =>
      AllSupported(args) &&
      (match pred
       case Compare(_, _) => |args| == 2
       case Check(_) => |args| == 2
       case ListMember => |args| == 2
       case MatchField => |args| == 3 && NameConst(args[1])
       case Other(_) => false
       case Rel(_) => forall t :: t in args ==> IsSimple(t))
    case Equal(l, r) => Supported(l) && Supported(r)
    case Inequal(l, r) => Supported(l) && Supported(r)
  }

  lemma {:induction false} LowerTermOk(t: Term, k: nat)
    ensures LowerTerm(t, k).Ok? <==> Supported(t)
    decreases t, 1
  {
    match t
    case Apply(_, args) => LowerTermsOk(args, k);
    case Literal(_, parts) => LowerTermsOk(parts, k);
    case _ =>
  }

  lemma {:induction false} LowerTermsOk(ts: seq<Term>, k: nat)
    ensures LowerTerms(ts, k).Ok? <==> AllSupported(ts)
    decreases ts, 0
  {
    if ts != [] {
      LowerTermOk(ts[0], k);
      if LowerTerm(ts[0], k).Ok? { LowerTermsOk(ts[1..], LowerTerm(ts[0], k).value.next); }
    }
  }

  lemma {:induction false} ConstraintsOk(args: seq<Term>, vars: seq<Var>, body: Planned)
    requires |vars| == |args|
    ensures ApplyConstraints(args, vars, body).Ok? <==> AllSupported(args)
    decreases |args|
  {
    if args != [] {
      var n := |args| - 1;
      SupportedInit(args, n);
      LowerTermOk(args[n], body.next);
      if Constrain(args[n], vars[n], body).Ok? {
        ConstraintsOk(args[..n], vars[..n], Constrain(args[n], vars[n], body).value);
      }
    }
  }

  lemma {:induction false} SupportedInit(args: seq<Term>, n: nat)
    requires |args| == n + 1
    ensures AllSupported(args) <==> AllSupported(args[..n]) && Supported(args[n])
    decreases n
  {
    if n == 0 {
      assert args[..0] == [] && args[1..] == [];
    } else {
      SupportedInit(args[1..], n - 1);
      assert args[..n][0] == args[0] && args[..n][1..] == args[1..][..n - 1] && args[1..][n - 1] == args[n];
    }
  }

  lemma PairSupported(a: Term, b: Term)
    ensures AllSupported([a, b]) <==> Supported(a) && Supported(b)
  {
    assert [a, b][1..] == [b] && [b][1..] == [];
    assert AllSupported([b]) <==> Supported(b) && AllSupported([]);
  }

  lemma {:induction false} TripleSupported(args: seq<Term>)
    requires |args| == 3 && args[1].ConstTerm?
    ensures AllSupported(args) <==> Supported(args[0]) && Supported(args[2])
  {
    assert args[1..] == [args[1], args[2]];
    PairSupported(args[1], args[2]);
  }

  lemma {:induction false} FreshSupported(args: seq<Term>, bound: set<Var>)
    requires AllFreshDistinct(args, bound).Some?
    ensures AllSupported(args)
    decreases |args|
  {
    if args != [] { FreshSupported(args[1..], bound + {args[0].v}); }
  }

  /** A well-placed join sequence whose hash joins consume relations is planned exactly when
      every premise and the head have the shape the planner asks for. */
  lemma {:induction false} PlannedWhenWellFormed(ps: seq<Premise>, bound: set<Var>, k: nat, h: Head, cfg: Config)
    requires WellPlaced(ps, bound, h) && JoinsRelations(ps, bound, cfg)
    ensures PlanJoin(ps, bound, k, h, cfg).Ok? <==> (forall p :: p in ps ==> WellFormed(p)) && AllSupported(h.args)
    decreases |ps|
  {
    if ps == [] {
      LowerTermsOk(h.args, k);
    } else {
      SplitHead(ps);
      if IsTest(ps[0], bound) {
        TestPlanned(ps, bound, k, h, cfg);
      } else if ps[0].Equal? {
        LetPlanned(ps, bound, k, h, cfg);
      } else if ps[0].pred.MatchField? {
        FieldPlanned(ps, bound, k, h, cfg);
      } else if ps[0].pred.ListMember? {
        MemberPlanned(ps, bound, k, h, cfg);
      } else if ChosenJoin(ps[0].args, ps, bound, cfg).Some? {
        JoinPlanned(ps, bound, k, h, cfg);
      } else {
        ScanPlanned(ps, bound, k, h, cfg);
      }
    }
  }

  /** The statement for one nonempty sequence, with what is known of its tail. */
  ghost predicate PlannedIff(ps: seq<Premise>, bound: set<Var>, k: nat, h: Head, cfg: Config) {
    PlanJoin(ps, bound, k, h, cfg).Ok? <==> (forall p :: p in ps ==> WellFormed(p)) && AllSupported(h.args)
  }

  lemma {:induction false} TestPlanned(ps: seq<Premise>, bound: set<Var>, k: nat, h: Head, cfg: Config)
    requires ps != [] && WellPlaced(ps, bound, h) && JoinsRelations(ps, bound, cfg) && IsTest(ps[0], bound)
    requires forall p :: p in ps <==> p == ps[0] || p in ps[1..]
    ensures PlannedIff(ps, bound, k, h, cfg)
    decreases |ps|, 0
  {
    assert BoundAfter(ps[0], bound) == bound;
    PlannedWhenWellFormed(ps[1..], bound, k, h, cfg);
    assert ps[0] in ps;
    TestTermsOk(ps[0], bound);
    if TestTerms(ps[0], bound).Ok? && PlanJoin(ps[1..], bound, k, h, cfg).Ok? {
      LowerTermsOk(TestTerms(ps[0], bound).value, PlanJoin(ps[1..], bound, k, h, cfg).value.next);
    }
  }

  lemma {:induction false} TestTermsOk(p: Premise, bound: set<Var>)
    requires IsTest(p, bound) && Ready(p, bound)
    ensures WellFormed(p) <==> TestTerms(p, bound).Ok? && AllSupported(TestTerms(p, bound).value)
  {
    match p
    case Atom(_, _) =>
    case NegAtom(pred, args) =>
      DirectAreVars(args);
      assert ArgsBound(args, bound);
      if pred.MatchField? && |args| == 3 && NameConst(args[1]) {
        TripleSupported(args);
        PairSupported(args[0], args[2]);
      }
    case Equal(l, r) => PairSupported(l, r);
    case Inequal(l, r) => PairSupported(l, r);
  }

  lemma {:induction false} LetPlanned(ps: seq<Premise>, bound: set<Var>, k: nat, h: Head, cfg: Config)
    requires ps != [] && WellPlaced(ps, bound, h) && JoinsRelations(ps, bound, cfg) && !IsTest(ps[0], bound) &&
             ps[0].Equal?
    requires forall p :: p in ps <==> p == ps[0] || p in ps[1..]
    ensures PlannedIff(ps, bound, k, h, cfg)
    decreases |ps|, 0
  {
    var b := EqBinding(ps[0].l, ps[0].r, bound).value;
    assert PlanJoin(ps, bound, k, h, cfg) == PlanLet(b, ps, bound, k, h, cfg);
    assert ps[0] in ps;
    LowerTermOk(b.1, k);
    if b.1.Apply? { LowerTermsOk(b.1.args, k); }
    var l := if b.1.Apply? then LowerTerms(b.1.args, k) else LowerTerm(b.1, k);
    if l.Ok? { PlannedWhenWellFormed(ps[1..], bound + {b.0}, l.value.next, h, cfg); }
  }

  lemma {:induction false} FieldPlanned(ps: seq<Premise>, bound: set<Var>, k: nat, h: Head, cfg: Config)
    requires ps != [] && WellPlaced(ps, bound, h) && JoinsRelations(ps, bound, cfg) && ps[0].Atom? &&
             ps[0].pred.MatchField?
    requires forall p :: p in ps <==> p == ps[0] || p in ps[1..]
    ensures PlannedIff(ps, bound, k, h, cfg)
    decreases |ps|, 0
  {
    var args := ps[0].args;
    assert PlanJoin(ps, bound, k, h, cfg) == PlanMatchField(args, ps, bound, k, h, cfg);
    assert ps[0] in ps;
    if |args| == 3 && NameConst(args[1]) {
      TripleSupported(args);
      PairSupported(args[0], args[2]);
      if IsUnboundVar(args[2], bound) {
        PlannedWhenWellFormed(ps[1..], bound + {args[2].v}, k, h, cfg);
        var body := PlanJoin(ps[1..], bound + {args[2].v}, k, h, cfg);
        if body.Ok? { LowerTermOk(args[0], body.value.next); }
      } else {
        assert BoundAfter(ps[0], bound) == bound;
        PlannedWhenWellFormed(ps[1..], bound, k + 1, h, cfg);
        var body := PlanJoin(ps[1..], bound, k + 1, h, cfg);
        if body.Ok? { LowerTermsOk([args[0], args[2]], body.value.next); }
      }
    }
  }

  lemma {:induction false} MemberPlanned(ps: seq<Premise>, bound: set<Var>, k: nat, h: Head, cfg: Config)
    requires ps != [] && WellPlaced(ps, bound, h) && JoinsRelations(ps, bound, cfg) && ps[0].Atom? &&
             ps[0].pred.ListMember?
    requires forall p :: p in ps <==> p == ps[0] || p in ps[1..]
    ensures PlannedIff(ps, bound, k, h, cfg)
    decreases |ps|, 0
  {
    var args := ps[0].args;
    assert PlanJoin(ps, bound, k, h, cfg) == PlanListMember(args, ps, bound, k, h, cfg);
    assert ps[0] in ps;
    if |args| == 2 {
      assert args == [args[0], args[1]];
      PairSupported(args[0], args[1]);
      PairSupported(args[1], args[0]);
      if IsUnboundVar(args[0], bound) {
        PlannedWhenWellFormed(ps[1..], bound + {args[0].v}, k, h, cfg);
        var body := PlanJoin(ps[1..], bound + {args[0].v}, k, h, cfg);
        if body.Ok? { LowerTermOk(args[1], body.value.next); }
      } else {
        assert BoundAfter(ps[0], bound) == bound;
        PlannedWhenWellFormed(ps[1..], bound, k + 1, h, cfg);
        var body := PlanJoin(ps[1..], bound, k + 1, h, cfg);
        if body.Ok? { LowerTermsOk([args[1], args[0]], body.value.next); }
      }
    }
  }

  lemma {:induction false} ScanPlanned(ps: seq<Premise>, bound: set<Var>, k: nat, h: Head, cfg: Config)
    requires ps != [] && WellPlaced(ps, bound, h) && JoinsRelations(ps, bound, cfg) && ps[0].Atom? &&
             ps[0].pred.IsRelation()
    requires ChosenJoin(ps[0].args, ps, bound, cfg).None?
    requires forall p :: p in ps <==> p == ps[0] || p in ps[1..]
    ensures PlannedIff(ps, bound, k, h, cfg)
    decreases |ps|, 0
  {
    var args := ps[0].args;
    var scan := ScanVars(args, bound, k);
    assert PlanJoin(ps, bound, k, h, cfg) == PlanAtom(ps[0].pred, args, ps, bound, k, h, cfg);
    assert ps[0] in ps;
    PlannedWhenWellFormed(ps[1..], bound + DirectVars(args), scan.next, h, cfg);
    var body := PlanJoin(ps[1..], bound + DirectVars(args), scan.next, h, cfg);
    if body.Ok? { ConstraintsOk(args, scan.vars, body.value); }
  }

  lemma {:induction false} JoinPlanned(ps: seq<Premise>, bound: set<Var>, k: nat, h: Head, cfg: Config)
    requires ps != [] && WellPlaced(ps, bound, h) && JoinsRelations(ps, bound, cfg) && ps[0].Atom? &&
             ps[0].pred.IsRelation()
    requires ChosenJoin(ps[0].args, ps, bound, cfg).Some?
    requires forall p :: p in ps <==> p == ps[0] || p in ps[1..]
    ensures PlannedIff(ps, bound, k, h, cfg)
    decreases |ps|, 0
  {
    var j := ChosenJoin(ps[0].args, ps, bound, cfg).value;
    var bound' := bound + VarSet(j.build) + VarSet(j.probe);
    PlannedJoin(ps, bound, k, h, cfg);
    JoinLeaves(ps, bound, h, cfg);
    hide PlanJoin, PlanAtom, WellPlaced, ChosenJoin, WellFormed, AllSupported, JoinsRelations;
    PlannedWhenWellFormed(ps[2..], bound', k, h, cfg);
  }

  /** What a chosen join leaves to plan is well placed, and the joined atoms are well formed. */
  lemma {:induction false} JoinLeaves(ps: seq<Premise>, bound: set<Var>, h: Head, cfg: Config)
    requires ps != [] && WellPlaced(ps, bound, h) && JoinsRelations(ps, bound, cfg) && ps[0].Atom? &&
             ps[0].pred.IsRelation()
    requires ChosenJoin(ps[0].args, ps, bound, cfg).Some?
    requires forall p :: p in ps <==> p == ps[0] || p in ps[1..]
    ensures var j := ChosenJoin(ps[0].args, ps, bound, cfg).value;
            var bound' := bound + VarSet(j.build) + VarSet(j.probe);
            WellPlaced(ps[2..], bound', h) && JoinsRelations(ps[2..], bound', cfg)
    ensures (forall p :: p in ps ==> WellFormed(p)) <==> (forall p :: p in ps[2..] ==> WellFormed(p))
  {
    var j := ChosenJoin(ps[0].args, ps, bound, cfg).value;
    var tail := ps[1..];
    assert tail[0] == ps[1] && tail[1..] == ps[2..];
    SplitHead(tail);
    AtomSteps.AllFreshShape(ps[0].args, bound);
    AtomSteps.AllFreshShape(ps[1].args, bound);
    FreshSupported(ps[0].args, bound);
    FreshSupported(ps[1].args, bound);
    assert BoundAfter(ps[1], BoundAfter(ps[0], bound)) == bound + VarSet(j.build) + VarSet(j.probe);
    assert WellPlaced(tail, BoundAfter(ps[0], bound), h);
  }

  /** Every premise and the head have a shape that the planner supports. */
  predicate Plannable(r: Rule) {
    (forall p :: p in r.premises ==> WellFormed(p)) && AllSupported(r.head.args)
  }

  /** A safe rule is planned exactly when its premises and head are well formed. */
  lemma {:induction false} SafeRulePlanned(r: Rule, cfg: Config)
    requires Safe(r) && RelationJoins(r, cfg)
    ensures PlanOf(r, cfg).Ok? <==> Plannable(r)
  {
    AcceptedIsPlaced(r);
    PlannedWhenWellFormed(Delayed(r.premises), {}, 0, r.head, cfg);
    SamePremises(r.premises);
  }

  /** Hash joins change nothing but the way the facts are found; both plans exist or neither,
      and both run without error when no function fails. */
  lemma {:induction false} HashJoinAgrees(r: Rule, m: Machine)
    requires Safe(r) && RelationJoins(r, Config(None, true)) && m.IndexSound()
    ensures PlanOf(r, Config(None, true)).Ok? <==> PlanOf(r, Config(None, false)).Ok?
    ensures PlanOf(r, Config(None, true)).Ok? ==>
              var on, off := Run(PlanOf(r, Config(None, true)).value, map[], m),
                             Run(PlanOf(r, Config(None, false)).value, map[], m);
              (on.Ok? && off.Ok? ==> on.value == off.value) && (m.Total() ==> on.Ok? && off.Ok?)
  {
    NoJoinsWhenOff(Delayed(r.premises), {}, Config(None, false));
    SafeRulePlanned(r, Config(None, true));
    SafeRulePlanned(r, Config(None, false));
    if PlanOf(r, Config(None, true)).Ok? {
      PlanExact(r, true, m);
      PlanExact(r, false, m);
    }
  }
}
