/** Evaluation of a stratum: one full pass over its rules, then rounds of delta plans until
    nothing new is inserted.  The result is the least set of facts closed under the rules. */
module SemiNaive {
  import opened Datalog
  import opened Interp
  import opened Planner
  import opened PlanCorrect
  import opened Delay
  import opened RuleTheorem
  import opened Scope
  import opened ScopeTheorem

  /** The three tiers of the store: scans see `stable` and `delta`, inserts go to `next`. */
  datatype Store = Store(stable: set<Fact>, delta: set<Fact>, next: set<Fact>)
  {
    function Visible(): set<Fact> { stable + delta }
  }

  function Merge(st: Store): Store {
    Store(st.stable + st.delta, st.next, {})
  }

  /** What a plan sees of a stable and a delta tier. */
  type Host = (set<Fact>, set<Fact>) -> Machine

  ghost predicate SameFunctions(m: Machine, n: Machine) {
    m.fn == n.fn && m.test == n.test && m.cmp == n.cmp
  }

  /** The machine shows exactly these tiers. */
  ghost predicate Shows(m: Machine, stable: set<Fact>, delta: set<Fact>) {
    && (forall p: Pred, t: Tuple {:trigger t in m.full(p)} :: t in m.full(p) <==> Fact(p, t) in stable + delta)
    && (forall p: Pred, t: Tuple {:trigger t in m.delta(p)} :: t in m.delta(p) <==> Fact(p, t) in delta)
    && m.IndexSound()
  }

  /** Tables show the store, and the built-in functions do not depend on it. */
  ghost predicate Faithful(host: Host) {
    && (forall s: set<Fact>, d: set<Fact> {:trigger host(s, d)} :: Shows(host(s, d), s, d))
    && (forall s: set<Fact>, d: set<Fact> {:trigger host(s, d)} :: SameFunctions(host(s, d), host({}, {})))
  }

  // ----- The least set closed under the rules of a stratum -----

  ghost predicate Follows(rules: seq<Rule>, f: Fact, facts: set<Fact>, host: Host) {
    exists r :: r in rules && Derives(r, f, host(facts, {}))
  }

  ghost predicate ClosedUnder(facts: set<Fact>, rules: seq<Rule>, host: Host) {
    forall f :: Follows(rules, f, facts, host) ==> f in facts
  }

  /** The larger set adds facts of the stratum only. */
  ghost predicate Extension(base: set<Fact>, facts: set<Fact>, preds: set<Pred>) {
    base <= facts && forall f :: f in facts && f !in base ==> f.rel in preds
  }

  /** The set is contained in every closed extension of the base. */
  ghost predicate Minimal(facts: set<Fact>, base: set<Fact>, rules: seq<Rule>, preds: set<Pred>, host: Host) {
    forall c :: Extension(base, c, preds) && ClosedUnder(c, rules, host) ==> facts <= c
  }

  ghost predicate IsLeast(facts: set<Fact>, base: set<Fact>, rules: seq<Rule>, preds: set<Pred>, host: Host) {
    Extension(base, facts, preds) && ClosedUnder(facts, rules, host) && Minimal(facts, base, rules, preds, host)
  }

  // ----- The rules of a stratum -----

  /** The head is in the stratum, and what the rule negates is not. */
  ghost predicate InStratum(r: Rule, preds: set<Pred>) {
    && r.head.rel in preds
    && (forall p :: p in r.premises && p.NegAtom? ==> p.pred !in preds)
  }

  /** The positive premises with this predicate are all the same premise. */
  predicate OccursOnce(ps: seq<Premise>, d: Pred) {
    forall p, q :: p in ps && q in ps && p.Atom? && q.Atom? && p.pred == d && q.pred == d ==> p == q
  }

  /** The plan for the delta of this predicate reads the premise at this place from the delta. */
  predicate DeltaScanned(p: Premise, bound: set<Var>, d: Pred) {
    p.Atom? && p.pred == d && d.IsRelation() && Keyless(p.args, bound)
  }

  /** No premise is read from the delta of this predicate. */
  predicate NoDeltaScan(ps: seq<Premise>, bound: set<Var>, d: Pred)
    decreases |ps|
  {
    ps != [] ==> !DeltaScanned(ps[0], bound, d) && NoDeltaScan(ps[1..], BoundAfter(ps[0], bound), d)
  }

  /** A delta plan names a predicate, not an occurrence of it.  Nothing is missed when one of
      the delta plans reads no delta at all, and so is the whole plan, or when no predicate
      of the stratum occurs twice. */
  ghost predicate DeltaComplete(r: Rule, preds: set<Pred>) {
    || (exists q :: q in r.premises && q.Atom? && q.pred in preds && NoDeltaScan(Delayed(r.premises), {}, q.pred))
    || (forall d :: d in preds ==> OccursOnce(r.premises, d))
  }

  /** The rules as the earlier phases hand them over. */
  ghost predicate Prepared(rules: seq<Rule>, preds: set<Pred>, hashJoin: bool) {
    forall r :: r in rules ==> InStratum(r, preds) && Safe(r) && RelationJoins(r, Config(None, hashJoin))
  }

  // ----- The plans of a stratum -----

  datatype Job = Job(rule: Rule, cfg: Config)

  function FullJobs(rules: seq<Rule>, hashJoin: bool): seq<Job> {
    if rules == [] then [] else [Job(rules[0], Config(None, hashJoin))] + FullJobs(rules[1..], hashJoin)
  }

  /** One delta plan per positive premise of the stratum. */
  function RuleDeltaJobs(r: Rule, ps: seq<Premise>, preds: set<Pred>, hashJoin: bool): seq<Job> {
    if ps == [] then []
    else
      (if ps[0].Atom? && ps[0].pred in preds then [Job(r, Config(Some(ps[0].pred), hashJoin))] else []) +
      RuleDeltaJobs(r, ps[1..], preds, hashJoin)
  }

  function DeltaJobs(rules: seq<Rule>, preds: set<Pred>, hashJoin: bool): seq<Job> {
    if rules == [] then []
    else RuleDeltaJobs(rules[0], rules[0].premises, preds, hashJoin) + DeltaJobs(rules[1..], preds, hashJoin)
  }

  function PlanJobs(jobs: seq<Job>): Result<seq<Op>> {
    if jobs == [] then Ok([])
    else
      match PlanOf(jobs[0].rule, jobs[0].cfg)
      case Err => Err
      case Ok(op) =>
        match PlanJobs(jobs[1..])
        case Err => Err
        case Ok(ops) => Ok([op] + ops)
  }

  lemma {:induction false} FullJobsAre(rules: seq<Rule>, hashJoin: bool, j: Job)
    ensures j in FullJobs(rules, hashJoin) <==> j.rule in rules && j.cfg == Config(None, hashJoin)
    decreases |rules|
  {
    if rules != [] {
      SplitHead(rules);
      FullJobsAre(rules[1..], hashJoin, j);
    }
  }

  lemma {:induction false} RuleDeltaJobsAre(r: Rule, ps: seq<Premise>, preds: set<Pred>, hashJoin: bool, j: Job)
    ensures j in RuleDeltaJobs(r, ps, preds, hashJoin) <==>
            j.rule == r && j.cfg.hashJoin == hashJoin &&
            exists p :: p in ps && p.Atom? && p.pred in preds && j.cfg.delta == Some(p.pred)
    decreases |ps|
  {
    if ps != [] {
      SplitHead(ps);
      RuleDeltaJobsAre(r, ps[1..], preds, hashJoin, j);
    }
  }

  lemma {:induction false} DeltaJobsAre(rules: seq<Rule>, preds: set<Pred>, hashJoin: bool, j: Job)
    ensures j in DeltaJobs(rules, preds, hashJoin) <==>
            exists r :: r in rules && j in RuleDeltaJobs(r, r.premises, preds, hashJoin)
    decreases |rules|
  {
    if rules != [] {
      SplitHead(rules);
      DeltaJobsAre(rules[1..], preds, hashJoin, j);
    }
  }

  // ----- A pass over the plans -----

  /** The facts that the plans insert, all seeing the same tables. */
  function PassFacts(ops: seq<Op>, m: Machine): Result<set<Fact>> {
    if ops == [] then Ok({})
    else
      match Exec(ops[0], map[], m)
      case Err => Err
      case Ok(out) =>
        match PassFacts(ops[1..], m)
        case Err => Err
        case Ok(rest) => Ok(out.facts + rest)
  }

  ghost predicate JobDerives(j: Job, f: Fact, m: Machine) {
    Derivable(Delayed(j.rule.premises), {}, j.rule.head, map[], j.cfg.delta, f, m)
  }

  ghost predicate Sound(jobs: seq<Job>) {
    forall j :: j in jobs ==> Safe(j.rule) && RelationJoins(j.rule, j.cfg)
  }

  lemma {:induction false} JobsPlanned(jobs: seq<Job>)
    requires Sound(jobs)
    ensures PlanJobs(jobs).Ok? <==> forall j :: j in jobs ==> Plannable(j.rule)
    decreases |jobs|
  {
    hide Plannable, Safe, RelationJoins, PlanOf;
    if jobs != [] {
      SplitHead(jobs);
      assert jobs[0] in jobs;
      SafeRulePlanned(jobs[0].rule, jobs[0].cfg);
      JobsPlanned(jobs[1..]);
    }
  }

  /** A pass inserts exactly what its plans' rules derive. */
  lemma {:induction false} PassExact(jobs: seq<Job>, m: Machine)
    requires Sound(jobs) && PlanJobs(jobs).Ok? && m.IndexSound()
    ensures var out := PassFacts(PlanJobs(jobs).value, m);
            && (m.Total() ==> out.Ok?)
            && (out.Ok? ==> forall f :: f in out.value <==> exists j :: j in jobs && JobDerives(j, f, m))
    decreases |jobs|
  {
    if jobs != [] {
      SplitHead(jobs);
      var ops := PlanJobs(jobs).value;
      var op := PlanOf(jobs[0].rule, jobs[0].cfg).value;
      assert ops[0] == op && ops[1..] == PlanJobs(jobs[1..]).value;
      InterpreterCorrect(jobs[0].rule, jobs[0].cfg, m);
      PassExact(jobs[1..], m);
    }
  }

  lemma AddedFacts(start: set<Fact>, next: set<Fact>, facts: set<Fact>, visible: set<Fact>, out: set<Fact>)
    requires next == start + (facts - visible)
    ensures next + (out - visible - next) == start + (facts + out - visible)
    ensures |next + (out - visible - next) - start| == |next - start| + |out - visible - next|
  {
    var added := out - visible - next;
    assert next + added - start == (next - start) + added;
  }

  lemma {:induction false} PassStep(ops: seq<Op>, i: nat, m: Machine)
    requires i < |ops|
    ensures PassFacts(ops[i..], m).Ok? <==> Exec(ops[i], map[], m).Ok? && PassFacts(ops[i + 1..], m).Ok?
    ensures PassFacts(ops[i..], m).Ok? ==>
            PassFacts(ops[i..], m).value == Exec(ops[i], map[], m).value.facts + PassFacts(ops[i + 1..], m).value
  {
    hide Exec;
    assert ops[i..][0] == ops[i] && ops[i..][1..] == ops[i + 1..];
  }

  lemma {:induction false} PassEnd(ops: seq<Op>, m: Machine)
    ensures PassFacts(ops[|ops|..], m) == Ok({})
  {
    assert ops[|ops|..] == [];
  }

  lemma NothingAdded(start: set<Fact>, next: set<Fact>)
    requires start <= next
    ensures |next - start| == 0 <==> next == start
  {
    assert next == start + (next - start);
  }

  lemma {:induction false} PassSum(ops: seq<Op>, i: nat, facts: set<Fact>, m: Machine)
    requires i < |ops| && Exec(ops[i], map[], m).Ok? && (PassFacts(ops, m).Ok? <==> PassFacts(ops[i..], m).Ok?)
    requires PassFacts(ops, m).Ok? ==> PassFacts(ops, m).value == facts + PassFacts(ops[i..], m).value
    ensures PassFacts(ops, m).Ok? <==> PassFacts(ops[i + 1..], m).Ok?
    ensures PassFacts(ops, m).Ok? ==>
            PassFacts(ops, m).value == (facts + Exec(ops[i], map[], m).value.facts) + PassFacts(ops[i + 1..], m).value
  {
    hide Exec, PassFacts;
    PassStep(ops, i, m);
  }

  /** Run the plans in turn; a fact counts as a change when no tier holds it yet. */
  method RunPass(ops: seq<Op>, st: Store, host: Host) returns (r: Result<Store>, changes: nat)
    ensures r.Ok? <==> PassFacts(ops, host(st.stable, st.delta)).Ok?
    ensures r.Ok? ==> r.value == st.(next := st.next + (PassFacts(ops, host(st.stable, st.delta)).value - st.Visible()))
    ensures r.Ok? ==> (changes == 0 <==> r.value.next == st.next)
  {
    hide Exec, PassFacts, Store.Visible;
    var m := host(st.stable, st.delta);
    assert ops[0..] == ops;
    var next := st.next;
    changes := 0;
    ghost var facts: set<Fact> := {};
    for i := 0 to |ops|
      invariant PassFacts(ops, m).Ok? <==> PassFacts(ops[i..], m).Ok?
      invariant PassFacts(ops, m).Ok? ==> PassFacts(ops, m).value == facts + PassFacts(ops[i..], m).value
      invariant next == st.next + (facts - st.Visible())
      invariant changes == |next - st.next|
    {
      var out := Exec(ops[i], map[], m);
      if out.Err? {
        PassStep(ops, i, m);
        return Err, 0;
      }
      PassSum(ops, i, facts, m);
      var added := out.value.facts - st.Visible() - next;
      AddedFacts(st.next, next, facts, st.Visible(), out.value.facts);
      changes := changes + |added|;
      next := next + added;
      facts := facts + out.value.facts;
    }
    PassEnd(ops, m);
    NothingAdded(st.next, next);
    assert facts + {} == facts;
    r := Ok(st.(next := next));
  }

  // ----- Rules are monotone in the relations of their stratum -----

  lemma {:induction false} EvalTermSame(t: Term, e: Env, m: Machine, n: Machine)
    requires SameFunctions(m, n)
    ensures EvalTerm(t, e, m) == EvalTerm(t, e, n)
    decreases t, 1
  {
    match t
    case Apply(_, args) => EvalTermsSame(args, e, m, n);
    case Literal(_, parts) => EvalTermsSame(parts, e, m, n);
    case _ =>
  }

  lemma {:induction false} EvalTermsSame(ts: seq<Term>, e: Env, m: Machine, n: Machine)
    requires SameFunctions(m, n)
    ensures EvalTerms(ts, e, m) == EvalTerms(ts, e, n)
    decreases ts, 0
  {
    if ts != [] {
      EvalTermSame(ts[0], e, m, n);
      EvalTermsSame(ts[1..], e, m, n);
    }
  }

  /** A premise keeps holding when its table grows, provided what it negates does not. */
  lemma {:induction false} HoldsInGrows(p: Premise, sigma: Env, rows: seq<Tuple>, more: seq<Tuple>, m: Machine,
      n: Machine)
    requires SameFunctions(m, n) && HoldsIn(p, sigma, rows, m)
    requires p.Atom? && EvalTerms(p.args, sigma, m).Ok? && EvalTerms(p.args, sigma, m).value in rows ==>
               EvalTerms(p.args, sigma, m).value in more
    requires p.NegAtom? ==> forall t :: t in n.full(p.pred) ==> t in m.full(p.pred)
    ensures HoldsIn(p, sigma, more, n)
  {
    match p
    case Atom(_, args) => EvalTermsSame(args, sigma, m, n);
    case NegAtom(_, args) => EvalTermsSame(args, sigma, m, n);
    case Equal(l, r) => EvalTermsSame([l, r], sigma, m, n);
    case Inequal(l, r) => EvalTermsSame([l, r], sigma, m, n);
  }

  lemma {:induction false} SatisfiesGrows(sigma: Env, r: Rule, f: Fact, m: Machine, n: Machine)
    requires SameFunctions(m, n) && Satisfies(sigma, r, f, m)
    requires forall p, t ::
             p in r.premises && p.Atom? && t in m.full(p.pred) && EvalTerms(p.args, sigma, m) == Ok(t) ==>
             t in n.full(p.pred)
    requires forall p, t :: p in r.premises && p.NegAtom? && t in n.full(p.pred) ==> t in m.full(p.pred)
    ensures Satisfies(sigma, r, f, n)
  {
    forall p | p in r.premises ensures Holds(p, sigma, n) {
      assert Holds(p, sigma, m);
      HoldsInGrows(p, sigma, if p.Atom? then m.full(p.pred) else [], if p.Atom? then n.full(p.pred) else [], m, n);
    }
    EvalTermsSame(r.head.args, sigma, m, n);
  }

  lemma {:induction false} DerivesGrows(r: Rule, f: Fact, facts: set<Fact>, more: set<Fact>, preds: set<Pred>,
      host: Host)
    requires Faithful(host) && InStratum(r, preds) && Extension(facts, more, preds) && Derives(r, f, host(facts, {}))
    ensures Derives(r, f, host(more, {}))
  {
    var m, n := host(facts, {}), host(more, {});
    assert Shows(m, facts, {}) && Shows(n, more, {});
    var sigma: Env :| Satisfies(sigma, r, f, m);
    forall p, t | p in r.premises && p.NegAtom? && t in n.full(p.pred) ensures t in m.full(p.pred) {
      assert Fact(p.pred, t) in more;
    }
    SatisfiesGrows(sigma, r, f, m, n);
  }

  /** Rules do not see where the line between stable and delta is. */
  lemma {:induction false} DerivesVisible(r: Rule, f: Fact, s: set<Fact>, d: set<Fact>, host: Host)
    requires Faithful(host)
    ensures Derives(r, f, host(s, d)) <==> Derives(r, f, host(s + d, {}))
  {
    var m, n := host(s, d), host(s + d, {});
    assert Shows(m, s, d) && Shows(n, s + d, {});
    assert s + d + {} == s + d;
    if Derives(r, f, m) {
      var sigma: Env :| Satisfies(sigma, r, f, m);
      SatisfiesGrows(sigma, r, f, m, n);
    }
    if Derives(r, f, n) {
      var sigma: Env :| Satisfies(sigma, r, f, n);
      SatisfiesGrows(sigma, r, f, n, m);
    }
  }

  // ----- Delta plans against full plans -----

  lemma {:induction false} DeltaHolds(ps: seq<Premise>, bound: set<Var>, d: Option<Pred>, sigma: Env, m: Machine)
    requires forall p, t :: t in m.delta(p) ==> t in m.full(p)
    requires AllHold(ps, bound, d, sigma, m)
    ensures AllHold(ps, bound, None, sigma, m)
    decreases |ps|
  {
    if ps != [] {
      HoldsInGrows(ps[0], sigma, RowsFor(ps[0], bound, d, m), RowsFor(ps[0], bound, None, m), m, m);
      DeltaHolds(ps[1..], BoundAfter(ps[0], bound), d, sigma, m);
    }
  }

  /** What a delta plan derives, the rule derives. */
  lemma {:induction false} JobSound(j: Job, f: Fact, s: set<Fact>, d: set<Fact>, host: Host)
    requires Faithful(host) && JobDerives(j, f, host(s, d))
    ensures Derives(j.rule, f, host(s + d, {}))
  {
    var m, ps := host(s, d), Delayed(j.rule.premises);
    assert Shows(m, s, d);
    var sigma :| Completes(sigma, ps, {}, j.rule.head, map[], j.cfg.delta, f, m);
    DeltaHolds(ps, {}, j.cfg.delta, sigma, m);
    assert Completes(sigma, ps, {}, j.rule.head, map[], None, f, m);
    DerivableMeans(j.rule, f, m);
    DerivesVisible(j.rule, f, s, d, host);
  }

  /** The premise takes a row of the delta under the assignment. */
  ghost predicate UsesDelta(p: Premise, sigma: Env, preds: set<Pred>, d: set<Fact>, m: Machine) {
    p.Atom? && p.pred in preds && EvalTerms(p.args, sigma, m).Ok? &&
    Fact(p.pred, EvalTerms(p.args, sigma, m).value) in d
  }

  /** Every premise that the plan reads from the delta of `q` takes a fact of the delta. */
  ghost predicate ScansTakeDelta(ps: seq<Premise>, bound: set<Var>, q: Pred, sigma: Env, d: set<Fact>, m: Machine)
    decreases |ps|
  {
    ps != [] ==>
      && (DeltaScanned(ps[0], bound, q) ==> UsesDelta(ps[0], sigma, {q}, d, m))
      && ScansTakeDelta(ps[1..], BoundAfter(ps[0], bound), q, sigma, d, m)
  }

  /** An assignment that holds in both tiers completes a delta plan exactly when the premises
      that the plan reads from the delta take facts of the delta. */
  lemma {:induction false} DeltaHoldsIff(ps: seq<Premise>, bound: set<Var>, q: Pred, sigma: Env, d: set<Fact>,
      m: Machine)
    requires forall p: Pred, t: Tuple {:trigger t in m.delta(p)} :: t in m.delta(p) <==> Fact(p, t) in d
    requires AllHold(ps, bound, None, sigma, m)
    ensures AllHold(ps, bound, Some(q), sigma, m) <==> ScansTakeDelta(ps, bound, q, sigma, d, m)
    decreases |ps|
  {
    if ps != [] {
      DeltaHoldsIff(ps[1..], BoundAfter(ps[0], bound), q, sigma, d, m);
    }
  }

  /** Some delta plan of the rule completes the assignment. */
  ghost predicate Covered(r: Rule, f: Fact, sigma: Env, preds: set<Pred>, hashJoin: bool, m: Machine) {
    exists j :: j in RuleDeltaJobs(r, r.premises, preds, hashJoin) &&
                Completes(sigma, Delayed(r.premises), {}, r.head, map[], j.cfg.delta, f, m)
  }

  /** A satisfying assignment is completed by some delta plan exactly when some predicate of
      the stratum that occurs takes delta facts at all the places that its plan scans. */
  lemma {:induction false} CoveredIff(r: Rule, f: Fact, sigma: Env, d: set<Fact>, preds: set<Pred>, hashJoin: bool,
      m: Machine)
    requires forall p: Pred, t: Tuple {:trigger t in m.delta(p)} :: t in m.delta(p) <==> Fact(p, t) in d
    requires Satisfies(sigma, r, f, m)
    ensures Covered(r, f, sigma, preds, hashJoin, m) <==>
            exists q ::
            q in r.premises && q.Atom? && q.pred in preds &&
            ScansTakeDelta(Delayed(r.premises), {}, q.pred, sigma, d, m)
  {
    var ps := Delayed(r.premises);
    SamePremises(r.premises);
    AllHoldMeans(ps, {}, sigma, m);
    hide AllHold, ScansTakeDelta, Delayed, RuleDeltaJobs;
    if Covered(r, f, sigma, preds, hashJoin, m) {
      var j :| j in RuleDeltaJobs(r, r.premises, preds, hashJoin) &&
      Completes(sigma, ps, {}, r.head, map[], j.cfg.delta, f, m);
      RuleDeltaJobsAre(r, r.premises, preds, hashJoin, j);
      var q :| q in r.premises && q.Atom? && q.pred in preds && j.cfg.delta == Some(q.pred);
      DeltaHoldsIff(ps, {}, q.pred, sigma, d, m);
    }
    if q :| q in r.premises && q.Atom? && q.pred in preds && ScansTakeDelta(ps, {}, q.pred, sigma, d, m) {
      var j := Job(r, Config(Some(q.pred), hashJoin));
      RuleDeltaJobsAre(r, r.premises, preds, hashJoin, j);
      DeltaHoldsIff(ps, {}, q.pred, sigma, d, m);
      assert Completes(sigma, ps, {}, r.head, map[], j.cfg.delta, f, m);
    }
  }

  lemma {:induction false} NoScanTakes(ps: seq<Premise>, bound: set<Var>, q: Pred, sigma: Env, d: set<Fact>, m: Machine)
    requires NoDeltaScan(ps, bound, q)
    ensures ScansTakeDelta(ps, bound, q, sigma, d, m)
    decreases |ps|
  {
    if ps != [] { NoScanTakes(ps[1..], BoundAfter(ps[0], bound), q, sigma, d, m); }
  }

  lemma {:induction false} OnceTakes(ps: seq<Premise>, all: seq<Premise>, bound: set<Var>, q: Premise, sigma: Env,
      d: set<Fact>, m: Machine)
    requires (forall p :: p in ps ==> p in all) && q in all && q.Atom? && OccursOnce(all, q.pred) &&
             UsesDelta(q, sigma, {q.pred}, d, m)
    ensures ScansTakeDelta(ps, bound, q.pred, sigma, d, m)
    decreases |ps|
  {
    if ps != [] { OnceTakes(ps[1..], all, BoundAfter(ps[0], bound), q, sigma, d, m); }
  }

  /** An assignment that needs the delta is completed by some delta plan. */
  lemma {:induction false} AssignmentCovered(r: Rule, f: Fact, sigma: Env, q: Premise, d: set<Fact>, preds: set<Pred>,
      hashJoin: bool, m: Machine)
    requires forall p: Pred, t: Tuple {:trigger t in m.delta(p)} :: t in m.delta(p) <==> Fact(p, t) in d
    requires Satisfies(sigma, r, f, m) && DeltaComplete(r, preds) && q in r.premises && UsesDelta(q, sigma, preds, d, m)
    ensures Covered(r, f, sigma, preds, hashJoin, m)
  {
    var ps := Delayed(r.premises);
    CoveredIff(r, f, sigma, d, preds, hashJoin, m);
    SamePremises(r.premises);
    hide Delayed, Covered, ScansTakeDelta;
    if x :| x in r.premises && x.Atom? && x.pred in preds && NoDeltaScan(ps, {}, x.pred) {
      NoScanTakes(ps, {}, x.pred, sigma, d, m);
    } else {
      OnceTakes(ps, r.premises, {}, q, sigma, d, m);
    }
  }

  /** What a rule derives from both tiers, it derives from the stable tier alone, or one of
      its delta plans derives it. */
  lemma {:induction false} DeltaCovers(r: Rule, f: Fact, s: set<Fact>, d: set<Fact>, preds: set<Pred>, hashJoin: bool,
      host: Host)
    requires Faithful(host) && InStratum(r, preds) && DeltaComplete(r, preds)
    requires forall g :: g in d ==> g.rel in preds
    requires Derives(r, f, host(s, d))
    ensures Derives(r, f, host(s, {})) ||
            exists j :: j in RuleDeltaJobs(r, r.premises, preds, hashJoin) && JobDerives(j, f, host(s, d))
  {
    var m := host(s, d);
    assert Shows(m, s, d);
    var sigma: Env :| Satisfies(sigma, r, f, m);
    if q :| q in r.premises && UsesDelta(q, sigma, preds, d, m) {
      AssignmentCovered(r, f, sigma, q, d, preds, hashJoin, m);
      var j :| j in RuleDeltaJobs(r, r.premises, preds, hashJoin) &&
               Completes(sigma, Delayed(r.premises), {}, r.head, map[], j.cfg.delta, f, m);
      RuleDeltaJobsAre(r, r.premises, preds, hashJoin, j);
      assert JobDerives(j, f, m);
    } else {
      StableAlone(r, f, sigma, s, d, preds, host);
    }
  }

  /** An assignment that takes no fact of the delta holds in the stable tier. */
  lemma {:induction false} StableAlone(r: Rule, f: Fact, sigma: Env, s: set<Fact>, d: set<Fact>, preds: set<Pred>,
      host: Host)
    requires Faithful(host) && InStratum(r, preds) && (forall g :: g in d ==> g.rel in preds)
    requires Satisfies(sigma, r, f, host(s, d)) &&
             forall q :: q in r.premises ==> !UsesDelta(q, sigma, preds, d, host(s, d))
    ensures Satisfies(sigma, r, f, host(s, {}))
  {
    var m, n := host(s, d), host(s, {});
    assert Shows(m, s, d) && Shows(n, s, {});
    forall p, t | p in r.premises && p.Atom? && t in m.full(p.pred) && EvalTerms(p.args, sigma, m) == Ok(t)
      ensures t in n.full(p.pred)
    {
      assert !UsesDelta(p, sigma, preds, d, m);
      assert Fact(p.pred, t) in s + d;
    }
    SatisfiesGrows(sigma, r, f, m, n);
  }
}
