/** The strata as the generated function runs them: scans see what was merged, and only a
    recursive stratum merges. The facts are those of the driver when no stratum reads facts that
    wait for a merge. */
module Snapshots {
  import opened Datalog
  import opened Interp
  import opened Planner
  import opened PlanCorrect
  import opened RuleTheorem
  import opened SemiNaive
  import opened Evaluate
  import opened Program
  import opened VarRules
  import opened Delay

  // ----- Relations of one width -----

  type Widths = Pred -> nat

  ghost predicate Wide(facts: set<Fact>, width: Widths) {
    forall f :: f in facts ==> |f.tuple| == width(f.rel)
  }

  ghost predicate WideRule(r: Rule, width: Widths) {
    && (forall p :: p in r.premises && p.Atom? && p.pred.IsRelation() ==> |p.args| == width(p.pred))
    && |r.head.args| == width(r.head.rel)
  }

  // ----- The strata over merged and waiting facts -----

  /** The facts that scans see, and those inserted since the last merge. */
  datatype Tiers = Tiers(seen: set<Fact>, waiting: set<Fact>) {
    function All(): set<Fact> {
      seen + waiting
    }
  }

  /** A stratum: its full pass, and if it is recursive a merge and the delta rounds. */
  ghost function Turn(s: Stratum, hashJoin: bool, t: Tiers, h: Host, rounds: nat): Option<Tiers> {
    var initial, deltas := PlanJobs(FullJobs(s.rules, hashJoin)), PlanJobs(DeltaJobs(s.rules, s.preds, hashJoin));
    if initial.Err? || (Recursive(s) && deltas.Err?) then None
    else
      match PassFacts(initial.value, h(t.seen, {}))
      case Err => None
      case Ok(out) =>
        var waiting := t.waiting + (out - t.seen);
        if !Recursive(s) then Some(Tiers(t.seen, waiting))
        else
          var e := RoundsOf(deltas.value, Store(t.seen, waiting, {}), h, rounds);
          if e.Done? then Some(Tiers(e.store.Visible(), {})) else None
  }

  ghost function SnapshotOf(strata: seq<Stratum>, hashJoin: bool, t: Tiers, h: Host, rounds: nat): Option<Tiers> {
    if strata == [] then Some(t)
    else
      var next := Turn(strata[0], hashJoin, t, h, rounds);
      if next.Some? then SnapshotOf(strata[1..], hashJoin, next.value, h, rounds) else None
  }

  // ----- The driver: every stratum over all facts so far -----

  /** The strata in turn, each over all facts so far. */
  ghost function ProgramOf(strata: seq<Stratum>, hashJoin: bool, facts: set<Fact>, h: Host,
      rounds: nat): Option<set<Fact>> {
    if strata == [] then Some(facts)
    else
      var e := StratumOf(strata[0], hashJoin, Store(facts, {}, {}), h, rounds);
      if e.Done? then ProgramOf(strata[1..], hashJoin, e.store.Visible(), h, rounds) else None
  }

  lemma {:induction false} ProgramPerfect(done: seq<Stratum>, strata: seq<Stratum>, hashJoin: bool, base: set<Fact>,
      facts: set<Fact>, h: Host, rounds: nat)
    requires Faithful(h) && (forall s :: s in strata ==> Evaluable(s, hashJoin)) && PerfectModel(done, base, facts, h)
    requires ProgramOf(strata, hashJoin, facts, h, rounds).Some?
    ensures PerfectModel(done + strata, base, ProgramOf(strata, hashJoin, facts, h, rounds).value, h)
    decreases |strata|
  {
    hide StratumOf, Faithful, IsLeast, PerfectModel, Evaluable;
    if strata == [] {
      assert done + strata == done;
    } else {
      var s := strata[0];
      assert s in strata;
      var next := StratumOf(s, hashJoin, Store(facts, {}, {}), h, rounds).store.Visible();
      var more := done + [s];
      assert more[..|done|] == done && more[..|done| + 1] == more && more[|done|] == s &&
             Store(facts, {}, {}).Visible() == facts;
      StratumAdds(more, |done|, hashJoin, base, Store(facts, {}, {}), h, rounds);
      ProgramPerfect(done + [s], strata[1..], hashJoin, base, next, h, rounds);
      assert done + [s] + strata[1..] == done + strata;
    }
  }

  // ----- Strata that read nothing that waits -----

  ghost predicate Waits(t: Tiers, pend: set<Pred>) {
    forall f :: f in t.waiting ==> f.rel in pend
  }

  ghost predicate ReadsNone(s: Stratum, pend: set<Pred>) {
    forall r, d :: r in s.rules && d in pend ==> !Reads(r, d)
  }

  /** No stratum reads a relation whose facts wait: those of the strata since the last
      recursive one, which alone merges. */
  ghost predicate Insulated(strata: seq<Stratum>, pend: set<Pred>) {
    strata != [] ==>
      && ReadsNone(strata[0], pend) && pend !! strata[0].preds
      && Insulated(strata[1..], if Recursive(strata[0]) then {} else pend + strata[0].preds)
  }

  lemma {:induction false} FollowsMerged(s: Stratum, t: Tiers, pend: set<Pred>, f: Fact, h: Host)
    requires Faithful(h) && Waits(t, pend) && ReadsNone(s, pend)
    ensures Follows(s.rules, f, t.seen, h) <==> Follows(s.rules, f, t.All(), h)
  {
    assert Extension(t.seen, t.All(), pend);
    hide Waits, Derives, Faithful;
    forall r | r in s.rules ensures Derives(r, f, h(t.seen, {})) <==> Derives(r, f, h(t.All(), {})) {
      DerivesFramed(r, f, t.seen, t.All(), pend, h);
    }
  }

  /** The full pass derives what follows from the facts that scans see. */
  lemma {:induction false} PassSees(s: Stratum, hashJoin: bool, stable: set<Fact>, delta: set<Fact>, h: Host)
    requires Faithful(h) && h({}, {}).Total() && Prepared(s.rules, s.preds, hashJoin) &&
             PlanJobs(FullJobs(s.rules, hashJoin)).Ok?
    ensures var out := PassFacts(PlanJobs(FullJobs(s.rules, hashJoin)).value, h(stable, delta));
            && out.Ok? && (forall f :: f in out.value <==> Follows(s.rules, f, stable + delta, h))
            && forall f :: f in out.value ==> f.rel in s.preds
  {
    hide PassFacts, PlanJobs, FullJobs, Faithful, Follows;
    FullPassFacts(s, hashJoin, Store(stable, delta, {}), h);
    var out := PassFacts(PlanJobs(FullJobs(s.rules, hashJoin)).value, h(stable, delta));
    forall f | f in out.value ensures f.rel in s.preds { FollowsInStratum(s, f, stable + delta, h); }
  }

  /** The full pass of such a stratum, as if everything had been merged. */
  lemma {:induction false} FullMerged(s: Stratum, hashJoin: bool, t: Tiers, pend: set<Pred>, h: Host)
    requires Faithful(h) && h({}, {}).Total() && Prepared(s.rules, s.preds, hashJoin) &&
             PlanJobs(FullJobs(s.rules, hashJoin)).Ok?
    requires Waits(t, pend) && ReadsNone(s, pend)
    ensures var ops := PlanJobs(FullJobs(s.rules, hashJoin)).value;
            PassFacts(ops, h(t.seen, {})).Ok? && PassFacts(ops, h(t.All(), {})) == PassFacts(ops, h(t.seen, {}))
  {
    hide PassFacts, PlanJobs, FullJobs, Faithful, Waits, ReadsNone, Follows;
    PassSees(s, hashJoin, t.seen, {}, h);
    PassSees(s, hashJoin, t.All(), {}, h);
    assert t.seen + {} == t.seen && t.All() + {} == t.All();
    var ops := PlanJobs(FullJobs(s.rules, hashJoin)).value;
    var a, b := PassFacts(ops, h(t.seen, {})), PassFacts(ops, h(t.All(), {}));
    forall f ensures f in a.value <==> f in b.value { FollowsMerged(s, t, pend, f, h); }
    assert a.value == b.value;
  }

  /** Premises read from the delta of `q` do not see other relations' facts there. */
  lemma {:induction false} HoldsShifted(ps: seq<Premise>, bound: set<Var>, q: Pred, sigma: Env, m: Machine, n: Machine)
    requires SameFunctions(m, n) && (forall p, t :: t in m.full(p) <==> t in n.full(p)) &&
             (forall t :: t in m.delta(q) <==> t in n.delta(q))
    requires AllHold(ps, bound, Some(q), sigma, m)
    ensures AllHold(ps, bound, Some(q), sigma, n)
    decreases |ps|
  {
    if ps != [] {
      HoldsInGrows(ps[0], sigma, RowsFor(ps[0], bound, Some(q), m), RowsFor(ps[0], bound, Some(q), n), m, n);
      HoldsShifted(ps[1..], BoundAfter(ps[0], bound), q, sigma, m, n);
    }
  }

  lemma {:induction false} JobShifted(j: Job, f: Fact, q: Pred, m: Machine, n: Machine)
    requires SameFunctions(m, n) && (forall p, t :: t in m.full(p) <==> t in n.full(p)) &&
             (forall t :: t in m.delta(q) <==> t in n.delta(q))
    requires j.cfg.delta == Some(q) && JobDerives(j, f, m)
    ensures JobDerives(j, f, n)
  {
    var ps := Delayed(j.rule.premises);
    var sigma :| Completes(sigma, ps, {}, j.rule.head, map[], Some(q), f, m);
    HoldsShifted(ps, {}, q, sigma, m, n);
    EvalTermsSame(j.rule.head.args, sigma, m, n);
    assert Completes(sigma, ps, {}, j.rule.head, map[], Some(q), f, n);
  }

  /** A delta round does not depend on where the other relations' facts are. */
  lemma {:induction false} DeltaShifted(s: Stratum, hashJoin: bool, v: set<Fact>, d: set<Fact>, more: set<Fact>,
      h: Host)
    requires Faithful(h) && h({}, {}).Total() && Prepared(s.rules, s.preds, hashJoin) &&
             PlanJobs(DeltaJobs(s.rules, s.preds, hashJoin)).Ok?
    requires forall f :: f in more ==> f.rel !in s.preds
    ensures var ops := PlanJobs(DeltaJobs(s.rules, s.preds, hashJoin)).value;
            PassFacts(ops, h(v, d + more)).Ok? && PassFacts(ops, h(v, d + more)) == PassFacts(ops, h(v + more, d))
  {
    var jobs, m, n := DeltaJobs(s.rules, s.preds, hashJoin), h(v, d + more), h(v + more, d);
    assert Shows(m, v, d + more) && Shows(n, v + more, d) && SameFunctions(m, h({}, {})) && SameFunctions(n, h({}, {}));
    assert v + (d + more) == v + more + d;
    DeltaPassSound(s, hashJoin, Store(v, d + more, {}), h);
    DeltaPassSound(s, hashJoin, Store(v + more, d, {}), h);
    hide PassFacts, PlanJobs, JobDerives, Follows, DeltaJobs, Faithful;
    forall f, j | j in jobs ensures JobDerives(j, f, m) <==> JobDerives(j, f, n) {
      var q := DeltaJobPred(s, hashJoin, j);
      if JobDerives(j, f, m) { JobShifted(j, f, q, m, n); }
      if JobDerives(j, f, n) { JobShifted(j, f, q, n, m); }
    }
    var ops := PlanJobs(jobs).value;
    assert PassFacts(ops, m).value == PassFacts(ops, n).value;
  }

  lemma {:induction false} DeltaJobPred(s: Stratum, hashJoin: bool, j: Job) returns (q: Pred)
    requires j in DeltaJobs(s.rules, s.preds, hashJoin)
    ensures j.cfg.delta == Some(q) && q in s.preds
  {
    DeltaJobsAre(s.rules, s.preds, hashJoin, j);
    var r :| r in s.rules && j in RuleDeltaJobs(r, r.premises, s.preds, hashJoin);
    RuleDeltaJobsAre(r, r.premises, s.preds, hashJoin, j);
    q := j.cfg.delta.value;
  }

  lemma {:induction false} RoundsShifted(s: Stratum, hashJoin: bool, v: set<Fact>, d: set<Fact>, more: set<Fact>,
      h: Host, rounds: nat)
    requires Faithful(h) && h({}, {}).Total() && Prepared(s.rules, s.preds, hashJoin) &&
             PlanJobs(DeltaJobs(s.rules, s.preds, hashJoin)).Ok?
    requires forall f :: f in more ==> f.rel !in s.preds
    ensures var ops := PlanJobs(DeltaJobs(s.rules, s.preds, hashJoin)).value;
            RoundsOf(ops, Store(v, d + more, {}), h, rounds) == RoundsOf(ops, Store(v + more, d, {}), h, rounds)
  {
    hide PassFacts, PlanJobs, DeltaJobs, Faithful;
    if rounds > 0 {
      DeltaShifted(s, hashJoin, v, d, more, h);
      var a, b := Store(v, d + more, {}), Store(v + more, d, {});
      assert a.Visible() == b.Visible();
      var out := PassFacts(PlanJobs(DeltaJobs(s.rules, s.preds, hashJoin)).value, h(v, d + more)).value;
      assert Advance(a, out) == Advance(b, out);
    }
  }

  /** A stratum that reads nothing that waits: the first round finds the waiting facts in the
      delta, and from there on the rounds are those of the driver. */
  lemma {:induction false} TurnMerged(s: Stratum, hashJoin: bool, t: Tiers, pend: set<Pred>, h: Host, rounds: nat)
    requires Faithful(h) && h({}, {}).Total() && Prepared(s.rules, s.preds, hashJoin)
    requires Waits(t, pend) && ReadsNone(s, pend) && pend !! s.preds
    ensures var e, next := StratumOf(s, hashJoin, Store(t.All(), {}, {}), h, rounds), Turn(s, hashJoin, t, h, rounds);
            && (next.Some? <==> e.Done?)
            && (e.Done? ==> next.value.All() == e.store.Visible())
            && (e.Done? ==> Waits(next.value, if Recursive(s) then {} else pend + s.preds))
  {
    hide PassFacts, PlanJobs, FullJobs, DeltaJobs, Faithful, RoundsOf, ReadsNone;
    var all, full, deltas := t.All(), PlanJobs(FullJobs(s.rules, hashJoin)),
                             PlanJobs(DeltaJobs(s.rules, s.preds, hashJoin));
    if full.Ok? && (Recursive(s) ==> deltas.Ok?) {
      FullMerged(s, hashJoin, t, pend, h);
      PassSees(s, hashJoin, t.seen, {}, h);
      var out := PassFacts(full.value, h(t.seen, {})).value;
      assert {} + (out - all) == out - all && all + {} == all;
      assert Advance(Store(all, {}, {}), out) == Store(all, out - all, {});
      assert t.waiting + (out - t.seen) == (out - all) + t.waiting;
      if Recursive(s) { RoundsShifted(s, hashJoin, t.seen, out - all, t.waiting, h, rounds); }
    }
  }

  /** When no stratum reads what waits, the run ends where the driver's evaluation ends. */
  lemma {:induction false} InsulatedComputes(strata: seq<Stratum>, hashJoin: bool, t: Tiers, pend: set<Pred>, h: Host,
      rounds: nat)
    requires Faithful(h) && h({}, {}).Total() && (forall s :: s in strata ==> Prepared(s.rules, s.preds, hashJoin))
    requires Waits(t, pend) && Insulated(strata, pend)
    ensures var a, b := SnapshotOf(strata, hashJoin, t, h, rounds), ProgramOf(strata, hashJoin, t.All(), h, rounds);
            (a.Some? <==> b.Some?) && (a.Some? ==> a.value.All() == b.value)
    decreases |strata|
  {
    hide Faithful, Prepared, Waits, ReadsNone, StratumOf, Turn;
    if strata != [] {
      var s := strata[0];
      assert s in strata;
      TurnMerged(s, hashJoin, t, pend, h, rounds);
      var next := Turn(s, hashJoin, t, h, rounds);
      if next.Some? {
        InsulatedComputes(strata[1..], hashJoin, next.value, if Recursive(s) then {} else pend + s.preds, h, rounds);
      }
    }
  }

  // ----- Without a recursive stratum nothing is merged -----

  ghost predicate FollowsSomewhere(strata: seq<Stratum>, f: Fact, facts: set<Fact>, h: Host) {
    exists s :: s in strata && Follows(s.rules, f, facts, h)
  }

  /** Strata without recursion add what follows in one step from the facts given. */
  lemma {:induction false} OneStep(strata: seq<Stratum>, hashJoin: bool, t: Tiers, h: Host, rounds: nat)
    requires Faithful(h) && h({}, {}).Total()
    requires forall s :: s in strata ==> Prepared(s.rules, s.preds, hashJoin) && AllPlannable(s) && !Recursive(s)
    ensures var a := SnapshotOf(strata, hashJoin, t, h, rounds);
            && a.Some? && a.value.seen == t.seen
            && forall f :: f in a.value.All() <==> f in t.All() || FollowsSomewhere(strata, f, t.seen, h)
    decreases |strata|
  {
    hide Faithful, Prepared, PassFacts, PlanJobs, FullJobs, Follows, AllPlannable, DeltaJobs;
    if strata != [] {
      var s, rest := strata[0], strata[1..];
      assert s in strata;
      StratumPlanned(s, hashJoin);
      PassSees(s, hashJoin, t.seen, {}, h);
      assert t.seen + {} == t.seen;
      var next := Turn(s, hashJoin, t, h, rounds).value;
      OneStep(rest, hashJoin, next, h, rounds);
      forall f
        ensures FollowsSomewhere(strata, f, t.seen, h) <==>
                Follows(s.rules, f, t.seen, h) || FollowsSomewhere(rest, f, t.seen, h)
      {
        if FollowsSomewhere(strata, f, t.seen, h) {
          var x :| x in strata && Follows(x.rules, f, t.seen, h);
          if x != s { assert x in rest; }
        }
      }
    }
  }

  // ----- The condition is exact for programs with one rule for each relation -----

  predicate NoConstants(r: Rule) {
    (forall p, t :: p in r.premises && p.Atom? && t in p.args ==> t.VarTerm?) &&
    forall t :: t in r.head.args ==> t.VarTerm?
  }

  ghost predicate Single(s: Stratum, width: Widths) {
    && |s.rules| == 1 && VarRule(s.rules[0]) && NoConstants(s.rules[0]) && WideRule(s.rules[0], width)
    && s.preds == {s.rules[0].head.rel} && !Recursive(s)
  }

  /** Strata in order, each one rule over variables for a relation of its own. */
  ghost predicate Flat(strata: seq<Stratum>, width: Widths) {
    && (forall s :: s in strata ==> Single(s, width)) && Ordered(strata)
    && forall i, j :: 0 <= i < j < |strata| ==> strata[i].preds !! strata[j].preds
  }

  /** Some rule reads a relation that an earlier stratum derives. */
  ghost predicate ReadsDerived(strata: seq<Stratum>) {
    exists i, j, d :: 0 <= i < j < |strata| && d in strata[i].preds && !ReadsNone(strata[j], {d})
  }

  ghost predicate Agrees(strata: seq<Stratum>, hashJoin: bool, facts: set<Fact>, h: Host, rounds: nat) {
    var a, b := SnapshotOf(strata, hashJoin, Tiers(facts, {}), h, rounds),
                ProgramOf(strata, hashJoin, facts, h, rounds);
    a.Some? && b.Some? && a.value.All() == b.value
  }

  lemma {:induction false} SinglePrepared(s: Stratum, width: Widths, hashJoin: bool)
    requires Single(s, width)
    ensures Prepared(s.rules, s.preds, hashJoin) && AllPlannable(s)
  {
    VarRuleAnalysed(s.rules[0], Config(None, hashJoin));
    VarRulePlannable(s.rules[0]);
    hide Safe, RelationJoins, Plannable;
    forall r | r in s.rules ensures r == s.rules[0] {}
  }

  lemma {:induction false} FlatInsulated(strata: seq<Stratum>, k: nat, pend: set<Pred>, width: Widths)
    requires Flat(strata, width) && !ReadsDerived(strata) && k <= |strata|
    requires forall d :: d in pend ==> exists i :: 0 <= i < k && d in strata[i].preds
    ensures Insulated(strata[k..], pend)
    decreases |strata| - k
  {
    if k < |strata| {
      var s := strata[k];
      forall r, d | r in s.rules && d in pend ensures !Reads(r, d) {
        var i :| 0 <= i < k && d in strata[i].preds;
        assert ReadsNone(strata[k], {d});
      }
      assert strata[k..][1..] == strata[k + 1..] && Single(s, width);
      FlatInsulated(strata, k + 1, pend + s.preds, width);
    }
  }

  function Uniform(p: Pred, n: nat): Fact {
    Fact(p, seq(n, i => Null))
  }

  ghost predicate DerivedIn(strata: seq<Stratum>, d: Pred) {
    exists s :: s in strata && d in s.preds
  }

  /** One fact for each relation that is read and not derived. */
  ghost function GivenFacts(strata: seq<Stratum>, width: Widths): set<Fact> {
    set s, r, p | s in strata && r in s.rules && p in r.premises && p.Atom? && !DerivedIn(strata, p.pred) ::
    Uniform(p.pred, width(p.pred))
  }

  lemma {:induction false} UniformDerives(r: Rule, facts: set<Fact>, width: Widths, h: Host)
    requires Faithful(h) && VarRule(r) && NoConstants(r) && WideRule(r, width)
    requires forall p :: p in r.premises && p.Atom? ==> Uniform(p.pred, width(p.pred)) in facts
    ensures Derives(r, Uniform(r.head.rel, width(r.head.rel)), h(facts, {}))
  {
    var sigma: Env := map v | v in PremisesVars(r.premises) :: Null;
    assert Shows(h(facts, {}), facts, {});
    forall p | p in r.premises ensures Assigned(p.args, sigma) && AtomFact(p, sigma) in facts {
      AllAssigned(r, sigma, p);
      assert Values(p.args, sigma) == Uniform(p.pred, width(p.pred)).tuple;
    }
    forall t | t in r.head.args ensures t.VarTerm? && t.v in sigma { ArgVars(r.head.args, t.v); }
    var f := Uniform(r.head.rel, width(r.head.rel));
    assert Values(r.head.args, sigma) == f.tuple;
    VarSatisfies(r, f, sigma, facts, {}, h(facts, {}));
    assert Satisfies(sigma, r, f, h(facts, {}));
  }

  /** From the given facts the driver derives a fact of every relation. */
  lemma {:induction false} DriverDerivesAll(strata: seq<Stratum>, k: nat, hashJoin: bool, facts: set<Fact>,
      width: Widths, h: Host, rounds: nat)
    requires Faithful(h) && h({}, {}).Total() && Flat(strata, width) && k <= |strata| &&
             GivenFacts(strata, width) <= facts
    requires forall i, d :: 0 <= i < k && d in strata[i].preds ==> Uniform(d, width(d)) in facts
    ensures var b := ProgramOf(strata[k..], hashJoin, facts, h, rounds);
            b.Some? && forall i, d :: 0 <= i < |strata| && d in strata[i].preds ==> Uniform(d, width(d)) in b.value
    decreases |strata| - k
  {
    if k < |strata| {
      var s := strata[k];
      assert s in strata && Single(s, width) && strata[k..][0] == s && strata[k..][1..] == strata[k + 1..];
      HasPremises(strata, k, facts, width);
      UniformDerives(s.rules[0], facts, width, h);
      OnceDriver(s, hashJoin, facts, width, h, rounds);
      var next := StratumOf(s, hashJoin, Store(facts, {}, {}), h, rounds).store.Visible();
      DriverDerivesAll(strata, k + 1, hashJoin, next, width, h, rounds);
    }
  }

  lemma {:induction false} HasPremises(strata: seq<Stratum>, k: nat, facts: set<Fact>, width: Widths)
    requires Flat(strata, width) && k < |strata| && GivenFacts(strata, width) <= facts && |strata[k].rules| == 1
    requires forall i, d :: 0 <= i < k && d in strata[i].preds ==> Uniform(d, width(d)) in facts
    ensures forall p :: p in strata[k].rules[0].premises && p.Atom? ==> Uniform(p.pred, width(p.pred)) in facts
  {
    var s := strata[k];
    var r := s.rules[0];
    forall p | p in r.premises && p.Atom? ensures Uniform(p.pred, width(p.pred)) in facts {
      assert s in strata && r in s.rules;
      if DerivedIn(strata, p.pred) {
        var i :| 0 <= i < |strata| && p.pred in strata[i].preds;
        assert Reads(r, p.pred);
        assert i != k by { assert Single(s, width); }
      } else {
        assert Uniform(p.pred, width(p.pred)) in GivenFacts(strata, width);
      }
    }
  }

  lemma {:induction false} OnceDriver(s: Stratum, hashJoin: bool, facts: set<Fact>, width: Widths, h: Host, rounds: nat)
    requires Faithful(h) && h({}, {}).Total() && Single(s, width)
    ensures var e := StratumOf(s, hashJoin, Store(facts, {}, {}), h, rounds);
            e.Done? && forall f :: f in e.store.Visible() <==> f in facts || Derives(s.rules[0], f, h(facts, {}))
  {
    hide PassFacts, PlanJobs, FullJobs, DeltaJobs, Faithful, Derives, AllPlannable;
    SinglePrepared(s, width, hashJoin);
    StratumPlanned(s, hashJoin);
    PassSees(s, hashJoin, facts, {}, h);
    assert facts + {} == facts;
    forall f ensures Follows(s.rules, f, facts, h) <==> Derives(s.rules[0], f, h(facts, {})) {}
  }

  /** The given facts have no fact that a rule could read off a derived relation. */
  lemma {:induction false} NothingRead(strata: seq<Stratum>, j: nat, d: Pred, f: Fact, width: Widths, h: Host)
    requires Faithful(h) && Flat(strata, width) && j < |strata| && DerivedIn(strata, d) && !ReadsNone(strata[j], {d})
    ensures !Follows(strata[j].rules, f, GivenFacts(strata, width), h)
  {
    var base, s := GivenFacts(strata, width), strata[j];
    assert s in strata && Single(s, width);
    var q, e :| q in s.rules && e in {d} && Reads(q, e);
    forall g | g in base ensures g.rel != d {}
    hide Flat, GivenFacts, DerivedIn, Single, VarRule;
    NothingToRead(s.rules[0], d, f, base, h);
  }

  lemma {:induction false} NothingToRead(r: Rule, d: Pred, f: Fact, facts: set<Fact>, h: Host)
    requires Faithful(h) && VarRule(r) && Reads(r, d) && forall g :: g in facts ==> g.rel != d
    ensures !Derives(r, f, h(facts, {}))
  {
    var m := h(facts, {});
    assert Shows(m, facts, {});
    hide Faithful, Satisfies;
    var p :| p in r.premises && (p.Atom? || p.NegAtom?) && p.pred == d;
    assert VarAtom(p);
    forall sigma: Env ensures !Satisfies(sigma, r, f, m) {
      VarSatisfies(r, f, sigma, facts, {}, m);
      if Assigned(p.args, sigma) { assert AtomFact(p, sigma).rel == d; }
    }
  }

  /** A stratum that reads a derived relation loses its fact. */
  lemma {:induction false} UnmergedLost(strata: seq<Stratum>, i: nat, j: nat, d: Pred, hashJoin: bool, width: Widths,
      h: Host, rounds: nat)
    requires Faithful(h) && h({}, {}).Total() && Flat(strata, width)
    requires i < j < |strata| && d in strata[i].preds && !ReadsNone(strata[j], {d})
    ensures !Agrees(strata, hashJoin, GivenFacts(strata, width), h, rounds)
  {
    var base, s := GivenFacts(strata, width), strata[j];
    assert strata[i] in strata && s in strata && Single(s, width);
    var p := s.rules[0].head.rel;
    var f := Uniform(p, width(p));
    assert p in s.preds && DerivedIn(strata, d);
    NotGiven(strata, s, p, width);
    hide SnapshotOf, ProgramOf, Follows, Faithful, ReadsNone, Flat, GivenFacts, Single, DerivedIn;
    assert f in ProgramOf(strata, hashJoin, base, h, rounds).value by {
      assert strata[0..] == strata;
      DriverDerivesAll(strata, 0, hashJoin, base, width, h, rounds);
    }
    assert !FollowsSomewhere(strata, f, base, h) by {
      NothingRead(strata, j, d, f, width, h);
      forall x | x in strata
        ensures !Follows(x.rules, f, base, h) { OnlyOwn(strata, j, x, f, base, width, hashJoin, h); }
    }
    FlatReady(strata, width, hashJoin);
    OneStep(strata, hashJoin, Tiers(base, {}), h, rounds);
  }

  lemma {:induction false} NotGiven(strata: seq<Stratum>, s: Stratum, p: Pred, width: Widths)
    requires s in strata && p in s.preds
    ensures Uniform(p, width(p)) !in GivenFacts(strata, width)
  {
    assert DerivedIn(strata, p);
  }

  lemma {:induction false} FlatReady(strata: seq<Stratum>, width: Widths, hashJoin: bool)
    requires Flat(strata, width)
    ensures forall s :: s in strata ==> Prepared(s.rules, s.preds, hashJoin) && AllPlannable(s) && !Recursive(s)
  {
    hide Prepared, AllPlannable, VarRule, WideRule;
    forall s | s in strata
      ensures Prepared(s.rules, s.preds, hashJoin) && AllPlannable(s) { SinglePrepared(s, width, hashJoin); }
  }

  /** Only the stratum of its relation derives a fact. */
  lemma {:induction false} OnlyOwn(strata: seq<Stratum>, j: nat, x: Stratum, f: Fact, facts: set<Fact>, width: Widths,
      hashJoin: bool, h: Host)
    requires Flat(strata, width) && j < |strata| && x in strata && f.rel in strata[j].preds &&
             !Follows(strata[j].rules, f, facts, h)
    ensures !Follows(x.rules, f, facts, h)
  {
    var k :| 0 <= k < |strata| && x == strata[k];
    hide Follows, VarRule, WideRule;
    SinglePrepared(x, width, hashJoin);
    if k != j && Follows(x.rules, f, facts, h) { FollowsInStratum(x, f, facts, h); }
  }

  /** The run without merges agrees with the driver on all facts if and only if no rule reads
      a derived relation. */
  lemma {:induction false} FlatExactIff(strata: seq<Stratum>, hashJoin: bool, width: Widths, h: Host, rounds: nat)
    requires Faithful(h) && h({}, {}).Total() && Flat(strata, width)
    ensures (forall facts :: Wide(facts, width) ==> Agrees(strata, hashJoin, facts, h, rounds)) <==>
            !ReadsDerived(strata)
  {
    hide Faithful, SnapshotOf, ProgramOf;
    if ReadsDerived(strata) {
      var i, j, d :| 0 <= i < j < |strata| && d in strata[i].preds && !ReadsNone(strata[j], {d});
      UnmergedLost(strata, i, j, d, hashJoin, width, h, rounds);
      assert Wide(GivenFacts(strata, width), width);
    } else {
      assert strata[0..] == strata;
      FlatInsulated(strata, 0, {}, width);
      FlatReady(strata, width, hashJoin);
      forall facts | Wide(facts, width) ensures Agrees(strata, hashJoin, facts, h, rounds) {
        assert Tiers(facts, {}).All() == facts;
        InsulatedComputes(strata, hashJoin, Tiers(facts, {}), {}, h, rounds);
        OneStep(strata, hashJoin, Tiers(facts, {}), h, rounds);
      }
    }
  }
}
