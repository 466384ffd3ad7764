/** The evaluation loop of the driver: strata in order, each to its least fixpoint. */
module Evaluate {
  import opened Datalog
  import opened Interp
  import opened Planner
  import opened RuleTheorem
  import opened SemiNaive

  datatype Stratum = Stratum(preds: set<Pred>, rules: seq<Rule>)

  datatype Evaluation = Done(store: Store) | Failed | Unfinished

  // ----- What every round keeps -----

  /** Between rounds: the consequences of the stable tier are all visible, and nothing is
      visible that some closed extension of the base lacks. */
  ghost predicate Saturating(st: Store, base: set<Fact>, s: Stratum, host: Host) {
    && st.next == {}
    && base <= st.stable
    && Extension(base, st.Visible(), s.preds)
    && (forall g :: g in st.delta ==> g.rel in s.preds)
    && (forall f :: Follows(s.rules, f, st.stable, host) ==> f in st.Visible())
    && Minimal(st.Visible(), base, s.rules, s.preds, host)
  }

  /** What the rules derive from part of every closed extension stays in it. */
  lemma {:induction false} MinimalGrows(facts: set<Fact>, more: set<Fact>, base: set<Fact>, s: Stratum, host: Host)
    requires Faithful(host) && (forall r :: r in s.rules ==> InStratum(r, s.preds))
    requires Extension(base, facts, s.preds) && Minimal(facts, base, s.rules, s.preds, host)
    requires forall f :: f in more ==> Follows(s.rules, f, facts, host)
    ensures Minimal(facts + more, base, s.rules, s.preds, host)
  {
    forall c | Extension(base, c, s.preds) && ClosedUnder(c, s.rules, host) ensures facts + more <= c {
      assert facts <= c;
      assert Extension(facts, c, s.preds);
      forall f | f in more ensures f in c {
        var r :| r in s.rules && Derives(r, f, host(facts, {}));
        DerivesGrows(r, f, facts, c, s.preds, host);
        assert Follows(s.rules, f, c, host);
      }
    }
  }

  lemma {:induction false} FollowsInStratum(s: Stratum, f: Fact, facts: set<Fact>, host: Host)
    requires Follows(s.rules, f, facts, host) && (forall r :: r in s.rules ==> InStratum(r, s.preds))
    ensures f.rel in s.preds
  {
    var r :| r in s.rules && Derives(r, f, host(facts, {}));
    var sigma: Env :| Satisfies(sigma, r, f, host(facts, {}));
  }

  /** The pass over the full plans derives what follows from the visible facts. */
  lemma {:induction false} FullPassFacts(s: Stratum, hashJoin: bool, st: Store, host: Host)
    requires Faithful(host) && Prepared(s.rules, s.preds, hashJoin) && PlanJobs(FullJobs(s.rules, hashJoin)).Ok?
    ensures var out := PassFacts(PlanJobs(FullJobs(s.rules, hashJoin)).value, host(st.stable, st.delta));
            && (host({}, {}).Total() ==> out.Ok?)
            && (out.Ok? ==> forall f :: f in out.value <==> Follows(s.rules, f, st.Visible(), host))
  {
    var jobs, m := FullJobs(s.rules, hashJoin), host(st.stable, st.delta);
    assert Shows(m, st.stable, st.delta) && SameFunctions(m, host({}, {}));
    forall j | j in jobs ensures Safe(j.rule) && RelationJoins(j.rule, j.cfg) {
      FullJobsAre(s.rules, hashJoin, j);
    }
    PassExact(jobs, m);
    forall f
      ensures (exists j :: j in jobs && JobDerives(j, f, m)) <==> Follows(s.rules, f, st.Visible(), host)
    {
      if j :| j in jobs && JobDerives(j, f, m) {
        FullJobsAre(s.rules, hashJoin, j);
        JobSound(j, f, st.stable, st.delta, host);
      }
      if Follows(s.rules, f, st.Visible(), host) {
        var r :| r in s.rules && Derives(r, f, host(st.Visible(), {}));
        DerivesVisible(r, f, st.stable, st.delta, host);
        DerivableMeans(r, f, m);
        var j := Job(r, Config(None, hashJoin));
        FullJobsAre(s.rules, hashJoin, j);
        assert JobDerives(j, f, m);
      }
    }
  }

  /** A pass over the delta plans derives only what follows. */
  lemma {:induction false} DeltaPassSound(s: Stratum, hashJoin: bool, st: Store, host: Host)
    requires Faithful(host) && Prepared(s.rules, s.preds, hashJoin) &&
             PlanJobs(DeltaJobs(s.rules, s.preds, hashJoin)).Ok?
    ensures var jobs, m := DeltaJobs(s.rules, s.preds, hashJoin), host(st.stable, st.delta);
            var out := PassFacts(PlanJobs(jobs).value, m);
            && (host({}, {}).Total() ==> out.Ok?)
            && (out.Ok? ==> forall f :: f in out.value <==> exists j :: j in jobs && JobDerives(j, f, m))
            && (out.Ok? ==> forall f :: f in out.value ==> Follows(s.rules, f, st.Visible(), host))
  {
    var jobs, m := DeltaJobs(s.rules, s.preds, hashJoin), host(st.stable, st.delta);
    assert Shows(m, st.stable, st.delta) && SameFunctions(m, host({}, {}));
    forall j | j in jobs ensures Safe(j.rule) && RelationJoins(j.rule, j.cfg) && j.rule in s.rules {
      DeltaJobSafe(s, hashJoin, j);
    }
    PassExact(jobs, m);
    forall f, j | j in jobs && JobDerives(j, f, m) ensures Follows(s.rules, f, st.Visible(), host) {
      JobSound(j, f, st.stable, st.delta, host);
    }
  }

  /** With complete delta plans, the pass derives all that follows anew. */
  lemma {:induction false} DeltaPassFacts(s: Stratum, hashJoin: bool, st: Store, host: Host)
    requires Faithful(host) && Prepared(s.rules, s.preds, hashJoin) &&
             PlanJobs(DeltaJobs(s.rules, s.preds, hashJoin)).Ok?
    requires forall r :: r in s.rules ==> DeltaComplete(r, s.preds)
    requires forall g :: g in st.delta ==> g.rel in s.preds
    ensures var out := PassFacts(PlanJobs(DeltaJobs(s.rules, s.preds, hashJoin)).value, host(st.stable, st.delta));
            && (out.Ok? ==> forall f :: f in out.value ==> Follows(s.rules, f, st.Visible(), host))
            && (out.Ok? ==> forall f ::
                Follows(s.rules, f, st.Visible(), host) && !Follows(s.rules, f, st.stable, host) ==> f in out.value)
  {
    DeltaPassSound(s, hashJoin, st, host);
    hide PassFacts, PlanJobs, Faithful, DeltaComplete, JobDerives;
    var jobs, m := DeltaJobs(s.rules, s.preds, hashJoin), host(st.stable, st.delta);
    forall f | Follows(s.rules, f, st.Visible(), host) && !Follows(s.rules, f, st.stable, host)
      ensures exists j :: j in jobs && JobDerives(j, f, m)
    {
      var r :| r in s.rules && Derives(r, f, host(st.Visible(), {}));
      DerivesVisible(r, f, st.stable, st.delta, host);
      DeltaCovers(r, f, st.stable, st.delta, s.preds, hashJoin, host);
      var j :| j in RuleDeltaJobs(r, r.premises, s.preds, hashJoin) && JobDerives(j, f, m);
      DeltaJobsAre(s.rules, s.preds, hashJoin, j);
    }
  }

  lemma {:induction false} DeltaJobSafe(s: Stratum, hashJoin: bool, j: Job)
    requires Prepared(s.rules, s.preds, hashJoin) && j in DeltaJobs(s.rules, s.preds, hashJoin)
    ensures Safe(j.rule) && RelationJoins(j.rule, j.cfg) && j.rule in s.rules
  {
    DeltaJobsAre(s.rules, s.preds, hashJoin, j);
    var r :| r in s.rules && j in RuleDeltaJobs(r, r.premises, s.preds, hashJoin);
    RuleDeltaJobsAre(r, r.premises, s.preds, hashJoin, j);
    NoJoinsWhenOff(Delay.Delayed(r.premises), {}, j.cfg);
  }

  /** After the initial pass and the merge, the rounds can start. */
  lemma {:induction false} FirstMerge(s: Stratum, st: Store, out: set<Fact>, host: Host)
    requires Faithful(host) && (forall r :: r in s.rules ==> InStratum(r, s.preds)) && st.next == {}
    requires forall f :: f in out <==> Follows(s.rules, f, st.Visible(), host)
    ensures Saturating(Merge(st.(next := out - st.Visible())), st.Visible(), s, host)
  {
    var base := st.Visible();
    forall f | f in out ensures f.rel in s.preds { FollowsInStratum(s, f, base, host); }
    assert Extension(base, base, s.preds);
    MinimalGrows(base, out - base, base, s, host);
  }

  /** A round keeps the invariant, and one without a change has reached the least fixpoint. */
  lemma {:induction false} RoundKeeps(s: Stratum, st: Store, base: set<Fact>, out: set<Fact>, host: Host)
    requires Faithful(host) && (forall r :: r in s.rules ==> InStratum(r, s.preds))
    requires Saturating(st, base, s, host)
    requires forall f :: f in out ==> Follows(s.rules, f, st.Visible(), host)
    requires forall f :: Follows(s.rules, f, st.Visible(), host) && !Follows(s.rules, f, st.stable, host) ==> f in out
    ensures Saturating(Merge(st.(next := out - st.Visible())), base, s, host)
    ensures out <= st.Visible() ==> IsLeast(st.Visible(), base, s.rules, s.preds, host)
  {
    forall f | f in out ensures f.rel in s.preds { FollowsInStratum(s, f, st.Visible(), host); }
    MinimalGrows(st.Visible(), out - st.Visible(), base, s, host);
  }

  // ----- One stratum -----

  /** Rules without positive premises of the stratum derive no more from their own facts. */
  lemma {:induction false} OnePassSuffices(s: Stratum, base: set<Fact>, out: set<Fact>, host: Host)
    requires Faithful(host) && (forall r :: r in s.rules ==> InStratum(r, s.preds))
    requires forall r, p :: r in s.rules && p in r.premises && p.Atom? ==> p.pred !in s.preds
    requires forall f :: f in out <==> Follows(s.rules, f, base, host)
    ensures IsLeast(base + out, base, s.rules, s.preds, host)
  {
    forall f | f in out ensures f.rel in s.preds { FollowsInStratum(s, f, base, host); }
    assert Extension(base, base, s.preds);
    MinimalGrows(base, out, base, s, host);
    var all := base + out;
    var m, n := host(all, {}), host(base, {});
    assert Shows(m, all, {}) && Shows(n, base, {}) && SameFunctions(m, host({}, {})) && SameFunctions(n, host({}, {}));
    forall f | Follows(s.rules, f, all, host) ensures f in all {
      var r :| r in s.rules && Derives(r, f, m);
      var sigma: Env :| Satisfies(sigma, r, f, m);
      forall p, t | p in r.premises && p.Atom? && t in m.full(p.pred) ensures t in n.full(p.pred) {
        assert Fact(p.pred, t) in all;
      }
      SatisfiesGrows(sigma, r, f, m, n);
      assert Follows(s.rules, f, base, host);
    }
  }

  ghost predicate AllPlannable(s: Stratum) {
    forall r :: r in s.rules ==> Plannable(r)
  }

  /** The full plans of a stratum exist exactly when its rules can be planned, and then so do
      the delta plans. */
  lemma {:induction false} StratumPlanned(s: Stratum, hashJoin: bool)
    requires Prepared(s.rules, s.preds, hashJoin)
    ensures PlanJobs(FullJobs(s.rules, hashJoin)).Ok? <==> AllPlannable(s)
    ensures AllPlannable(s) ==> PlanJobs(DeltaJobs(s.rules, s.preds, hashJoin)).Ok?
  {
    hide PlanJobs, FullJobs, DeltaJobs, Plannable, Safe, RelationJoins, InStratum;
    var full, deltas := FullJobs(s.rules, hashJoin), DeltaJobs(s.rules, s.preds, hashJoin);
    forall j ensures j in full <==> j.rule in s.rules && j.cfg == Config(None, hashJoin) {
      FullJobsAre(s.rules, hashJoin, j);
    }
    forall j | j in deltas ensures Safe(j.rule) && RelationJoins(j.rule, j.cfg) && j.rule in s.rules {
      DeltaJobSafe(s, hashJoin, j);
    }
    JobsPlanned(full);
    JobsPlanned(deltas);
    if PlanJobs(full).Ok? {
      forall r | r in s.rules ensures Plannable(r) { assert Job(r, Config(None, hashJoin)) in full; }
    }
  }

  predicate Recursive(s: Stratum) {
    exists r, p :: r in s.rules && p in r.premises && p.Atom? && p.pred in s.preds
  }

  // ----- The evaluation as a function -----

  /** The store after a pass that inserts these facts, and the merge. */
  function Advance(st: Store, out: set<Fact>): Store {
    Merge(st.(next := st.next + (out - st.Visible())))
  }

  /** The delta rounds: run, stop when nothing changed, else go on with the merged store. */
  ghost function RoundsOf(ops: seq<Op>, st: Store, host: Host, rounds: nat): Evaluation
    decreases rounds
  {
    if rounds == 0 then Unfinished
    else
      match PassFacts(ops, host(st.stable, st.delta))
      case Err => Failed
      case Ok(out) =>
        if out <= st.Visible() then Done(Advance(st, out)) else RoundsOf(ops, Advance(st, out), host, rounds - 1)
  }

  /** The evaluation of a stratum: plan, one full pass, and the delta rounds if it is recursive. */
  ghost function StratumOf(s: Stratum, hashJoin: bool, st: Store, host: Host, rounds: nat): Evaluation {
    var initial, deltas := PlanJobs(FullJobs(s.rules, hashJoin)), PlanJobs(DeltaJobs(s.rules, s.preds, hashJoin));
    if initial.Err? || (Recursive(s) && deltas.Err?) then Failed
    else
      match PassFacts(initial.value, host(st.stable, st.delta))
      case Err => Failed
      case Ok(out) =>
        if Recursive(s) then RoundsOf(deltas.value, Advance(st, out), host, rounds) else Done(Advance(st, out))
  }

  /** What was added to the base is derived, each fact from the set itself. */
  ghost predicate Grounded(facts: set<Fact>, base: set<Fact>, s: Stratum, host: Host) {
    forall f :: f in facts && f !in base ==> Follows(s.rules, f, facts, host)
  }

  /** Nothing is visible that some closed extension of the base lacks. */
  ghost predicate Within(st: Store, base: set<Fact>, s: Stratum, host: Host) {
    && st.next == {} && Extension(base, st.Visible(), s.preds)
    && (forall g :: g in st.delta ==> g.rel in s.preds)
    && Minimal(st.Visible(), base, s.rules, s.preds, host)
    && Grounded(st.Visible(), base, s, host)
  }

  lemma {:induction false} GroundedGrows(facts: set<Fact>, more: set<Fact>, base: set<Fact>, s: Stratum, host: Host)
    requires Faithful(host) && (forall r :: r in s.rules ==> InStratum(r, s.preds)) && Grounded(facts, base, s, host)
    requires forall f :: f in more ==> Follows(s.rules, f, facts, host)
    ensures Grounded(facts + more, base, s, host)
  {
    forall f | f in more ensures f.rel in s.preds { FollowsInStratum(s, f, facts, host); }
    assert Extension(facts, facts + more, s.preds);
    forall f | f in facts + more && f !in base ensures Follows(s.rules, f, facts + more, host) {
      var r :| r in s.rules && Derives(r, f, host(facts, {}));
      DerivesGrows(r, f, facts, facts + more, s.preds, host);
    }
  }

  lemma {:induction false} AdvanceWithin(s: Stratum, st: Store, base: set<Fact>, out: set<Fact>, host: Host)
    requires Faithful(host) && (forall r :: r in s.rules ==> InStratum(r, s.preds))
    requires Within(st, base, s, host) && forall f :: f in out ==> Follows(s.rules, f, st.Visible(), host)
    ensures Within(Advance(st, out), base, s, host)
  {
    hide Follows;
    forall f | f in out ensures f.rel in s.preds { FollowsInStratum(s, f, st.Visible(), host); }
    MinimalGrows(st.Visible(), out - st.Visible(), base, s, host);
    GroundedGrows(st.Visible(), out - st.Visible(), base, s, host);
    assert Advance(st, out).Visible() == st.Visible() + (out - st.Visible());
  }

  /** Whatever the rules look like, the rounds insert only facts that follow. */
  lemma {:induction false} RoundsSound(s: Stratum, hashJoin: bool, ops: seq<Op>, st: Store, base: set<Fact>,
      host: Host, rounds: nat)
    requires Faithful(host) && PlanJobs(DeltaJobs(s.rules, s.preds, hashJoin)) == Ok(ops)
    requires Prepared(s.rules, s.preds, hashJoin) && Within(st, base, s, host)
    ensures var r := RoundsOf(ops, st, host, rounds); r.Done? ==> Within(r.store, base, s, host)
    ensures RoundsOf(ops, st, host, rounds).Failed? ==> !host({}, {}).Total()
    decreases rounds
  {
    hide PlanJobs, DeltaJobs, PassFacts, Within, Faithful;
    if rounds > 0 {
      DeltaPassSound(s, hashJoin, st, host);
      if PassFacts(ops, host(st.stable, st.delta)).Ok? {
        var out := PassFacts(ops, host(st.stable, st.delta)).value;
        AdvanceWithin(s, st, base, out, host);
        RoundsSound(s, hashJoin, ops, Advance(st, out), base, host, rounds - 1);
      }
    }
  }

  /** With complete delta plans the rounds end in the least fixpoint, and they end once they
      may be as many as some closed extension has facts. */
  lemma {:induction false} RoundsLeast(s: Stratum, hashJoin: bool, ops: seq<Op>, st: Store, base: set<Fact>,
      host: Host, rounds: nat)
    requires Faithful(host) && PlanJobs(DeltaJobs(s.rules, s.preds, hashJoin)) == Ok(ops)
    requires Prepared(s.rules, s.preds, hashJoin) && forall r :: r in s.rules ==> DeltaComplete(r, s.preds)
    requires Saturating(st, base, s, host)
    ensures var r := RoundsOf(ops, st, host, rounds);
            r.Done? ==> r.store.next == {} && IsLeast(r.store.Visible(), base, s.rules, s.preds, host)
    ensures RoundsOf(ops, st, host, rounds).Unfinished? ==>
            forall c :: Extension(base, c, s.preds) && ClosedUnder(c, s.rules, host) ==> rounds + |st.Visible()| <= |c|
    decreases rounds
  {
    hide PlanJobs, DeltaJobs, PassFacts, Saturating, Faithful, IsLeast, DeltaComplete, Extension, ClosedUnder,
      Prepared, Advance, Store.Visible;
    if rounds == 0 {
      forall c | Extension(base, c, s.preds) && ClosedUnder(c, s.rules, host) ensures |st.Visible()| <= |c| {
        SaturatingParts(st, base, s, host);
        Smaller(st.Visible(), c);
      }
    } else if PassFacts(ops, host(st.stable, st.delta)).Ok? {
      var out := PassFacts(ops, host(st.stable, st.delta)).value;
      RoundStep(s, hashJoin, ops, st, base, host);
      if !(out <= st.Visible()) { RoundsLeast(s, hashJoin, ops, Advance(st, out), base, host, rounds - 1); }
    }
  }

  /** One round: the invariant is kept and the store grows, or the least fixpoint is reached. */
  lemma {:induction false} RoundStep(s: Stratum, hashJoin: bool, ops: seq<Op>, st: Store, base: set<Fact>, host: Host)
    requires Faithful(host) && PlanJobs(DeltaJobs(s.rules, s.preds, hashJoin)) == Ok(ops)
    requires Prepared(s.rules, s.preds, hashJoin) && forall r :: r in s.rules ==> DeltaComplete(r, s.preds)
    requires Saturating(st, base, s, host) && PassFacts(ops, host(st.stable, st.delta)).Ok?
    ensures var out := PassFacts(ops, host(st.stable, st.delta)).value;
            var next := Advance(st, out);
            && Saturating(next, base, s, host) && next.next == {}
            && (out <= st.Visible() ==> IsLeast(next.Visible(), base, s.rules, s.preds, host))
            && (!(out <= st.Visible()) ==> |next.Visible()| > |st.Visible()|)
  {
    SaturatingParts(st, base, s, host);
    hide PlanJobs, DeltaJobs, PassFacts, Saturating, Faithful, IsLeast, DeltaComplete, Extension, ClosedUnder;
    DeltaPassFacts(s, hashJoin, st, host);
    var out := PassFacts(ops, host(st.stable, st.delta)).value;
    RoundKeeps(s, st, base, out, host);
    assert st.next + (out - st.Visible()) == out - st.Visible();
    assert Advance(st, out).Visible() == st.Visible() + (out - st.Visible());
    if out <= st.Visible() {
      assert Advance(st, out).Visible() == st.Visible();
    } else {
      Larger(st.Visible(), out - st.Visible());
    }
  }

  lemma {:induction false} SaturatingParts(st: Store, base: set<Fact>, s: Stratum, host: Host)
    requires Saturating(st, base, s, host)
    ensures st.next == {} && (forall g :: g in st.delta ==> g.rel in s.preds)
    ensures forall c :: Extension(base, c, s.preds) && ClosedUnder(c, s.rules, host) ==> st.Visible() <= c
  {
  }

  /** Evaluating a stratum only adds facts that are in every closed extension, and fails only
      when a function does or some rule cannot be planned. */
  lemma {:induction false} StratumSound(s: Stratum, hashJoin: bool, st: Store, host: Host, rounds: nat)
    requires Faithful(host) && st.next == {} && Prepared(s.rules, s.preds, hashJoin)
    ensures var r := StratumOf(s, hashJoin, st, host, rounds);
            && (r.Done? ==> r.store.next == {} && Extension(st.Visible(), r.store.Visible(), s.preds))
            && (r.Done? ==> Minimal(r.store.Visible(), st.Visible(), s.rules, s.preds, host) && AllPlannable(s))
            && (r.Done? ==> Grounded(r.store.Visible(), st.Visible(), s, host))
            && (r.Failed? ==> !host({}, {}).Total() || !AllPlannable(s))
  {
    StratumPlanned(s, hashJoin);
    var initial := PlanJobs(FullJobs(s.rules, hashJoin));
    if initial.Ok? {
      FullPassFacts(s, hashJoin, st, host);
      if PassFacts(initial.value, host(st.stable, st.delta)).Ok? {
        var base, out := st.Visible(), PassFacts(initial.value, host(st.stable, st.delta)).value;
        FirstWithin(s, st, out, host);
        hide PlanJobs, DeltaJobs, FullJobs, PassFacts, Faithful, Follows, AllPlannable, Grounded;
        if Recursive(s) {
          RoundsSound(s, hashJoin, PlanJobs(DeltaJobs(s.rules, s.preds, hashJoin)).value, Advance(st, out), base, host,
                      rounds);
        }
      }
    }
  }

  lemma {:induction false} FirstWithin(s: Stratum, st: Store, out: set<Fact>, host: Host)
    requires Faithful(host) && (forall r :: r in s.rules ==> InStratum(r, s.preds)) && st.next == {}
    requires forall f :: f in out ==> Follows(s.rules, f, st.Visible(), host)
    ensures Within(Advance(st, out), st.Visible(), s, host)
  {
    hide Follows;
    var base := st.Visible();
    forall f | f in out ensures f.rel in s.preds { FollowsInStratum(s, f, base, host); }
    assert Extension(base, base, s.preds);
    MinimalGrows(base, out - base, base, s, host);
    assert Grounded(base, base, s, host);
    GroundedGrows(base, out - base, base, s, host);
    assert Advance(st, out).Visible() == base + (out - base);
  }

  /** With complete delta plans, evaluating a stratum gives its least fixpoint. */
  lemma {:induction false} StratumLeast(s: Stratum, hashJoin: bool, st: Store, host: Host, rounds: nat)
    requires Faithful(host) && st.next == {}
    requires Prepared(s.rules, s.preds, hashJoin) && forall r :: r in s.rules ==> DeltaComplete(r, s.preds)
    ensures var r := StratumOf(s, hashJoin, st, host, rounds);
            && (r.Done? ==> IsLeast(r.store.Visible(), st.Visible(), s.rules, s.preds, host))
            && (r.Unfinished? ==>
                  forall c :: Extension(st.Visible(), c, s.preds) && ClosedUnder(c, s.rules, host) ==> rounds <= |c|)
  {
    hide PlanJobs, FullJobs, DeltaJobs, PassFacts, Faithful, IsLeast, Saturating, DeltaComplete, Follows, Extension,
      ClosedUnder;
    var initial := PlanJobs(FullJobs(s.rules, hashJoin));
    if initial.Ok? && PassFacts(initial.value, host(st.stable, st.delta)).Ok? {
      FullPassFacts(s, hashJoin, st, host);
      var out := PassFacts(initial.value, host(st.stable, st.delta)).value;
      if !Recursive(s) {
        OnePassSuffices(s, st.Visible(), out, host);
        assert Advance(st, out).Visible() == st.Visible() + out;
      } else if PlanJobs(DeltaJobs(s.rules, s.preds, hashJoin)).Ok? {
        FirstMerge(s, st, out, host);
        assert st.next + (out - st.Visible()) == out - st.Visible();
        RoundsLeast(s, hashJoin, PlanJobs(DeltaJobs(s.rules, s.preds, hashJoin)).value, Advance(st, out), st.Visible(),
                    host, rounds);
      }
    }
  }

  // ----- The driver's loops -----

  /** Evaluate a stratum.  `rounds` bounds the delta rounds, which need not end when functions
      build ever new values.  What is added always follows; it is the least fixpoint when the
      delta plans are complete. */
  method EvalStratum(s: Stratum, hashJoin: bool, st: Store, host: Host, rounds: nat) returns (r: Evaluation)
    requires st.next == {}
    ensures r == StratumOf(s, hashJoin, st, host, rounds)
    ensures r.Done? && Faithful(host) && Prepared(s.rules, s.preds, hashJoin) ==>
      Extension(st.Visible(), r.store.Visible(), s.preds) &&
      Minimal(r.store.Visible(), st.Visible(), s.rules, s.preds, host)
    ensures r.Done? && Faithful(host) && Prepared(s.rules, s.preds, hashJoin) &&
            (forall r :: r in s.rules ==> DeltaComplete(r, s.preds)) ==>
      IsLeast(r.store.Visible(), st.Visible(), s.rules, s.preds, host)
  {
    hide PlanJobs, FullJobs, DeltaJobs, PassFacts, Faithful, IsLeast, Minimal, Extension, DeltaComplete, RoundsOf;
    if Faithful(host) && Prepared(s.rules, s.preds, hashJoin) {
      StratumSound(s, hashJoin, st, host, rounds);
      if forall r :: r in s.rules ==> DeltaComplete(r, s.preds) { StratumLeast(s, hashJoin, st, host, rounds); }
    }
    var initial := PlanJobs(FullJobs(s.rules, hashJoin));
    if initial.Err? { return Failed; }
    if !Recursive(s) {
      var one, _ := RunPass(initial.value, st, host);
      if one.Err? { return Failed; }
      return Done(Merge(one.value));
    }
    var deltas := PlanJobs(DeltaJobs(s.rules, s.preds, hashJoin));
    if deltas.Err? { return Failed; }
    var first, _ := RunPass(initial.value, st, host);
    if first.Err? { return Failed; }
    r := Rounds(Merge(first.value), deltas.value, host, rounds);
  }

  /** The delta rounds: run, stop when nothing changed, else merge and go on. */
  method Rounds(st: Store, ops: seq<Op>, host: Host, rounds: nat) returns (r: Evaluation)
    requires st.next == {}
    ensures r == RoundsOf(ops, st, host, rounds)
  {
    hide PassFacts;
    var now := st;
    for i := 0 to rounds
      invariant now.next == {} && RoundsOf(ops, st, host, rounds) == RoundsOf(ops, now, host, rounds - i)
    {
      var next, changes := RunPass(ops, now, host);
      if next.Err? { return Failed; }
      ghost var out := PassFacts(ops, host(now.stable, now.delta)).value;
      NoneLeft(out, now.Visible());
      assert next.value.next == out - now.Visible();
      now := Merge(next.value);
      if changes == 0 { return Done(now); }
    }
    r := Unfinished;
  }

  lemma NoneLeft(a: set<Fact>, b: set<Fact>)
    ensures a - b == {} <==> a <= b
  {
    if a - b == {} {
      forall f | f in a ensures f in b { assert f !in a - b; }
    }
  }

  lemma {:induction false} Larger(a: set<Fact>, b: set<Fact>)
    requires a !! b && b != {}
    ensures |a + b| > |a|
  {
    assert |a + b| == |a| + |b|;
  }

  lemma {:induction false} Smaller(a: set<Fact>, b: set<Fact>)
    requires a <= b
    ensures |a| <= |b|
  {
    assert b == a + (b - a);
  }
}
