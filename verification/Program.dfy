/** Whole programs: the strata in order give the one perfect model of the program. */
module Program {
  import opened Datalog
  import opened Interp
  import opened SemiNaive
  import opened Evaluate

  ghost predicate Reads(r: Rule, d: Pred) {
    exists p :: p in r.premises && (p.Atom? || p.NegAtom?) && p.pred == d
  }

  /** No rule reads a relation of a later stratum. */
  ghost predicate Ordered(strata: seq<Stratum>) {
    forall i, j, r, d :: 0 <= i < j < |strata| && r in strata[i].rules && d in strata[j].preds ==> !Reads(r, d)
  }

  /** Each stratum adds the least set of facts closed under its rules, given what the earlier
      strata have settled. */
  ghost predicate PerfectModel(strata: seq<Stratum>, base: set<Fact>, facts: set<Fact>, host: Host) {
    if strata == [] then facts == base
    else
      var n := |strata| - 1;
      exists mid :: PerfectModel(strata[..n], base, mid, host) &&
                    IsLeast(facts, mid, strata[n].rules, strata[n].preds, host)
  }

  // ----- There is at most one perfect model -----

  lemma {:induction false} PerfectUnique(strata: seq<Stratum>, base: set<Fact>, a: set<Fact>, b: set<Fact>, host: Host)
    requires PerfectModel(strata, base, a, host) && PerfectModel(strata, base, b, host)
    ensures a == b
    decreases |strata|
  {
    if strata != [] {
      var n := |strata| - 1;
      var x :| PerfectModel(strata[..n], base, x, host) && IsLeast(a, x, strata[n].rules, strata[n].preds, host);
      var y :| PerfectModel(strata[..n], base, y, host) && IsLeast(b, y, strata[n].rules, strata[n].preds, host);
      PerfectUnique(strata[..n], base, x, y, host);
      assert a <= b && b <= a;
    }
  }

  /** A perfect model holds the least set that the next stratum adds to each prefix. */
  lemma {:induction false} PerfectStep(strata: seq<Stratum>, i: nat, base: set<Fact>, mid: set<Fact>, facts: set<Fact>,
      host: Host) returns (next: set<Fact>)
    requires i < |strata| && PerfectModel(strata[..i], base, mid, host) && PerfectModel(strata, base, facts, host)
    ensures IsLeast(next, mid, strata[i].rules, strata[i].preds, host) && next <= facts
    decreases |strata|
  {
    hide IsLeast;
    var n := |strata| - 1;
    var below :| PerfectModel(strata[..n], base, below, host) &&
    IsLeast(facts, below, strata[n].rules, strata[n].preds, host);
    if i == n {
      PerfectUnique(strata[..n], base, mid, below, host);
      next := facts;
    } else {
      assert strata[..n][..i] == strata[..i];
      next := PerfectStep(strata[..n], i, base, mid, below, host);
      LeastAbove(facts, below, strata[n], host);
    }
  }

  lemma LeastAbove(facts: set<Fact>, base: set<Fact>, s: Stratum, host: Host)
    requires IsLeast(facts, base, s.rules, s.preds, host)
    ensures base <= facts
  {
  }

  // ----- A perfect model is closed and supported, negation read in the model itself -----

  /** A rule that reads none of the relations that grow derives the same. */
  lemma {:induction false} DerivesFramed(r: Rule, f: Fact, facts: set<Fact>, more: set<Fact>, preds: set<Pred>,
      host: Host)
    requires Faithful(host) && Extension(facts, more, preds) && forall d :: d in preds ==> !Reads(r, d)
    ensures Derives(r, f, host(facts, {})) <==> Derives(r, f, host(more, {}))
  {
    var m, n := host(facts, {}), host(more, {});
    assert Shows(m, facts, {}) && Shows(n, more, {}) && SameFunctions(m, host({}, {})) &&
           SameFunctions(n, host({}, {}));
    forall p, t | p in r.premises && (p.Atom? || p.NegAtom?)
      ensures t in m.full(p.pred) <==> t in n.full(p.pred)
    {
      assert Reads(r, p.pred);
      assert Fact(p.pred, t) in facts <==> Fact(p.pred, t) in more;
    }
    if Derives(r, f, m) {
      var sigma: Env :| Satisfies(sigma, r, f, m);
      SatisfiesGrows(sigma, r, f, m, n);
    }
    if Derives(r, f, n) {
      var sigma: Env :| Satisfies(sigma, r, f, n);
      SatisfiesGrows(sigma, r, f, n, m);
    }
  }

  /** A fact that the least set adds is derived from the set by some rule. */
  lemma {:induction false} LeastSupported(s: Stratum, base: set<Fact>, facts: set<Fact>, f: Fact, host: Host)
    requires Faithful(host) && (forall r :: r in s.rules ==> InStratum(r, s.preds))
    requires IsLeast(facts, base, s.rules, s.preds, host) && f in facts && f !in base
    ensures Follows(s.rules, f, facts, host)
  {
    if !Follows(s.rules, f, facts, host) {
      var less := facts - {f};
      assert Extension(base, less, s.preds) && Extension(less, facts, s.preds);
      forall g | Follows(s.rules, g, less, host) ensures g in less {
        var r :| r in s.rules && Derives(r, g, host(less, {}));
        DerivesGrows(r, g, less, facts, s.preds, host);
        assert Follows(s.rules, g, facts, host);
      }
      assert ClosedUnder(less, s.rules, host);
      assert false;
    }
  }

  ghost predicate StratumRules(strata: seq<Stratum>) {
    forall i, r :: 0 <= i < |strata| && r in strata[i].rules ==> InStratum(r, strata[i].preds)
  }

  ghost predicate ProgramClosed(strata: seq<Stratum>, facts: set<Fact>, host: Host) {
    forall i :: 0 <= i < |strata| ==> ClosedUnder(facts, strata[i].rules, host)
  }

  ghost predicate SupportedBy(strata: seq<Stratum>, f: Fact, facts: set<Fact>, host: Host) {
    exists i :: 0 <= i < |strata| && Follows(strata[i].rules, f, facts, host)
  }

  ghost predicate Supported(strata: seq<Stratum>, base: set<Fact>, facts: set<Fact>, host: Host) {
    forall f :: f in facts && f !in base ==> SupportedBy(strata, f, facts, host)
  }

  lemma {:induction false} PerfectIsModel(strata: seq<Stratum>, base: set<Fact>, facts: set<Fact>, host: Host)
    requires Faithful(host) && Ordered(strata) && StratumRules(strata) && PerfectModel(strata, base, facts, host)
    ensures base <= facts && ProgramClosed(strata, facts, host) && Supported(strata, base, facts, host)
    decreases |strata|
  {
    if strata != [] {
      var n := |strata| - 1;
      var s, before := strata[n], strata[..n];
      var mid :| PerfectModel(before, base, mid, host) && IsLeast(facts, mid, s.rules, s.preds, host);
      PerfectIsModel(before, base, mid, host);
      forall i, f | 0 <= i < n
        ensures Follows(strata[i].rules, f, mid, host) <==> Follows(strata[i].rules, f, facts, host)
      {
        EarlierUnchanged(strata, i, f, mid, facts, host);
      }
      forall i | 0 <= i < n ensures ClosedUnder(facts, strata[i].rules, host) {
        assert ClosedUnder(mid, before[i].rules, host);
      }
      forall f | f in facts && f !in base ensures SupportedBy(strata, f, facts, host) {
        if f in mid {
          assert SupportedBy(before, f, mid, host);
          var i :| 0 <= i < |before| && Follows(before[i].rules, f, mid, host);
          assert Follows(strata[i].rules, f, facts, host);
        } else {
          LeastSupported(s, mid, facts, f, host);
        }
      }
    }
  }

  lemma {:induction false} EarlierUnchanged(strata: seq<Stratum>, i: nat, f: Fact, mid: set<Fact>, facts: set<Fact>,
      host: Host)
    requires Faithful(host) && Ordered(strata) && i < |strata| - 1
    requires Extension(mid, facts, strata[|strata| - 1].preds)
    ensures Follows(strata[i].rules, f, mid, host) <==> Follows(strata[i].rules, f, facts, host)
  {
    forall r | r in strata[i].rules ensures Derives(r, f, host(mid, {})) <==> Derives(r, f, host(facts, {})) {
      DerivesFramed(r, f, mid, facts, strata[|strata| - 1].preds, host);
    }
  }

  // ----- The driver -----

  ghost predicate Evaluable(s: Stratum, hashJoin: bool) {
    Prepared(s.rules, s.preds, hashJoin) && forall r :: r in s.rules ==> DeltaComplete(r, s.preds)
  }

  /** Evaluate the strata in turn. */
  method EvalProgram(strata: seq<Stratum>, hashJoin: bool, st: Store, host: Host, rounds: nat) returns (r: Evaluation)
    requires st.next == {}
    ensures Faithful(host) && Ordered(strata) && (forall s :: s in strata ==> Prepared(s.rules, s.preds, hashJoin)) ==>
      && (r.Done? ==> st.Visible() <= r.store.Visible() && Supported(strata, st.Visible(), r.store.Visible(), host))
      && (r.Done? ==> forall s :: s in strata ==> AllPlannable(s))
      && (r.Failed? ==> !host({}, {}).Total() || exists s :: s in strata && !AllPlannable(s))
    ensures Faithful(host) && Ordered(strata) && (forall s :: s in strata ==> Evaluable(s, hashJoin)) ==>
      && (r.Done? ==>
            && PerfectModel(strata, st.Visible(), r.store.Visible(), host)
            && ProgramClosed(strata, r.store.Visible(), host))
      && (r.Unfinished? ==> forall c :: PerfectModel(strata, st.Visible(), c, host) ==> rounds <= |c|)
  {
    hide AllPlannable, StratumOf, Evaluable, Faithful, IsLeast, PerfectModel, ProgramClosed, Supported, Extension,
      ClosedUnder, Minimal;
    ghost var sane := Faithful(host) && Ordered(strata) &&
                      forall s :: s in strata ==> Prepared(s.rules, s.preds, hashJoin);
    ghost var good := Faithful(host) && Ordered(strata) && forall s :: s in strata ==> Evaluable(s, hashJoin);
    var now := st;
    PerfectStart(st.Visible(), host);
    assert strata[..0] == [];
    for i := 0 to |strata|
      invariant now.next == {}
      invariant sane ==> st.Visible() <= now.Visible() && Supported(strata[..i], st.Visible(), now.Visible(), host)
      invariant sane ==> forall k :: 0 <= k < i ==> AllPlannable(strata[k])
      invariant good ==> PerfectModel(strata[..i], st.Visible(), now.Visible(), host)
    {
      ghost var before := now;
      var e := EvalStratum(strata[i], hashJoin, now, host, rounds);
      if sane { StratumSupports(strata, i, hashJoin, st.Visible(), before, host, rounds); }
      if good { StratumAdds(strata, i, hashJoin, st.Visible(), before, host, rounds); }
      if !e.Done? { return e; }
      StratumMerged(strata[i], hashJoin, before, host, rounds);
      now := e.store;
    }
    assert strata[..|strata|] == strata;
    if good { EvaluatedIsModel(strata, hashJoin, st.Visible(), now.Visible(), host); }
    r := Done(now);
  }

  lemma PerfectStart(base: set<Fact>, host: Host)
    ensures PerfectModel([], base, base, host) && Supported([], base, base, host)
  {
  }

  lemma {:induction false} EvaluatedIsModel(strata: seq<Stratum>, hashJoin: bool, base: set<Fact>, facts: set<Fact>,
      host: Host)
    requires Faithful(host) && Ordered(strata) && (forall s :: s in strata ==> Evaluable(s, hashJoin)) &&
             PerfectModel(strata, base, facts, host)
    ensures ProgramClosed(strata, facts, host)
  {
    forall i, r | 0 <= i < |strata| && r in strata[i].rules ensures InStratum(r, strata[i].preds) {
      assert strata[i] in strata;
    }
    PerfectIsModel(strata, base, facts, host);
  }

  /** One more stratum of the perfect model. */
  lemma {:induction false} StratumAdds(strata: seq<Stratum>, i: nat, hashJoin: bool, base: set<Fact>, st: Store,
      host: Host, rounds: nat)
    requires Faithful(host) && st.next == {} && i < |strata| && Evaluable(strata[i], hashJoin)
    requires PerfectModel(strata[..i], base, st.Visible(), host)
    ensures var e := StratumOf(strata[i], hashJoin, st, host, rounds);
            && (e.Done? ==> PerfectModel(strata[..i + 1], base, e.store.Visible(), host))
            && (e.Unfinished? ==> forall c :: PerfectModel(strata, base, c, host) ==> rounds <= |c|)
  {
    var s := strata[i];
    StratumLeast(s, hashJoin, st, host, rounds);
    hide StratumOf, Prepared, DeltaComplete, AllPlannable, Faithful, Follows;
    assert strata[..i + 1][..i] == strata[..i] && strata[..i + 1][i] == s;
    var e := StratumOf(s, hashJoin, st, host, rounds);
    if e.Unfinished? {
      forall c | PerfectModel(strata, base, c, host) ensures rounds <= |c| {
        var next := PerfectStep(strata, i, base, st.Visible(), c, host);
        Smaller(next, c);
      }
    }
  }

  /** What a stratum adds is derived in the end, and what earlier ones added still is. */
  lemma {:induction false} StratumSupports(strata: seq<Stratum>, i: nat, hashJoin: bool, base: set<Fact>, st: Store,
      host: Host, rounds: nat)
    requires Faithful(host) && st.next == {} && Ordered(strata) && i < |strata| &&
             Prepared(strata[i].rules, strata[i].preds, hashJoin)
    requires base <= st.Visible() && Supported(strata[..i], base, st.Visible(), host)
    ensures var e := StratumOf(strata[i], hashJoin, st, host, rounds);
            && (e.Done? ==>
                base <= e.store.Visible() && Supported(strata[..i + 1], base, e.store.Visible(), host) &&
                AllPlannable(strata[i]))
            && (e.Failed? ==> !host({}, {}).Total() || !AllPlannable(strata[i]))
  {
    var s := strata[i];
    StratumSound(s, hashJoin, st, host, rounds);
    hide StratumOf, Prepared, AllPlannable, Faithful, Follows, Minimal, Grounded, Supported;
    var e := StratumOf(s, hashJoin, st, host, rounds);
    if e.Done? {
      assert strata[..i + 1][..i] == strata[..i] && strata[..i + 1][i] == s;
      assert Ordered(strata[..i + 1]);
      SupportedMore(strata[..i + 1], i, base, st.Visible(), e.store.Visible(), host);
    }
  }

  lemma {:induction false} SupportedMore(strata: seq<Stratum>, i: nat, base: set<Fact>, mid: set<Fact>,
      facts: set<Fact>, host: Host)
    requires Faithful(host) && Ordered(strata) && i == |strata| - 1
    requires Supported(strata[..i], base, mid, host) && Extension(mid, facts, strata[i].preds) &&
             Grounded(facts, mid, strata[i], host)
    ensures Supported(strata, base, facts, host)
  {
    hide Faithful, Follows, Ordered;
    forall f | f in facts && f !in base ensures SupportedBy(strata, f, facts, host) {
      if f in mid {
        assert SupportedBy(strata[..i], f, mid, host);
        var k :| 0 <= k < i && Follows(strata[..i][k].rules, f, mid, host);
        EarlierUnchanged(strata, k, f, mid, facts, host);
        assert Follows(strata[k].rules, f, facts, host);
      }
    }
  }

  lemma {:induction false} StratumMerged(s: Stratum, hashJoin: bool, st: Store, host: Host, rounds: nat)
    requires st.next == {}
    ensures var e := StratumOf(s, hashJoin, st, host, rounds); e.Done? ==> e.store.next == {}
  {
    var initial, deltas := PlanJobs(FullJobs(s.rules, hashJoin)), PlanJobs(DeltaJobs(s.rules, s.preds, hashJoin));
    if initial.Ok? && PassFacts(initial.value, host(st.stable, st.delta)).Ok? && Recursive(s) && deltas.Ok? {
      RoundsMerged(deltas.value, Advance(st, PassFacts(initial.value, host(st.stable, st.delta)).value), host, rounds);
    }
  }

  lemma {:induction false} RoundsMerged(ops: seq<Op>, st: Store, host: Host, rounds: nat)
    ensures var e := RoundsOf(ops, st, host, rounds); e.Done? ==> e.store.next == {}
    decreases rounds
  {
    if rounds > 0 && PassFacts(ops, host(st.stable, st.delta)).Ok? {
      RoundsMerged(ops, Advance(st, PassFacts(ops, host(st.stable, st.delta)).value), host, rounds - 1);
    }
  }
}
