/** From the rules of a program to its model: dependency graph, strata, evaluation. */
module Driver {
  import opened Datalog
  import opened Interp
  import opened Graph
  import opened Stratify
  import opened SortStrata
  import opened Planner
  import opened Delay
  import opened RuleTheorem
  import opened SemiNaive
  import opened Evaluate
  import opened Program

  function Heads(rules: seq<Rule>): set<Pred> {
    set r | r in rules :: r.head.rel
  }

  function ReadPreds(rules: seq<Rule>): set<Pred> {
    set r, p | r in rules && p in r.premises && (p.Atom? || p.NegAtom?) :: p.pred
  }

  /** The relations that no rule defines. */
  function Extensional(rules: seq<Rule>): set<Pred> {
    ReadPreds(rules) - Heads(rules)
  }

  function RulesOf(rules: seq<Rule>, preds: set<Pred>): (r: seq<Rule>)
    ensures forall x :: x in r <==> x in rules && x.head.rel in preds
  {
    if rules == [] then []
    else (if rules[0].head.rel in preds then [rules[0]] else []) + RulesOf(rules[1..], preds)
  }

  function StrataOf(sets: seq<set<Pred>>, rules: seq<Rule>): (r: seq<Stratum>)
    ensures |r| == |sets| && forall i :: 0 <= i < |r| ==> r[i] == Stratum(sets[i], RulesOf(rules, sets[i]))
  {
    seq(|sets|, i requires 0 <= i < |sets| => Stratum(sets[i], RulesOf(rules, sets[i])))
  }

  // ----- What a stratification of the dependency graph means for the rules -----

  lemma {:induction false} NodesAreHeads(rules: seq<Rule>, dep: DepGraph)
    requires GraphOf(rules, Extensional(rules), dep)
    ensures AllNodes(dep) == Heads(rules)
  {
    forall b | b in AllNodes(dep) ensures b in Heads(rules) {
      if exists a :: a in dep && b in dep[a] {
        var a :| a in dep && b in dep[a];
        assert Edge(Flat(dep), a, b);
        var r, p :| r in rules && r.head.rel == a && p in r.premises && Mentions(p, b);
        assert b in ReadPreds(rules);
      }
    }
  }

  lemma {:induction false} ReadIsEdge(rules: seq<Rule>, dep: DepGraph, r: Rule, d: Pred)
    requires GraphOf(rules, Extensional(rules), dep) && r in rules && d in Heads(rules) && Reads(r, d)
    ensures Edge(Flat(dep), r.head.rel, d)
  {
    var p :| p in r.premises && (p.Atom? || p.NegAtom?) && p.pred == d;
    assert Mentions(p, d);
    assert DependsOn(rules, Extensional(rules), r.head.rel, d);
  }

  lemma {:induction false} NoLaterRead(rules: seq<Rule>, dep: DepGraph, sets: seq<set<Pred>>, i: nat, j: nat, r: Rule,
      d: Pred)
    requires GraphOf(rules, Extensional(rules), dep) && Stratified(dep, sets)
    requires i < j < |sets| && r in rules && r.head.rel in sets[i] && d in sets[j]
    ensures !Reads(r, d)
  {
    NodesAreHeads(rules, dep);
    assert d in AllNodes(dep);
    if Reads(r, d) {
      ReadIsEdge(rules, dep, r, d);
      assert false;
    }
  }

  lemma {:induction false} NoOwnNegation(rules: seq<Rule>, dep: DepGraph, sets: seq<set<Pred>>, i: nat, r: Rule,
      p: Premise)
    requires GraphOf(rules, Extensional(rules), dep) && Stratified(dep, sets)
    requires i < |sets| && r in rules && r.head.rel in sets[i] && p in r.premises && p.NegAtom?
    ensures p.pred !in sets[i]
  {
    NodesAreHeads(rules, dep);
    if p.pred in sets[i] {
      assert p.pred in AllNodes(dep);
      assert Negates(rules, Extensional(rules), r.head.rel, p.pred);
      assert false;
    }
  }

  lemma {:induction false} EveryRulePlaced(rules: seq<Rule>, dep: DepGraph, sets: seq<set<Pred>>, r: Rule)
    requires GraphOf(rules, Extensional(rules), dep) && Components(dep, sets) && r in rules
    ensures exists i :: 0 <= i < |sets| && r in StrataOf(sets, rules)[i].rules
  {
    assert r.head.rel in AllNodes(dep);
    var i :| 0 <= i < |sets| && r.head.rel in sets[i];
    assert r in StrataOf(sets, rules)[i].rules;
  }

  /** No rule reads a later stratum or negates its own, and every rule is in some stratum. */
  lemma {:induction false} StratifiedRules(rules: seq<Rule>, dep: DepGraph, sets: seq<set<Pred>>)
    requires GraphOf(rules, Extensional(rules), dep) && Stratified(dep, sets)
    ensures Ordered(StrataOf(sets, rules)) && StratumRules(StrataOf(sets, rules))
    ensures forall r :: r in rules <==> exists i :: 0 <= i < |sets| && r in StrataOf(sets, rules)[i].rules
  {
    var strata := StrataOf(sets, rules);
    forall i, j, r, d | 0 <= i < j < |strata| && r in strata[i].rules && d in strata[j].preds ensures !Reads(r, d) {
      NoLaterRead(rules, dep, sets, i, j, r, d);
    }
    forall i, r | 0 <= i < |strata| && r in strata[i].rules ensures InStratum(r, strata[i].preds) {
      forall p | p in r.premises && p.NegAtom? ensures p.pred !in sets[i] { NoOwnNegation(rules, dep, sets, i, r, p); }
    }
    forall r | r in rules ensures exists i :: 0 <= i < |sets| && r in strata[i].rules {
      EveryRulePlaced(rules, dep, sets, r);
    }
  }

  // ----- Programs the driver evaluates -----

  /** Rules that pass the analysis. */
  ghost predicate Analysed(rules: seq<Rule>, hashJoin: bool) {
    forall r :: r in rules ==> Safe(r) && RelationJoins(r, Config(None, hashJoin))
  }

  /** Rules whose delta plans miss nothing, for the relations that are mutually recursive with
      the head: some such plan reads no delta, or no such relation occurs twice. */
  ghost predicate Admissible(rules: seq<Rule>, dep: DepGraph) {
    forall r :: r in rules ==>
      || (exists q ::
          q in r.premises && q.Atom? && Mutual(Flat(dep), r.head.rel, q.pred) &&
          NoDeltaScan(Delayed(r.premises), {}, q.pred))
      || (forall d :: Mutual(Flat(dep), r.head.rel, d) ==> OccursOnce(r.premises, d))
  }

  lemma {:induction false} AnalysedStrata(rules: seq<Rule>, dep: DepGraph, sets: seq<set<Pred>>, hashJoin: bool)
    requires GraphOf(rules, Extensional(rules), dep) && Stratified(dep, sets) && Analysed(rules, hashJoin)
    ensures forall s :: s in StrataOf(sets, rules) ==> Prepared(s.rules, s.preds, hashJoin)
  {
    StratifiedRules(rules, dep, sets);
    var strata := StrataOf(sets, rules);
    forall s, r | s in strata && r in s.rules
      ensures InStratum(r, s.preds) && Safe(r) && RelationJoins(r, Config(None, hashJoin))
    {
      var i :| 0 <= i < |strata| && strata[i] == s;
      assert r in strata[i].rules && r in rules;
      assert InStratum(r, strata[i].preds);
    }
  }

  lemma {:induction false} AdmissibleStrata(rules: seq<Rule>, dep: DepGraph, sets: seq<set<Pred>>)
    requires GraphOf(rules, Extensional(rules), dep) && Stratified(dep, sets) && Admissible(rules, dep)
    ensures forall s, r :: s in StrataOf(sets, rules) && r in s.rules ==> DeltaComplete(r, s.preds)
  {
    var strata := StrataOf(sets, rules);
    forall s, r | s in strata && r in s.rules ensures DeltaComplete(r, s.preds) {
      var i :| 0 <= i < |strata| && strata[i] == s;
      OwnStratum(rules, dep, sets, i, r);
      if q :|
        q in r.premises && q.Atom? && Mutual(Flat(dep), r.head.rel, q.pred) &&
        NoDeltaScan(Delayed(r.premises), {}, q.pred)
      {
        assert q.pred in sets[i];
      } else {
        forall d | d in sets[i] ensures OccursOnce(r.premises, d) { assert Mutual(Flat(dep), r.head.rel, d); }
      }
    }
  }

  /** The stratum of a rule holds exactly the relations that are mutually recursive with its head. */
  lemma {:induction false} OwnStratum(rules: seq<Rule>, dep: DepGraph, sets: seq<set<Pred>>, i: nat, r: Rule)
    requires GraphOf(rules, Extensional(rules), dep) && Components(dep, sets) && i < |sets| &&
             r in StrataOf(sets, rules)[i].rules
    ensures forall d :: d in sets[i] <==> Mutual(Flat(dep), r.head.rel, d)
  {
    var a := r.head.rel;
    assert a in sets[i] && a in dep;
    forall d | Mutual(Flat(dep), a, d) ensures d in sets[i] {
      if d !in AllNodes(dep) {
        var x, y := Exit(Flat(dep), AllNodes(dep), a, d);
        assert false;
      }
    }
  }

  /** What one set of rules derives, some stratum derives. */
  lemma {:induction false} FollowsSomewhere(rules: seq<Rule>, sets: seq<set<Pred>>, f: Fact, facts: set<Fact>,
      host: Host)
    requires forall r :: r in rules <==> exists i :: 0 <= i < |sets| && r in StrataOf(sets, rules)[i].rules
    ensures Follows(rules, f, facts, host) <==> SupportedBy(StrataOf(sets, rules), f, facts, host)
  {
    var strata := StrataOf(sets, rules);
    if Follows(rules, f, facts, host) {
      var r :| r in rules && Derives(r, f, host(facts, {}));
      var i :| 0 <= i < |sets| && r in strata[i].rules;
      assert Follows(strata[i].rules, f, facts, host);
    }
    if SupportedBy(strata, f, facts, host) {
      var i :| 0 <= i < |strata| && Follows(strata[i].rules, f, facts, host);
      var r :| r in strata[i].rules && Derives(r, f, host(facts, {}));
      assert r in rules;
    }
  }

  lemma {:induction false} PlannableStrata(rules: seq<Rule>, sets: seq<set<Pred>>)
    requires forall r :: r in rules <==> exists i :: 0 <= i < |sets| && r in StrataOf(sets, rules)[i].rules
    ensures (forall s :: s in StrataOf(sets, rules) ==> AllPlannable(s)) <==> (forall r :: r in rules ==> Plannable(r))
  {
    hide Plannable;
    var strata := StrataOf(sets, rules);
    if forall s :: s in strata ==> AllPlannable(s) {
      forall r | r in rules ensures Plannable(r) {
        var i :| 0 <= i < |sets| && r in strata[i].rules;
        assert strata[i] in strata;
      }
    }
    if forall r :: r in rules ==> Plannable(r) {
      forall s, r | s in strata && r in s.rules ensures Plannable(r) {
        var i :| 0 <= i < |strata| && strata[i] == s;
        assert r in strata[i].rules;
      }
    }
  }

  datatype Outcome = Unstratifiable | Evaluated(result: Evaluation)

  /** Compile and run: rejected exactly when a cycle runs through a negation.  Every fact that
      a finished run leaves is given or derived, with negation read in the final set.  When
      the delta plans are complete the set is also closed under every rule; it is then the
      perfect model of the program, so it is the only possible result. */
  method RunProgram(rules: seq<Rule>, hashJoin: bool, st: Store, host: Host, rounds: nat)
      returns (o: Outcome, dep: DepGraph, sets: seq<set<Pred>>)
    requires st.next == {}
    ensures GraphOf(rules, Extensional(rules), dep)
    ensures o.Unstratifiable? <==> NegativeCycle(dep)
    ensures o.Evaluated? ==> Stratified(dep, sets)
    ensures o.Evaluated? && o.result.Done? && Faithful(host) && Analysed(rules, hashJoin) ==>
      var base, facts := st.Visible(), o.result.store.Visible();
      base <= facts && (forall f :: f in facts && f !in base ==> Follows(rules, f, facts, host)) &&
      forall r :: r in rules ==> Plannable(r)
    ensures o.Evaluated? && o.result.Failed? && Faithful(host) && Analysed(rules, hashJoin) ==>
      !host({}, {}).Total() || exists r :: r in rules && !Plannable(r)
    ensures o.Evaluated? && o.result.Done? && Faithful(host) && Analysed(rules, hashJoin) && Admissible(rules, dep) ==>
      var facts := o.result.store.Visible();
      PerfectModel(StrataOf(sets, rules), st.Visible(), facts, host) && ClosedUnder(facts, rules, host)
    ensures o.Evaluated? && o.result.Unfinished? && Faithful(host) && Analysed(rules, hashJoin) &&
            Admissible(rules, dep) ==>
      forall c :: PerfectModel(StrataOf(sets, rules), st.Visible(), c, host) ==> rounds <= |c|
  {
    hide PerfectModel, ClosedUnder, Follows, Faithful, Program.Supported, ProgramClosed, AllPlannable, Plannable,
      Prepared, DeltaComplete, Admissible, Analysed;
    dep := MakeDepGraph(rules, Extensional(rules));
    sets := [];
    var strata := StratifyGraph(dep);
    if strata.Err? { return Unstratifiable, dep, sets; }
    sets := strata.value;
    StratifiedRules(rules, dep, sets);
    if Analysed(rules, hashJoin) { AnalysedStrata(rules, dep, sets, hashJoin); }
    if Admissible(rules, dep) { AdmissibleStrata(rules, dep, sets); }
    PlannableStrata(rules, sets);
    var e := EvalProgram(StrataOf(sets, rules), hashJoin, st, host, rounds);
    if e.Done? { FinalFacts(rules, sets, st.Visible(), e.store.Visible(), host); }
    o := Evaluated(e);
  }

  /** Support and closure, from the strata to the rules. */
  lemma {:induction false} FinalFacts(rules: seq<Rule>, sets: seq<set<Pred>>, base: set<Fact>, facts: set<Fact>,
      host: Host)
    requires forall r :: r in rules <==> exists i :: 0 <= i < |sets| && r in StrataOf(sets, rules)[i].rules
    ensures Program.Supported(StrataOf(sets, rules), base, facts, host) ==>
            forall f :: f in facts && f !in base ==> Follows(rules, f, facts, host)
    ensures ProgramClosed(StrataOf(sets, rules), facts, host) ==> ClosedUnder(facts, rules, host)
  {
    hide Follows, SupportedBy;
    forall f ensures Follows(rules, f, facts, host) <==> SupportedBy(StrataOf(sets, rules), f, facts, host) {
      FollowsSomewhere(rules, sets, f, facts, host);
    }
    if ProgramClosed(StrataOf(sets, rules), facts, host) { SupportedAreIn(rules, sets, facts, host); }
  }

  lemma {:induction false} SupportedAreIn(rules: seq<Rule>, sets: seq<set<Pred>>, facts: set<Fact>, host: Host)
    requires ProgramClosed(StrataOf(sets, rules), facts, host)
    requires forall f :: Follows(rules, f, facts, host) <==> SupportedBy(StrataOf(sets, rules), f, facts, host)
    ensures ClosedUnder(facts, rules, host)
  {
    forall f | Follows(rules, f, facts, host) ensures f in facts {
      var i :| 0 <= i < |sets| && Follows(StrataOf(sets, rules)[i].rules, f, facts, host);
      assert ClosedUnder(facts, StrataOf(sets, rules)[i].rules, host);
    }
  }
}
