/** The planner's reordering of premises: negations, inequalities and equalities wait until
    the variables they need are bound. */
module Delay {
  import opened Datalog
  import opened Planner

  predicate Delayable(p: Premise) {
    p.NegAtom? || p.Equal? || p.Inequal?
  }

  predicate EqBindable(l: Term, r: Term, bound: set<Var>) {
    IsUnboundVar(l, bound) && TermVars(r) <= bound
  }

  /** Whether the premise can be planned with these variables bound. */
  predicate PremiseReady(p: Premise, bound: set<Var>) {
    match p
    case Atom(_, _) => true
    case NegAtom(_, args) => TermsVars(args) <= bound
    case Inequal(l, r) => TermVars(l) <= bound && TermVars(r) <= bound
    case Equal(l, r) =>
      (TermVars(l) <= bound && TermVars(r) <= bound) || EqBindable(l, r, bound) || EqBindable(r, l, bound)
  }

  /** The variables recorded as bound once the premise is placed. */
  function Binds(p: Premise): set<Var> {
    match p
    case Atom(pred, args) =>
      if pred.IsFilter() then {}
      else if pred.MatchField? then (if |args| >= 3 && args[2].VarTerm? then {args[2].v} else {})
      else if pred.ListMember? then (if |args| >= 1 && args[0].VarTerm? then {args[0].v} else {})
      else TermsVars(args)
    case Equal(l, r) => TermVars(l) + TermVars(r)
    case _ => {}
  }

  datatype State = State(ordered: seq<Premise>, bound: set<Var>, waiting: seq<Premise>)

  function Append(s: State, p: Premise): State {
    State(s.ordered + [p], s.bound + Binds(p), s.waiting)
  }

  /** One pass over the waiting premises; those still unready collect in `s.waiting`. */
  function Sweep(waiting: seq<Premise>, s: State): (t: State)
    ensures |s.waiting| <= |t.waiting| <= |s.waiting| + |waiting|
    decreases |waiting|
  {
    if waiting == [] then s
    else if PremiseReady(waiting[0], s.bound) then Sweep(waiting[1..], Append(s, waiting[0]))
    else Sweep(waiting[1..], s.(waiting := s.waiting + [waiting[0]]))
  }

  /** Passes until one of them places nothing. */
  function Settle(s: State): State
    decreases |s.waiting|
  {
    var t := Sweep(s.waiting, s.(waiting := []));
    if |t.waiting| == |s.waiting| then t else Settle(t)
  }

  function Step(p: Premise, s: State): State {
    if Delayable(p) && !PremiseReady(p, s.bound) then s.(waiting := s.waiting + [p])
    else Settle(Append(s, p))
  }

  function Reorder(ps: seq<Premise>, s: State): State
    decreases |ps|
  {
    if ps == [] then s else Reorder(ps[1..], Step(ps[0], s))
  }

  function Final(ps: seq<Premise>): State {
    Reorder(ps, State([], {}, []))
  }

  function Delayed(ps: seq<Premise>): seq<Premise> {
    Final(ps).ordered + Final(ps).waiting
  }

  // ----- The loops -----

  method PlacePremise(p: Premise, s: State) returns (t: State)
    ensures t == Settle(Append(s, p))
  {
    t := Append(s, p);
    var progressed := true;
    while progressed
      invariant progressed ==> Settle(t) == Settle(Append(s, p))
      invariant !progressed ==> t == Settle(Append(s, p))
      decreases progressed, |t.waiting|
    {
      var before := t;
      progressed := false;
      t := before.(waiting := []);
      for i := 0 to |before.waiting|
        invariant Sweep(before.waiting[i..], t) == Sweep(before.waiting, before.(waiting := []))
        invariant |t.waiting| + (if progressed then 1 else 0) <= i
        invariant !progressed ==> |t.waiting| == i
      {
        var w := before.waiting[i];
        assert before.waiting[i..][0] == w && before.waiting[i..][1..] == before.waiting[i + 1..];
        if PremiseReady(w, t.bound) {
          t := Append(t, w);
          progressed := true;
        } else {
          t := t.(waiting := t.waiting + [w]);
        }
      }
    }
  }

  /** The waiting premises at the end are appended, not dropped. */
  method DelayUnboundPremises(premises: seq<Premise>) returns (ordered: seq<Premise>)
    ensures ordered == Delayed(premises)
  {
    var s := State([], {}, []);
    for i := 0 to |premises|
      invariant Reorder(premises[i..], s) == Final(premises)
    {
      var p := premises[i];
      assert premises[i..][0] == p && premises[i..][1..] == premises[i + 1..];
      if Delayable(p) && !PremiseReady(p, s.bound) {
        s := s.(waiting := s.waiting + [p]);
      } else {
        s := PlacePremise(p, s);
      }
    }
    ordered := s.ordered + s.waiting;
  }

  // ----- What every step keeps -----

  function BindAll(ps: seq<Premise>, bound: set<Var>): set<Var> {
    if ps == [] then bound else BindAll(ps[1..], bound + Binds(ps[0]))
  }

  /** The premises that are never delayed, in their order. */
  function Undelayed(ps: seq<Premise>): seq<Premise> {
    if ps == [] then [] else (if Delayable(ps[0]) then [] else [ps[0]]) + Undelayed(ps[1..])
  }

  ghost predicate PlacedReady(ordered: seq<Premise>) {
    forall i :: 0 <= i < |ordered| ==> PremiseReady(ordered[i], BindAll(ordered[..i], {}))
  }

  /** The state after the premises `seen`; `pending` are waiting premises still to be looked at. */
  ghost predicate Sound(s: State, pending: seq<Premise>, seen: seq<Premise>) {
    && multiset(s.ordered) + multiset(s.waiting) + multiset(pending) == multiset(seen)
    && s.bound == BindAll(s.ordered, {})
    && PlacedReady(s.ordered)
    && Undelayed(s.ordered) == Undelayed(seen)
    && (forall w :: w in s.waiting || w in pending ==> Delayable(w))
  }

  /** No waiting premise is ready. */
  ghost predicate Stuck(s: State) {
    forall w :: w in s.waiting ==> Delayable(w) && !PremiseReady(w, s.bound)
  }

  lemma {:induction false} BindAllConcat(a: seq<Premise>, b: seq<Premise>, bound: set<Var>)
    ensures BindAll(a + b, bound) == BindAll(b, BindAll(a, bound))
    decreases |a|
  {
    if a == [] {
      assert a + b == b;
    } else {
      assert (a + b)[0] == a[0] && (a + b)[1..] == a[1..] + b;
      BindAllConcat(a[1..], b, bound + Binds(a[0]));
    }
  }

  lemma {:induction false} UndelayedConcat(a: seq<Premise>, b: seq<Premise>)
    ensures Undelayed(a + b) == Undelayed(a) + Undelayed(b)
    decreases |a|
  {
    if a == [] {
      assert a + b == b;
    } else {
      assert (a + b)[0] == a[0] && (a + b)[1..] == a[1..] + b;
      UndelayedConcat(a[1..], b);
    }
  }

  lemma {:induction false} UndelayedNone(ps: seq<Premise>)
    requires forall p :: p in ps ==> Delayable(p)
    ensures Undelayed(ps) == []
    decreases |ps|
  {
    if ps != [] { UndelayedNone(ps[1..]); }
  }

  lemma {:induction false} AppendPlaced(s: State, p: Premise)
    requires s.bound == BindAll(s.ordered, {}) && PlacedReady(s.ordered) && PremiseReady(p, s.bound)
    ensures var t := Append(s, p);
            t.bound == BindAll(t.ordered, {}) && PlacedReady(t.ordered)
            && Undelayed(t.ordered) == Undelayed(s.ordered) + Undelayed([p])
  {
    var t := Append(s, p);
    BindAllConcat(s.ordered, [p], {});
    assert [p][1..] == [];
    assert BindAll([p], s.bound) == BindAll([], s.bound + Binds(p));
    UndelayedConcat(s.ordered, [p]);
    forall i | 0 <= i < |t.ordered| ensures PremiseReady(t.ordered[i], BindAll(t.ordered[..i], {})) {
      if i < |s.ordered| { assert t.ordered[..i] == s.ordered[..i]; } else { assert t.ordered[..i] == s.ordered; }
    }
  }

  lemma {:induction false} SweepSound(waiting: seq<Premise>, s: State, seen: seq<Premise>)
    requires Sound(s, waiting, seen)
    ensures Sound(Sweep(waiting, s), [], seen)
    ensures s.bound <= Sweep(waiting, s).bound
    decreases |waiting|
  {
    if waiting != [] {
      assert waiting == [waiting[0]] + waiting[1..];
      if PremiseReady(waiting[0], s.bound) {
        AppendPlaced(s, waiting[0]);
        UndelayedNone([waiting[0]]);
        SweepSound(waiting[1..], Append(s, waiting[0]), seen);
      } else {
        SweepSound(waiting[1..], s.(waiting := s.waiting + [waiting[0]]), seen);
      }
    }
  }

  /** A pass that places nothing leaves the bindings alone and has found nothing ready. */
  lemma {:induction false} SweepIdle(waiting: seq<Premise>, s: State)
    requires |Sweep(waiting, s).waiting| == |s.waiting| + |waiting|
    ensures Sweep(waiting, s).bound == s.bound && Sweep(waiting, s).ordered == s.ordered
    ensures Sweep(waiting, s).waiting == s.waiting + waiting
    ensures forall w :: w in waiting ==> !PremiseReady(w, s.bound)
    decreases |waiting|
  {
    if waiting != [] {
      assert !PremiseReady(waiting[0], s.bound);
      var s' := s.(waiting := s.waiting + [waiting[0]]);
      SweepIdle(waiting[1..], s');
      assert s.waiting + waiting == s'.waiting + waiting[1..];
    } else {
      assert s.waiting + [] == s.waiting;
    }
  }

  lemma {:induction false} SettleSound(s: State, seen: seq<Premise>)
    requires Sound(s, [], seen)
    ensures Sound(Settle(s), [], seen) && Stuck(Settle(s))
    ensures s.bound <= Settle(s).bound
    decreases |s.waiting|
  {
    var s0 := s.(waiting := []);
    var t := Sweep(s.waiting, s0);
    SweepSound(s.waiting, s0, seen);
    if |t.waiting| == |s.waiting| {
      SweepIdle(s.waiting, s0);
    } else {
      SettleSound(t, seen);
    }
  }

  lemma {:induction false} StepSound(p: Premise, s: State, seen: seq<Premise>)
    requires Sound(s, [], seen) && Stuck(s)
    ensures Sound(Step(p, s), [], seen + [p]) && Stuck(Step(p, s))
    ensures s.bound <= Step(p, s).bound
  {
    UndelayedConcat(seen, [p]);
    if Delayable(p) && !PremiseReady(p, s.bound) {
      UndelayedNone([p]);
    } else {
      AppendPlaced(s, p);
      SettleSound(Append(s, p), seen + [p]);
    }
  }

  lemma {:induction false} ReorderSound(ps: seq<Premise>, s: State, seen: seq<Premise>)
    requires Sound(s, [], seen) && Stuck(s)
    ensures Sound(Reorder(ps, s), [], seen + ps) && Stuck(Reorder(ps, s))
    ensures s.bound <= Reorder(ps, s).bound
    decreases |ps|
  {
    if ps == [] {
      assert seen + [] == seen;
    } else {
      StepSound(ps[0], s, seen);
      assert seen + ps == seen + [ps[0]] + ps[1..];
      ReorderSound(ps[1..], Step(ps[0], s), seen + [ps[0]]);
    }
  }

  lemma {:induction false} FinalSound(ps: seq<Premise>)
    ensures Sound(Final(ps), [], ps) && Stuck(Final(ps))
  {
    ReorderSound(ps, State([], {}, []), []);
    assert [] + ps == ps;
  }

  /** The reordering permutes the premises, keeps the order of those that are never
      delayed, and places each premise only when it is ready. */
  lemma {:induction false} DelayedPermutes(ps: seq<Premise>)
    ensures multiset(Delayed(ps)) == multiset(ps)
    ensures Undelayed(Delayed(ps)) == Undelayed(ps)
    ensures forall i :: 0 <= i < |Final(ps).ordered| ==> PremiseReady(Delayed(ps)[i], BindAll(Delayed(ps)[..i], {}))
    ensures forall w :: w in Final(ps).waiting ==> !PremiseReady(w, Final(ps).bound)
  {
    FinalSound(ps);
    var s := Final(ps);
    UndelayedConcat(s.ordered, s.waiting);
    UndelayedNone(s.waiting);
    forall i | 0 <= i < |s.ordered| ensures PremiseReady(Delayed(ps)[i], BindAll(Delayed(ps)[..i], {})) {
      assert Delayed(ps)[..i] == s.ordered[..i];
    }
  }

  // ----- The final bindings -----

  lemma ReadyMonotone(p: Premise, a: set<Var>, b: set<Var>)
    requires PremiseReady(p, a) && a <= b
    ensures PremiseReady(p, b)
  {
  }

  /** A set of variables closed under the premises: whatever can be placed binds into it. */
  ghost predicate Closed(b: set<Var>, ps: seq<Premise>) {
    forall p :: p in ps && PremiseReady(p, b) ==> Binds(p) <= b
  }

  lemma {:induction false} BindAllBelow(ordered: seq<Premise>, b: set<Var>, n: nat)
    requires PlacedReady(ordered) && Closed(b, ordered) && n <= |ordered|
    ensures BindAll(ordered[..n], {}) <= b
    decreases n
  {
    if n > 0 {
      BindAllBelow(ordered, b, n - 1);
      var p := ordered[n - 1];
      assert ordered[..n] == ordered[..n - 1] + [p];
      BindAllConcat(ordered[..n - 1], [p], {});
      assert [p][1..] == [];
      assert BindAll([p], BindAll(ordered[..n - 1], {})) == BindAll([], BindAll(ordered[..n - 1], {}) + Binds(p));
      ReadyMonotone(p, BindAll(ordered[..n - 1], {}), b);
    }
  }

  lemma {:induction false} BindAllIncludes(ordered: seq<Premise>, bound: set<Var>, p: Premise)
    requires p in ordered
    ensures Binds(p) <= BindAll(ordered, bound)
    decreases |ordered|
  {
    if ordered[0] == p {
      BindAllGrows(ordered[1..], bound + Binds(p));
    } else {
      BindAllIncludes(ordered[1..], bound + Binds(ordered[0]), p);
    }
  }

  lemma {:induction false} BindAllGrows(ordered: seq<Premise>, bound: set<Var>)
    ensures bound <= BindAll(ordered, bound)
    decreases |ordered|
  {
    if ordered != [] { BindAllGrows(ordered[1..], bound + Binds(ordered[0])); }
  }

  /** The final bindings are the least set closed under the premises. */
  lemma {:induction false} FinalBoundLeast(ps: seq<Premise>)
    ensures Closed(Final(ps).bound, ps)
    ensures forall b: set<Var> :: Closed(b, ps) ==> Final(ps).bound <= b
  {
    FinalSound(ps);
    var s := Final(ps);
    assert multiset(s.ordered) + multiset(s.waiting) == multiset(ps);
    forall p | p in ps && PremiseReady(p, s.bound) ensures Binds(p) <= s.bound {
      assert p in multiset(ps);
      assert p in s.ordered;
      BindAllIncludes(s.ordered, {}, p);
    }
    forall b: set<Var> | Closed(b, ps) ensures s.bound <= b {
      forall p | p in s.ordered ensures p in ps {
        assert p in multiset(s.ordered) && p in multiset(ps);
      }
      BindAllBelow(s.ordered, b, |s.ordered|);
      assert s.ordered[..|s.ordered|] == s.ordered;
    }
  }

  /** Where the premises start does not matter for what ends up bound or waiting. */
  lemma {:induction false} OrderIrrelevant(ps: seq<Premise>, qs: seq<Premise>)
    requires multiset(ps) == multiset(qs)
    ensures Final(ps).bound == Final(qs).bound
    ensures multiset(Final(ps).waiting) == multiset(Final(qs).waiting)
  {
    FinalBoundLeast(ps);
    FinalBoundLeast(qs);
    assert forall p :: p in ps <==> p in qs by {
      assert forall p :: p in ps <==> p in multiset(ps);
      assert forall p :: p in qs <==> p in multiset(qs);
    }
    assert Closed(Final(ps).bound, qs) && Closed(Final(qs).bound, ps);
    var b := Final(ps).bound;
    FinalSound(ps);
    FinalSound(qs);
    forall p ensures multiset(Final(ps).waiting)[p] == multiset(Final(qs).waiting)[p] {
      WaitingCount(ps, p);
      WaitingCount(qs, p);
    }
  }

  /** A premise waits at the end, all its copies, exactly when it is not ready. */
  lemma {:induction false} WaitingCount(ps: seq<Premise>, p: Premise)
    ensures multiset(Final(ps).waiting)[p] == if PremiseReady(p, Final(ps).bound) then 0 else multiset(ps)[p]
  {
    FinalSound(ps);
    var s := Final(ps);
    assert multiset(s.ordered)[p] + multiset(s.waiting)[p] == multiset(ps)[p];
    if PremiseReady(p, s.bound) {
      assert p !in s.waiting;
    } else if p in s.ordered {
      var i :| 0 <= i < |s.ordered| && s.ordered[i] == p;
      assert s.ordered == s.ordered[..i] + s.ordered[i..];
      BindAllConcat(s.ordered[..i], s.ordered[i..], {});
      BindAllGrows(s.ordered[i..], BindAll(s.ordered[..i], {}));
      ReadyMonotone(p, BindAll(s.ordered[..i], {}), s.bound);
      assert false;
    }
  }
}
