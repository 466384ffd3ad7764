/** The binding (safety) check of a rule, and what its acceptance means for the planner. */
module Bindings {
  import opened Datalog
  import opened Planner
  import opened Delay
  import opened PlanCorrect

  /** The sets and lists the check updates while it scans the premises. */
  datatype Progress = Progress(
    bound: set<Var>,
    seen: set<Var>,
    eqs: seq<(Var, Var)>,          // variable-variable equalities still pending
    binds: seq<(Var, set<Var>)>,   // variable = expression, with the expression's variables
    filters: set<Var>)             // variables of negations and inequalities

  /** `:match_entry` is checked like `:match_field`, although the planner has no case for it. */
  predicate BindsThird(p: Pred) {
    p.MatchField? || p == Other(":match_entry")
  }

  function ScanAtom(pred: Pred, args: seq<Term>, s0: Progress): Result<Progress> {
    var s := s0.(seen := s0.seen + TermsVars(args));
    if pred.IsFilter() then
      if TermsVars(args) <= s.bound then Ok(s) else Err
    else if BindsThird(pred) then
      if |args| != 3 then Ok(s)
      else if !(TermVars(args[0]) + TermVars(args[1]) <= s.bound) then Err
      else Ok(s.(bound := s.bound + if args[2].VarTerm? then {args[2].v} else {}))
    else if pred.ListMember? then
      if |args| != 2 then Ok(s)
      else if !(TermVars(args[1]) <= s.bound) then Err
      else Ok(s.(bound := s.bound + if args[0].VarTerm? then {args[0].v} else {}))
    else Ok(s.(bound := s.bound + TermsVars(args)))
  }

  function ScanEqual(l: Term, r: Term, s0: Progress): Progress {
    var s := s0.(seen := s0.seen + TermVars(l) + TermVars(r));
    if l.VarTerm? && r.VarTerm? then
      if l.v in s.bound then s.(bound := s.bound + {r.v})
      else if r.v in s.bound then s.(bound := s.bound + {l.v})
      else s.(eqs := s.eqs + [(l.v, r.v)])
    else if l.VarTerm? then
      if TermVars(r) <= s.bound then s.(bound := s.bound + {l.v}) else s.(binds := s.binds + [(l.v, TermVars(r))])
    else if r.VarTerm? then
      if TermVars(l) <= s.bound then s.(bound := s.bound + {r.v}) else s.(binds := s.binds + [(r.v, TermVars(l))])
    else s
  }

  function ScanPremise(p: Premise, s: Progress): Result<Progress> {
    match p
    case Atom(pred, args) => ScanAtom(pred, args, s)
    case NegAtom(_, args) => Ok(s.(seen := s.seen + TermsVars(args), filters := s.filters + DirectVars(args)))
    case Equal(l, r) => Ok(ScanEqual(l, r, s))
    case Inequal(l, r) =>
      var vs := TermVars(l) + TermVars(r);
      Ok(s.(seen := s.seen + vs, filters := s.filters + vs))
  }

  function ScanAll(ps: seq<Premise>, s: Progress): Result<Progress>
    decreases |ps|
  {
    if ps == [] then Ok(s)
    else
      match ScanPremise(ps[0], s)
      case Err => Err
      case Ok(t) => ScanAll(ps[1..], t)
  }

  function Start(h: Head): Progress {
    Progress({}, TermsVars(h.args), [], [], {})
  }

  /** Closed under the pending equalities. */
  ghost predicate PendingClosed(b: set<Var>, s: Progress) {
    && (forall e :: e in s.eqs ==> (e.0 in b <==> e.1 in b))
    && (forall d :: d in s.binds && d.1 <= b ==> d.0 in b)
  }

  /** The rule is accepted when the scan succeeds and every variable seen belongs to every
      closed set that contains the scanned bindings. */
  ghost predicate Accepts(r: Rule) {
    var s := ScanAll(r.premises, Start(r.head));
    s.Ok? && forall b: set<Var> :: s.value.bound <= b && PendingClosed(b, s.value) ==> s.value.seen <= b
  }

  // ----- The check as it runs -----

  /** Every variable the scan keeps has been seen. */
  ghost predicate Kept(s: Progress, h: Head) {
    && TermsVars(h.args) <= s.seen && s.filters <= s.seen
    && (forall e :: e in s.eqs ==> e.0 in s.seen && e.1 in s.seen)
    && (forall d :: d in s.binds ==> d.0 in s.seen && d.1 <= s.seen)
  }

  lemma {:induction false} ScanKeeps(p: Premise, s: Progress, h: Head)
    requires Kept(s, h) && ScanPremise(p, s).Ok?
    ensures Kept(ScanPremise(p, s).value, h)
  {
    match p
    case Atom(_, _) =>
    case NegAtom(_, args) => DirectSubset(args);
    case Equal(_, _) =>
    case Inequal(_, _) =>
  }

  lemma {:induction false} DirectSubset(args: seq<Term>)
    ensures DirectVars(args) <= TermsVars(args)
    decreases |args|
  {
    if args != [] { DirectSubset(args[1..]); }
  }

  /** The set is inside every closed set above the scanned bindings. */
  ghost predicate Forced(bound: set<Var>, s: Progress) {
    forall b: set<Var> :: s.bound <= b && PendingClosed(b, s) ==> bound <= b
  }

  lemma ForcedByEq(bound: set<Var>, s: Progress, e: (Var, Var))
    requires Forced(bound, s) && e in s.eqs && (e.0 in bound || e.1 in bound)
    ensures Forced(bound + {e.0, e.1}, s)
  {
  }

  lemma ForcedByBind(bound: set<Var>, s: Progress, d: (Var, set<Var>))
    requires Forced(bound, s) && d in s.binds && d.1 <= bound
    ensures Forced(bound + {d.0}, s)
  {
  }

  /** One pass over the variable-variable equalities. */
  method PassEqs(s: Progress, before: set<Var>) returns (bound: set<Var>)
    requires Forced(before, s)
    ensures before <= bound <= before + Targets(s) && Forced(bound, s)
    ensures bound == before ==> forall e :: e in s.eqs ==> (e.0 in bound <==> e.1 in bound)
  {
    bound := before;
    for i := 0 to |s.eqs|
      invariant before <= bound <= before + Targets(s) && Forced(bound, s)
      invariant bound == before ==> forall j :: 0 <= j < i ==> (s.eqs[j].0 in bound <==> s.eqs[j].1 in bound)
    {
      var e := s.eqs[i];
      assert e in s.eqs;
      if e.0 in bound && e.1 !in bound {
        ForcedByEq(bound, s, e);
        assert bound + {e.0, e.1} == bound + {e.1};
        bound := bound + {e.1};
      } else if e.1 in bound && e.0 !in bound {
        ForcedByEq(bound, s, e);
        assert bound + {e.0, e.1} == bound + {e.0};
        bound := bound + {e.0};
      }
    }
  }

  /** One pass over the pending bindings. */
  method PassBinds(s: Progress, before: set<Var>) returns (bound: set<Var>)
    requires Forced(before, s)
    ensures before <= bound <= before + Targets(s) && Forced(bound, s)
    ensures bound == before ==> forall d :: d in s.binds && d.1 <= bound ==> d.0 in bound
  {
    bound := before;
    for i := 0 to |s.binds|
      invariant before <= bound <= before + Targets(s) && Forced(bound, s)
      invariant bound == before ==> forall j :: 0 <= j < i && s.binds[j].1 <= bound ==> s.binds[j].0 in bound
    {
      var d := s.binds[i];
      assert d in s.binds;
      if d.0 !in bound && d.1 <= bound {
        ForcedByBind(bound, s, d);
        bound := bound + {d.0};
      }
    }
  }

  /** The variables that resolving can bind. */
  ghost function Targets(s: Progress): set<Var> {
    (set e | e in s.eqs :: e.0) + (set e | e in s.eqs :: e.1) + (set d | d in s.binds :: d.0)
  }

  /** The fixpoint over the pending equalities: the least closed set above the bindings. */
  method Resolve(s: Progress) returns (bound: set<Var>)
    ensures s.bound <= bound && PendingClosed(bound, s)
    ensures forall b: set<Var> :: s.bound <= b && PendingClosed(b, s) ==> bound <= b
  {
    bound := s.bound;
    ghost var all := s.bound + Targets(s);
    var progressed := true;
    while progressed
      invariant s.bound <= bound <= all && Forced(bound, s)
      invariant !progressed ==> PendingClosed(bound, s)
      decreases |all - bound|, progressed
    {
      var before := bound;
      bound := PassEqs(s, bound);
      bound := PassBinds(s, bound);
      progressed := bound != before;
      if progressed { Shrinks(all, before, bound); }
    }
  }

  lemma Shrinks(all: set<Var>, a: set<Var>, b: set<Var>)
    requires a < b <= all
    ensures |all - b| < |all - a|
  {
    var v :| v in b && v !in a;
    assert all - b <= (all - a) - {v};
    SubsetSize(all - b, (all - a) - {v});
  }

  lemma {:induction false} SubsetSize(a: set<Var>, b: set<Var>)
    requires a <= b
    ensures |a| <= |b|
    decreases |a|
  {
    if a != {} {
      var v :| v in a;
      SubsetSize(a - {v}, b - {v});
    }
  }

  // ----- Acceptance, said of the premises -----

  /** The premise is an atom that gives the variable a value, its inputs aside: a relation its
      variables, the field and member tests their output. */
  predicate AtomGives(p: Premise, x: Var) {
    p.Atom? &&
    match p.pred
    case Compare(_, _) => false
    case Check(_) => false
    case MatchField => |p.args| == 3 && p.args[2] == VarTerm(x)
    case ListMember => |p.args| == 2 && p.args[0] == VarTerm(x)
    case Other(name) =>
      if name == ":match_entry" then |p.args| == 3 && p.args[2] == VarTerm(x) else x in TermsVars(p.args)
    case Rel(_) => x in TermsVars(p.args)
  }

  /** Reading from left to right, the variable has a value before premise `i`: an earlier atom
      gives it, or an earlier equality with a term whose variables had values before that. */
  ghost predicate BoundBefore(ps: seq<Premise>, i: nat, x: Var)
    requires i <= |ps|
    decreases i, 0
  {
    exists j :: 0 <= j < i && GivenAt(ps, j, x)
  }

  ghost predicate GivenAt(ps: seq<Premise>, j: nat, x: Var)
    requires j < |ps|
    decreases j, 1
  {
    || AtomGives(ps[j], x)
    || (ps[j].Equal? && ps[j].l == VarTerm(x) && forall y :: y in TermVars(ps[j].r) ==> BoundBefore(ps, j, y))
    || (ps[j].Equal? && ps[j].r == VarTerm(x) && forall y :: y in TermVars(ps[j].l) ==> BoundBefore(ps, j, y))
  }

  /** The variables that a built-in atom reads. */
  function InputsOf(p: Premise): set<Var> {
    if !p.Atom? then {}
    else
      match p.pred
      case Compare(_, _) => TermsVars(p.args)
      case Check(_) => TermsVars(p.args)
      case MatchField => if |p.args| == 3 then TermVars(p.args[0]) + TermVars(p.args[1]) else {}
      case ListMember => if |p.args| == 2 then TermVars(p.args[1]) else {}
      case Other(name) =>
        if name == ":match_entry" && |p.args| == 3 then TermVars(p.args[0]) + TermVars(p.args[1]) else {}
      case Rel(_) => {}
  }

  ghost predicate InputsInOrder(ps: seq<Premise>) {
    forall i, x :: 0 <= i < |ps| && x in InputsOf(ps[i]) ==> BoundBefore(ps, i, x)
  }

  /** The set has all that atoms give, and one side of an equality, if it is a variable, with
      the variables of the other. */
  ghost predicate ClosedUnderPremises(b: set<Var>, ps: seq<Premise>) {
    && (forall p, x :: p in ps && AtomGives(p, x) ==> x in b)
    && (forall p :: p in ps && p.Equal? && p.l.VarTerm? && TermVars(p.r) <= b ==> p.l.v in b)
    && (forall p :: p in ps && p.Equal? && p.r.VarTerm? && TermVars(p.l) <= b ==> p.r.v in b)
  }

  /** Built-in atoms find their inputs from left to right, and every variable of the rule is in
      the least set closed under the premises. */
  ghost predicate WellBound(r: Rule) {
    && InputsInOrder(r.premises)
    && forall b: set<Var> :: ClosedUnderPremises(b, r.premises) ==>
                               PremisesVars(r.premises) + TermsVars(r.head.args) <= b
  }

  /** After a scan of the first `i` premises: the bound variables are those that have values
      before premise `i`, and an equality has been used or is pending. */
  ghost predicate Scanned(s: Progress, ps: seq<Premise>, i: nat)
    requires i <= |ps|
  {
    && (forall x :: x in s.bound <==> BoundBefore(ps, i, x))
    && (forall k :: 0 <= k < i && ps[k].Equal? ==> Noted(s, ps[k]))
  }

  /** The equality has bound its variable, or is pending. */
  ghost predicate Noted(s: Progress, p: Premise)
    requires p.Equal?
  {
    if p.l.VarTerm? && p.r.VarTerm? then (p.l.v in s.bound && p.r.v in s.bound) || (p.l.v, p.r.v) in s.eqs
    else if p.l.VarTerm? then p.l.v in s.bound || (p.l.v, TermVars(p.r)) in s.binds
    else if p.r.VarTerm? then p.r.v in s.bound || (p.r.v, TermVars(p.l)) in s.binds
    else true
  }

  lemma {:induction false} WhereGiven(ps: seq<Premise>, i: nat, x: Var) returns (j: nat)
    requires i <= |ps| && BoundBefore(ps, i, x)
    ensures j < i && GivenAt(ps, j, x)
  {
    j :| 0 <= j < i && GivenAt(ps, j, x);
  }

  lemma {:induction false} BoundOneMore(ps: seq<Premise>, i: nat, x: Var)
    requires i < |ps|
    ensures BoundBefore(ps, i + 1, x) <==> BoundBefore(ps, i, x) || GivenAt(ps, i, x)
  {
    if BoundBefore(ps, i + 1, x) {
      var j := WhereGiven(ps, i + 1, x);
      assert j < i ==> BoundBefore(ps, i, x);
    } else if BoundBefore(ps, i, x) {
      var j := WhereGiven(ps, i, x);
    }
  }

  lemma {:induction false} ScanFinds(ps: seq<Premise>, i: nat, s: Progress)
    requires i < |ps| && Scanned(s, ps, i)
    ensures ScanPremise(ps[i], s).Ok? <==> forall x :: x in InputsOf(ps[i]) ==> BoundBefore(ps, i, x)
    ensures ScanPremise(ps[i], s).Ok? ==> Scanned(ScanPremise(ps[i], s).value, ps, i + 1)
  {
    var p, t := ps[i], ScanPremise(ps[i], s);
    hide BoundBefore;
    assert t.Ok? <==> InputsOf(p) <= s.bound;
    if t.Ok? {
      ScanGives(ps, i, s);
      forall x ensures x in t.value.bound <==> BoundBefore(ps, i + 1, x) { BoundOneMore(ps, i, x); }
      forall k | 0 <= k < i + 1 && ps[k].Equal? ensures Noted(t.value, ps[k]) {
        if k < i { assert Noted(s, ps[k]); }
      }
    }
  }

  lemma {:induction false} ScanGives(ps: seq<Premise>, i: nat, s: Progress)
    requires i < |ps| && ScanPremise(ps[i], s).Ok? && forall x :: x in s.bound <==> BoundBefore(ps, i, x)
    ensures forall x :: x in ScanPremise(ps[i], s).value.bound <==> x in s.bound || GivenAt(ps, i, x)
  {
    var p := ps[i];
    hide BoundBefore;
    if p.Equal? {
      assert (TermVars(p.l) <= s.bound <==> forall y :: y in TermVars(p.l) ==> BoundBefore(ps, i, y));
      assert (TermVars(p.r) <= s.bound <==> forall y :: y in TermVars(p.r) ==> BoundBefore(ps, i, y));
    }
  }

  lemma {:induction false} ScanInOrder(ps: seq<Premise>, i: nat, s: Progress)
    requires i <= |ps| && Scanned(s, ps, i)
    ensures var t := ScanAll(ps[i..], s);
            && (t.Ok? <==> forall k, x :: i <= k < |ps| && x in InputsOf(ps[k]) ==> BoundBefore(ps, k, x))
            && (t.Ok? ==> Scanned(t.value, ps, |ps|))
    decreases |ps| - i
  {
    if i < |ps| {
      hide BoundBefore, Scanned, ScanPremise, InputsOf;
      assert ps[i..][0] == ps[i] && ps[i..][1..] == ps[i + 1..];
      ScanFinds(ps, i, s);
      if ScanPremise(ps[i], s).Ok? { ScanInOrder(ps, i + 1, ScanPremise(ps[i], s).value); }
    }
  }

  /** A variable with a value is in every closed set. */
  lemma {:induction false} BoundIsForced(ps: seq<Premise>, i: nat, x: Var, b: set<Var>)
    requires i <= |ps| && BoundBefore(ps, i, x) && ClosedUnderPremises(b, ps)
    ensures x in b
    decreases i
  {
    var j := WhereGiven(ps, i, x);
    assert ps[j] in ps;
    if !AtomGives(ps[j], x) {
      if ps[j].l == VarTerm(x) && forall y :: y in TermVars(ps[j].r) ==> BoundBefore(ps, j, y) {
        forall y | y in TermVars(ps[j].r) ensures y in b { BoundIsForced(ps, j, y, b); }
      } else {
        forall y | y in TermVars(ps[j].l) ensures y in b { BoundIsForced(ps, j, y, b); }
      }
    }
  }

  /** The sets closed under the premises are those closed under what the scan leaves. */
  lemma {:induction false} SameClosed(ps: seq<Premise>, s: Progress, b: set<Var>)
    requires Scanned(s, ps, |ps|) && PendingFrom(s, ps)
    ensures ClosedUnderPremises(b, ps) <==> s.bound <= b && PendingClosed(b, s)
  {
    if ClosedUnderPremises(b, ps) {
      forall x | x in s.bound ensures x in b { BoundIsForced(ps, |ps|, x, b); }
      PendingKept(ps, s, b);
    }
    if s.bound <= b && PendingClosed(b, s) { PremisesKept(ps, s, b); }
  }

  lemma {:induction false} PendingKept(ps: seq<Premise>, s: Progress, b: set<Var>)
    requires PendingFrom(s, ps) && ClosedUnderPremises(b, ps)
    ensures PendingClosed(b, s)
  {
    forall e | e in s.eqs ensures e.0 in b <==> e.1 in b { assert Equal(VarTerm(e.0), VarTerm(e.1)) in ps; }
  }

  lemma {:induction false} PremisesKept(ps: seq<Premise>, s: Progress, b: set<Var>)
    requires Scanned(s, ps, |ps|) && s.bound <= b && PendingClosed(b, s)
    ensures ClosedUnderPremises(b, ps)
  {
    forall p, x | p in ps && AtomGives(p, x) ensures x in b {
      var j :| 0 <= j < |ps| && ps[j] == p;
      assert GivenAt(ps, j, x) && BoundBefore(ps, |ps|, x);
    }
    forall p | p in ps && p.Equal? ensures Noted(s, p) {
      var j :| 0 <= j < |ps| && ps[j] == p;
    }
  }

  /** The check accepts exactly the rules that are well bound. */
  lemma {:induction false} AcceptsIff(r: Rule)
    ensures Accepts(r) <==> WellBound(r)
  {
    var ps, s0 := r.premises, Start(r.head);
    assert ps[0..] == ps && Scanned(s0, ps, 0);
    ScanInOrder(ps, 0, s0);
    if ScanAll(ps, s0).Ok? {
      var s := ScanAll(ps, s0).value;
      ScanCollects(ps, s0, ps);
      ScanSees(ps, s0);
      hide Scanned, ScanAll, InputsInOrder, ClosedUnderPremises, PendingClosed, PendingFrom;
      forall b: set<Var> ensures ClosedUnderPremises(b, ps) <==> s.bound <= b && PendingClosed(b, s) {
        SameClosed(ps, s, b);
      }
    }
  }

  /** The scan sees the variables of the premises and no others. */
  lemma {:induction false} ScanSees(ps: seq<Premise>, s: Progress)
    requires ScanAll(ps, s).Ok?
    ensures ScanAll(ps, s).value.seen == s.seen + PremisesVars(ps)
    decreases |ps|
  {
    if ps != [] {
      var t := ScanPremise(ps[0], s).value;
      assert t.seen == s.seen + PremiseVars(ps[0]);
      ScanSees(ps[1..], t);
    }
  }

  method CheckRuleBindings(r: Rule) returns (ok: bool)
    ensures ok <==> Accepts(r)
    ensures ok <==> WellBound(r)
  {
    AcceptsIff(r);
    var s := Start(r.head);
    for i := 0 to |r.premises|
      invariant ScanAll(r.premises, Start(r.head)) == ScanAll(r.premises[i..], s)
      invariant Kept(s, r.head)
    {
      assert r.premises[i..][0] == r.premises[i] && r.premises[i..][1..] == r.premises[i + 1..];
      var next := ScanPremise(r.premises[i], s);
      if next.Err? {
        return false;
      }
      ScanKeeps(r.premises[i], s, r.head);
      s := next.value;
    }
    var bound := Resolve(s);
    // A pending binding that never resolved, a filter variable, a head variable, and
    // finally any variable that was seen: each must be bound.
    if exists d :: d in s.binds && d.0 !in bound && !(d.1 <= bound) {
      return false;
    }
    if !(s.filters <= bound) || !(TermsVars(r.head.args) <= bound) {
      return false;
    }
    ok := s.seen <= bound;
  }

  // ----- Accepted rules keep the planner going -----

  /** The inputs of a built-in atom are bound. */
  predicate InputsBound(p: Premise, bound: set<Var>) {
    p.Atom? ==>
      && (p.pred.IsFilter() ==> TermsVars(p.args) <= bound)
      && (p.pred.MatchField? && |p.args| == 3 ==> TermVars(p.args[0]) <= bound)
      && (p.pred.ListMember? && |p.args| == 2 ==> TermVars(p.args[1]) <= bound)
  }

  ghost predicate AllInputs(ordered: seq<Premise>) {
    forall i :: 0 <= i < |ordered| ==> InputsBound(ordered[i], BindAll(ordered[..i], {}))
  }

  /** The variables inside compound arguments of a positive atom are bound at its place,
      or bound by the atom itself. */
  predicate CompoundReady(p: Premise, bound: set<Var>) {
    p.Atom? ==>
      && (p.pred.IsRelation() ==> TermsVars(p.args) <= bound + DirectVars(p.args))
      && (p.pred.MatchField? && |p.args| == 3 ==> p.args[2].VarTerm? || TermVars(p.args[2]) <= bound)
      && (p.pred.ListMember? && |p.args| == 2 ==> p.args[0].VarTerm? || TermVars(p.args[0]) <= bound)
  }

  predicate AllCompoundReady(ps: seq<Premise>, bound: set<Var>)
    decreases |ps|
  {
    ps != [] ==> CompoundReady(ps[0], bound) && AllCompoundReady(ps[1..], BoundAfter(ps[0], bound))
  }

  lemma {:induction false} AppendInputs(s: State, p: Premise)
    requires AllInputs(s.ordered) && s.bound == BindAll(s.ordered, {}) && InputsBound(p, s.bound)
    ensures AllInputs(Append(s, p).ordered)
    ensures Append(s, p).bound == BindAll(Append(s, p).ordered, {})
  {
    var t := Append(s, p);
    BindAllConcat(s.ordered, [p], {});
    assert [p][1..] == [];
    assert BindAll([p], s.bound) == BindAll([], s.bound + Binds(p));
    forall i | 0 <= i < |t.ordered| ensures InputsBound(t.ordered[i], BindAll(t.ordered[..i], {})) {
      if i < |s.ordered| { assert t.ordered[..i] == s.ordered[..i]; } else { assert t.ordered[..i] == s.ordered; }
    }
  }

  lemma {:induction false} SweepInputs(waiting: seq<Premise>, s: State)
    requires AllInputs(s.ordered) && s.bound == BindAll(s.ordered, {}) &&
             forall w :: w in waiting || w in s.waiting ==> !w.Atom?
    ensures var t := Sweep(waiting, s);
            AllInputs(t.ordered) && t.bound == BindAll(t.ordered, {}) && s.bound <= t.bound &&
            forall w :: w in t.waiting ==> !w.Atom?
    decreases |waiting|
  {
    if waiting != [] {
      if PremiseReady(waiting[0], s.bound) {
        AppendInputs(s, waiting[0]);
        SweepInputs(waiting[1..], Append(s, waiting[0]));
      } else {
        SweepInputs(waiting[1..], s.(waiting := s.waiting + [waiting[0]]));
      }
    }
  }

  lemma {:induction false} SettleInputs(s: State)
    requires AllInputs(s.ordered) && s.bound == BindAll(s.ordered, {}) && forall w :: w in s.waiting ==> !w.Atom?
    ensures var t := Settle(s);
            AllInputs(t.ordered) && t.bound == BindAll(t.ordered, {}) && s.bound <= t.bound &&
            forall w :: w in t.waiting ==> !w.Atom?
    decreases |s.waiting|
  {
    var t := Sweep(s.waiting, s.(waiting := []));
    SweepInputs(s.waiting, s.(waiting := []));
    if |t.waiting| != |s.waiting| { SettleInputs(t); }
  }

  /** Premise by premise, whatever the check has bound the planner has bound too. */
  ghost predicate Simulates(s: Progress, t: State) {
    && s.bound <= t.bound && t.bound == BindAll(t.ordered, {})
    && AllInputs(t.ordered) && forall w :: w in t.waiting ==> !w.Atom?
  }

  /** The check binds no more than the planner does when it places the premise. */
  lemma {:induction false} ScanBinds(p: Premise, s: Progress, b: set<Var>)
    requires s.bound <= b && ScanPremise(p, s).Ok?
    ensures ScanPremise(p, s).value.bound <= b + Binds(p)
    ensures !PremiseReady(p, b) ==> ScanPremise(p, s).value.bound <= b
  {
    if p.Atom? && |p.args| == 3 {
      assert p.args[1..][1..] == [p.args[2]];
      assert TermVars(p.args[2]) <= TermsVars(p.args[1..][1..]) <= TermsVars(p.args[1..]) <= TermsVars(p.args);
    }
  }

  lemma {:induction false} SimulateStep(p: Premise, s: Progress, t: State)
    requires Simulates(s, t) && ScanPremise(p, s).Ok?
    ensures Simulates(ScanPremise(p, s).value, Step(p, t))
  {
    ScanBinds(p, s, t.bound);
    if !(Delayable(p) && !PremiseReady(p, t.bound)) {
      assert InputsBound(p, t.bound);
      AppendInputs(t, p);
      SettleInputs(Append(t, p));
    }
  }

  lemma {:induction false} Simulate(ps: seq<Premise>, s: Progress, t: State)
    requires Simulates(s, t) && ScanAll(ps, s).Ok?
    ensures Simulates(ScanAll(ps, s).value, Reorder(ps, t))
    decreases |ps|
  {
    if ps != [] {
      SimulateStep(ps[0], s, t);
      Simulate(ps[1..], ScanPremise(ps[0], s).value, Step(ps[0], t));
    }
  }

  /** Each pending entry stands for an equality among the premises. */
  ghost predicate PendingFrom(s: Progress, ps: seq<Premise>) {
    && (forall e :: e in s.eqs ==> Equal(VarTerm(e.0), VarTerm(e.1)) in ps)
    && (forall d :: d in s.binds ==>
          exists p ::
          p in ps && p.Equal? &&
          ((p.l == VarTerm(d.0) && d.1 == TermVars(p.r)) || (p.r == VarTerm(d.0) && d.1 == TermVars(p.l))))
  }

  lemma {:induction false} ScanCollects(ps: seq<Premise>, s: Progress, all: seq<Premise>)
    requires ScanAll(ps, s).Ok? && PendingFrom(s, all) && forall p :: p in ps ==> p in all
    ensures PendingFrom(ScanAll(ps, s).value, all)
    ensures s.seen <= ScanAll(ps, s).value.seen
    ensures forall p :: p in ps ==> PremiseVars(p) <= ScanAll(ps, s).value.seen
    decreases |ps|
  {
    if ps != [] {
      assert ps[0] in ps && ps[0] in all;
      var t := ScanPremise(ps[0], s).value;
      assert PendingFrom(t, all);
      ScanCollects(ps[1..], t, all);
      forall p | p in ps ensures PremiseVars(p) <= ScanAll(ps, s).value.seen {
        if p == ps[0] { assert PremiseVars(p) <= t.seen; } else { assert p in ps[1..]; }
      }
    }
  }

  /** A set closed under the premises is closed under the pending equalities. */
  lemma {:induction false} ClosedPending(b: set<Var>, s: Progress, ps: seq<Premise>)
    requires Closed(b, ps) && PendingFrom(s, ps)
    ensures PendingClosed(b, s)
  {
    forall e | e in s.eqs ensures e.0 in b <==> e.1 in b {
      var p := Equal(VarTerm(e.0), VarTerm(e.1));
      assert p in ps;
      if e.0 in b || e.1 in b { assert PremiseReady(p, b); }
    }
    forall d | d in s.binds && d.1 <= b ensures d.0 in b {
      var p :| p in ps && p.Equal? &&
      ((p.l == VarTerm(d.0) && d.1 == TermVars(p.r)) || (p.r == VarTerm(d.0) && d.1 == TermVars(p.l)));
      assert PremiseReady(p, b);
    }
  }

  /** An accepted rule leaves nothing waiting: every variable ends up bound. */
  lemma {:induction false} AcceptedPlacesAll(r: Rule)
    requires Accepts(r)
    ensures Final(r.premises).waiting == []
    ensures PremisesVars(r.premises) + TermsVars(r.head.args) <= Final(r.premises).bound
    ensures AllInputs(Final(r.premises).ordered)
  {
    var ps := r.premises;
    var s := ScanAll(ps, Start(r.head)).value;
    var t := Final(ps);
    assert BindAll([], {}) == {};
    Simulate(ps, Start(r.head), State([], {}, []));
    ScanCollects(ps, Start(r.head), ps);
    FinalBoundLeast(ps);
    ClosedPending(t.bound, s, ps);
    assert s.seen <= t.bound;
    PremisesVarsBelow(ps, t.bound);
    FinalSound(ps);
    if t.waiting != [] {
      var w := t.waiting[0];
      assert w in t.waiting && w in multiset(t.waiting) && w in multiset(ps);
      assert w in ps && PremiseVars(w) <= t.bound;
      assert PremiseReady(w, t.bound);
      assert false;
    }
  }

  lemma {:induction false} PremisesVarsBelow(ps: seq<Premise>, b: set<Var>)
    requires forall p :: p in ps ==> PremiseVars(p) <= b
    ensures PremisesVars(ps) <= b
    decreases |ps|
  {
    if ps != [] { PremisesVarsBelow(ps[1..], b); }
  }

  /** At its place a premise is ready for the plan exactly when its compound arguments are. */
  lemma {:induction false} ReadyAtPlace(p: Premise, bound: set<Var>)
    requires PremiseReady(p, bound) && InputsBound(p, bound)
    ensures Ready(p, bound) <==> CompoundReady(p, bound)
    ensures Ready(p, bound) ==> BoundAfter(p, bound) == bound + Binds(p)
  {
    if p.Atom? && p.pred.IsRelation() { DirectSubset(p.args); }
  }

  lemma {:induction false} PlacedSuffix(ordered: seq<Premise>, i: nat, h: Head)
    requires i <= |ordered| && PlacedReady(ordered) && AllInputs(ordered) && TermsVars(h.args) <= BindAll(ordered, {})
    ensures WellPlaced(ordered[i..], BindAll(ordered[..i], {}), h) <==>
            AllCompoundReady(ordered[i..], BindAll(ordered[..i], {}))
    decreases |ordered| - i
  {
    if i == |ordered| {
      assert ordered[..i] == ordered && ordered[i..] == [];
    } else {
      var p, b := ordered[i], BindAll(ordered[..i], {});
      assert ordered[i..][0] == p && ordered[i..][1..] == ordered[i + 1..];
      assert ordered[..i + 1] == ordered[..i] + [p];
      BindAllConcat(ordered[..i], [p], {});
      assert [p][1..] == [];
      assert BindAll([p], b) == BindAll([], b + Binds(p));
      ReadyAtPlace(p, b);
      PlacedSuffix(ordered, i + 1, h);
    }
  }

  /** For an accepted rule, the planned order binds every variable before the plan reads it,
      exactly when this holds for the variables inside compound arguments of positive atoms. */
  lemma {:induction false} AcceptedIsPlaced(r: Rule)
    requires Accepts(r)
    ensures WellPlaced(Delayed(r.premises), {}, r.head) <==> AllCompoundReady(Delayed(r.premises), {})
  {
    AcceptedPlacesAll(r);
    FinalSound(r.premises);
    var s := Final(r.premises);
    assert s.ordered + [] == s.ordered == Delayed(r.premises);
    assert s.ordered[..0] == [] && s.ordered[0..] == s.ordered;
    PlacedSuffix(s.ordered, 0, r.head);
  }

  /** Positive atoms whose arguments are variables or constants always qualify. */
  lemma {:induction false} SimpleAtomsReady(ps: seq<Premise>, bound: set<Var>)
    requires forall p, t :: p in ps && p.Atom? && t in p.args ==> IsSimple(t)
    ensures AllCompoundReady(ps, bound)
    decreases |ps|
  {
    if ps != [] {
      var p := ps[0];
      assert p in ps;
      if p.Atom? {
        SimpleArgs(p.args);
        forall i | 0 <= i < |p.args| ensures IsSimple(p.args[i]) { assert p.args[i] in p.args; }
      }
      SimpleAtomsReady(ps[1..], BoundAfter(p, bound));
    }
  }

  lemma {:induction false} SimpleArgs(args: seq<Term>)
    requires forall t :: t in args ==> IsSimple(t)
    ensures TermsVars(args) == DirectVars(args)
    decreases |args|
  {
    if args != [] {
      assert args[0] in args;
      SimpleArgs(args[1..]);
    }
  }
}
