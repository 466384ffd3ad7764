/** What the written forms mean, end to end: which rows the interpreter inserts for each
    built-in predicate, comparison, constant, literal and call, in terms of the machine alone. */
module Surface {
  import opened Datalog
  import opened Interp
  import opened Planner
  import opened Bindings
  import Delay
  import Lowering
  import opened RuleTheorem
  import opened Scope
  import opened ScopeTheorem

  /** The interpreter, running the plan of the rule, inserts the fact. */
  ghost predicate Inserted(r: Rule, f: Fact, m: Machine) {
    var plan := PlanOf(r, Config(None, false));
    plan.Ok? && Exec(plan.value, map[], m).Ok? && f in Exec(plan.value, map[], m).value.facts
  }

  /** The names of the examples: relations `p` and `q` and two variables. */
  datatype Names = Names(p: Pred, q: Pred, x: Var, y: Var) {
    predicate Valid() {
      p.Rel? && q.Rel? && x.User? && y.User? && x != y
    }

    function X(): Term { VarTerm(x) }

    function Y(): Term { VarTerm(y) }

    /** `p(X, Y) :- q(X, Y), form.` */
    function Both(form: Premise): Rule {
      Rule(Head(p, [X(), Y()]), [Atom(q, [X(), Y()]), form])
    }

    /** `p(X, Y) :- q(X), form.` */
    function Second(form: Premise): Rule {
      Rule(Head(p, [X(), Y()]), [Atom(q, [X()]), form])
    }
  }

  // ----- Rules with two variables -----

  lemma {:induction false} VarsOf(n: Names)
    ensures TermsVars([n.X()]) == {n.x} && TermsVars([n.X(), n.Y()]) == {n.x, n.y} &&
            TermsVars([n.Y(), n.X()]) == {n.x, n.y}
  {
    assert [n.X()][1..] == [] && [n.Y()][1..] == [] && [n.X(), n.Y()][1..] == [n.Y()] && [n.Y(), n.X()][1..] == [n.X()];
    assert TermsVars([n.Y()]) == {n.y};
  }

  lemma {:induction false} EvalPair(s: Term, t: Term, e: Env, m: Machine)
    ensures EvalTerms([s, t], e, m) ==
            if EvalTerm(s, e, m).Ok? && EvalTerm(t, e, m).Ok? then
            Ok([EvalTerm(s, e, m).value, EvalTerm(t, e, m).value])
            else Err
    ensures EvalTerms([s], e, m) == if EvalTerm(s, e, m).Ok? then Ok([EvalTerm(s, e, m).value]) else Err
  {
    assert [s, t][1..] == [t];
    Lowering.EvalTermsOne(s, e, m);
    Lowering.EvalTermsOne(t, e, m);
    if EvalTerm(s, e, m).Ok? && EvalTerm(t, e, m).Ok? {
      assert [EvalTerm(s, e, m).value] + [EvalTerm(t, e, m).value] ==
             [EvalTerm(s, e, m).value, EvalTerm(t, e, m).value];
    }
  }

  lemma {:induction false} SupportedPair(s: Term, t: Term)
    ensures AllSupported([s]) == Supported(s) && AllSupported([s, t]) == (Supported(s) && Supported(t))
  {
    assert [s][1..] == [] && [t][1..] == [] && [s, t][1..] == [t];
    assert AllSupported([]);
    assert AllSupported([t]) == Supported(t) && AllSupported([s]) == Supported(s);
  }

  /** A row is derived when the premises hold of its two values. */
  lemma {:induction false} PairDerived(n: Names, r: Rule, a: Value, b: Value, m: Machine)
    requires n.x != n.y && r.head == Head(n.p, [n.X(), n.Y()]) && PremisesVars(r.premises) <= {n.x, n.y}
    ensures Derives(r, Fact(n.p, [a, b]), m) <==> forall p :: p in r.premises ==> Holds(p, map[n.x := a, n.y := b], m)
  {
    var e: Env, f := map[n.x := a, n.y := b], Fact(n.p, [a, b]);
    EvalPair(n.X(), n.Y(), e, m);
    if Derives(r, f, m) {
      var sigma: Env :| Satisfies(sigma, r, f, m);
      EvalPair(n.X(), n.Y(), sigma, m);
      assert [a, b][0] == a && [a, b][1] == b;
      forall p | p in r.premises ensures Holds(p, e, m) {
        PremiseVarsIn(r.premises, p);
        HoldsInAgree(p, sigma, e, if p.Atom? then m.full(p.pred) else [], m);
      }
    }
    if forall p :: p in r.premises ==> Holds(p, e, m) { assert Satisfies(e, r, f, m); }
  }

  /** The rule is analysed, planned and run. */
  lemma {:induction false} PairInserted(n: Names, r: Rule, a: Value, b: Value, m: Machine)
    requires n.Valid() && m.Total() && m.IndexSound()
    requires r.head == Head(n.p, [n.X(), n.Y()]) && PremisesVars(r.premises) <= {n.x, n.y} && WellBound(r)
    requires forall p :: p in r.premises ==> WellFormed(p)
    requires forall p, t :: p in r.premises && p.Atom? && t in p.args ==> IsSimple(t)
    ensures Inserted(r, Fact(n.p, [a, b]), m) <==>
            forall p :: p in r.premises ==> Holds(p, map[n.x := a, n.y := b], m)
  {
    var cfg := Config(None, false);
    VarsOf(n);
    AcceptsIff(r);
    hide WellBound, WellFormed;
    SimpleRuleSafe(r);
    NoJoinsWhenOff(Delay.Delayed(r.premises), {}, cfg);
    SupportedPair(n.X(), n.Y());
    SafeRulePlanned(r, cfg);
    InterpreterExact(r, false, m);
    PairDerived(n, r, a, b, m);
  }

  lemma {:induction false} TwoPremises(p: Premise, q: Premise)
    ensures PremisesVars([p, q]) == PremiseVars(p) + PremiseVars(q)
  {
    assert [p, q][1..] == [q] && [q][1..] == [];
    assert PremisesVars([q]) == PremiseVars(q);
  }

  /** After `q(X, Y)` any test of the two variables is well bound. */
  lemma {:induction false} BothInserted(n: Names, form: Premise, a: Value, b: Value, m: Machine)
    requires n.Valid() && m.Total() && m.IndexSound() && PremiseVars(form) <= {n.x, n.y} && WellFormed(form)
    requires form.Atom? ==> forall t :: t in form.args ==> IsSimple(t)
    ensures Inserted(n.Both(form), Fact(n.p, [a, b]), m) <==>
            [a, b] in m.full(n.q) && Holds(form, map[n.x := a, n.y := b], m)
  {
    var r, e: Env := n.Both(form), map[n.x := a, n.y := b];
    var ps := r.premises;
    VarsOf(n);
    TwoPremises(ps[0], form);
    SupportedPair(n.X(), n.Y());
    assert WellFormed(ps[0]);
    BothBound(n, form);
    EvalPair(n.X(), n.Y(), e, m);
    hide WellBound, WellFormed, Holds;
    assert forall p :: p in ps <==> p == ps[0] || p == form;
    assert Holds(ps[0], e, m) <==> [a, b] in m.full(n.q) by { RowHolds(n, a, b, m); }
    PairInserted(n, r, a, b, m);
  }

  lemma {:induction false} RowHolds(n: Names, a: Value, b: Value, m: Machine)
    requires n.Valid()
    ensures Holds(Atom(n.q, [n.X(), n.Y()]), map[n.x := a, n.y := b], m) <==> [a, b] in m.full(n.q)
    ensures Holds(Atom(n.q, [n.X()]), map[n.x := a, n.y := b], m) <==> [a] in m.full(n.q)
  {
    EvalPair(n.X(), n.Y(), map[n.x := a, n.y := b], m);
  }

  lemma {:induction false} BothBound(n: Names, form: Premise)
    requires n.Valid() && PremiseVars(form) <= {n.x, n.y}
    ensures WellBound(n.Both(form))
  {
    var r := n.Both(form);
    var ps := r.premises;
    VarsOf(n);
    TwoPremises(ps[0], form);
    forall v | v in {n.x, n.y} ensures BoundBefore(ps, 1, v) { assert GivenAt(ps, 0, v); }
    forall i, v | 0 <= i < |ps| && v in InputsOf(ps[i]) ensures BoundBefore(ps, i, v) { InputsAmong(form, v); }
    forall b: set<Var> | ClosedUnderPremises(b, ps) ensures {n.x, n.y} <= b {
      assert ps[0] in ps && AtomGives(ps[0], n.x) && AtomGives(ps[0], n.y);
    }
  }

  lemma {:induction false} InputsAmong(p: Premise, v: Var)
    ensures v in InputsOf(p) ==> v in PremiseVars(p)
  {
    if p.Atom? && |p.args| == 3 {
      assert p.args[1..][0] == p.args[1];
      assert TermVars(p.args[1]) <= TermsVars(p.args[1..]) <= TermsVars(p.args);
    }
    if p.Atom? && |p.args| == 2 {
      assert p.args[1..][0] == p.args[1];
      assert TermVars(p.args[1]) <= TermsVars(p.args[1..]) <= TermsVars(p.args);
    }
  }

  /** After `q(X)`, a premise that reads `X` and gives `Y` is well bound. */
  lemma {:induction false} SecondInserted(n: Names, form: Premise, a: Value, b: Value, m: Machine)
    requires n.Valid() && m.Total() && m.IndexSound() && PremiseVars(form) <= {n.x, n.y} && WellFormed(form)
    requires form.Atom? ==> forall t :: t in form.args ==> IsSimple(t)
    requires InputsOf(form) <= {n.x} &&
             (AtomGives(form, n.y) || (form.Equal? && form.l == n.Y() && TermVars(form.r) <= {n.x}))
    ensures Inserted(n.Second(form), Fact(n.p, [a, b]), m) <==>
            [a] in m.full(n.q) && Holds(form, map[n.x := a, n.y := b], m)
  {
    var r, e: Env := n.Second(form), map[n.x := a, n.y := b];
    var ps := r.premises;
    VarsOf(n);
    TwoPremises(ps[0], form);
    SupportedPair(n.X(), n.Y());
    assert WellFormed(ps[0]);
    SecondBound(n, form);
    hide WellBound, WellFormed, Holds;
    assert forall p :: p in ps <==> p == ps[0] || p == form;
    assert Holds(ps[0], e, m) <==> [a] in m.full(n.q) by { RowHolds(n, a, b, m); }
    PairInserted(n, r, a, b, m);
  }

  lemma {:induction false} SecondBound(n: Names, form: Premise)
    requires n.Valid() && PremiseVars(form) <= {n.x, n.y} && InputsOf(form) <= {n.x}
    requires AtomGives(form, n.y) || (form.Equal? && form.l == n.Y() && TermVars(form.r) <= {n.x})
    ensures WellBound(n.Second(form))
  {
    var r := n.Second(form);
    var ps := r.premises;
    VarsOf(n);
    TwoPremises(ps[0], form);
    assert BoundBefore(ps, 1, n.x) by { assert GivenAt(ps, 0, n.x); }
    forall b: set<Var> | ClosedUnderPremises(b, ps) ensures {n.x, n.y} <= b {
      assert ps[0] in ps && AtomGives(ps[0], n.x) && ps[1] in ps;
    }
  }

  // ----- Comparisons -----

  /** `:lt`, `:le`, `:gt` and `:ge`, and their negations. */
  lemma {:induction false} OrderMeans(n: Names, d: Domain, o: Order, a: Value, b: Value, m: Machine)
    requires n.Valid() && m.Total() && m.IndexSound()
    ensures Inserted(n.Both(Atom(Compare(d, o), [n.X(), n.Y()])), Fact(n.p, [a, b]), m) <==>
            [a, b] in m.full(n.q) &&
            (match o
             case OLt => m.cmp(a, b) == Less
             case OLe => m.cmp(a, b) == Less || m.cmp(a, b) == Same
             case OGt => m.cmp(a, b) == Greater
             case OGe => m.cmp(a, b) == Greater || m.cmp(a, b) == Same)
    ensures Inserted(n.Both(NegAtom(Compare(d, o), [n.X(), n.Y()])), Fact(n.p, [a, b]), m) <==>
            [a, b] in m.full(n.q) &&
            (match o
             case OLt => m.cmp(a, b) == Greater || m.cmp(a, b) == Same
             case OLe => m.cmp(a, b) == Greater
             case OGt => m.cmp(a, b) == Less || m.cmp(a, b) == Same
             case OGe => m.cmp(a, b) == Less)
  {
    FormsReady(n, a, b, m);
    BothInserted(n, Atom(Compare(d, o), [n.X(), n.Y()]), a, b, m);
    BothInserted(n, NegAtom(Compare(d, o), [n.X(), n.Y()]), a, b, m);
  }

  /** What the forms over the two variables need to be planned, and their values. */
  lemma {:induction false} FormsReady(n: Names, a: Value, b: Value, m: Machine)
    ensures TermsVars([n.X(), n.Y()]) == {n.x, n.y} && AllSupported([n.X(), n.Y()]) && AllSupported([n.Y(), n.X()])
    ensures n.x != n.y ==> EvalTerms([n.X(), n.Y()], map[n.x := a, n.y := b], m) == Ok([a, b])
    ensures n.x != n.y ==> EvalTerms([n.Y(), n.X()], map[n.x := a, n.y := b], m) == Ok([b, a])
  {
    VarsOf(n);
    SupportedPair(n.X(), n.Y());
    SupportedPair(n.Y(), n.X());
    EvalPair(n.X(), n.Y(), map[n.x := a, n.y := b], m);
    EvalPair(n.Y(), n.X(), map[n.x := a, n.y := b], m);
  }

  lemma {:induction false} EqualityMeans(n: Names, a: Value, b: Value, m: Machine)
    requires n.Valid() && m.Total() && m.IndexSound()
    ensures Inserted(n.Both(Equal(n.X(), n.Y())), Fact(n.p, [a, b]), m) <==> [a, b] in m.full(n.q) && a == b
    ensures Inserted(n.Both(Inequal(n.X(), n.Y())), Fact(n.p, [a, b]), m) <==> [a, b] in m.full(n.q) && a != b
  {
    FormsReady(n, a, b, m);
    BothInserted(n, Equal(n.X(), n.Y()), a, b, m);
    BothInserted(n, Inequal(n.X(), n.Y()), a, b, m);
  }

  lemma {:induction false} CheckMeans(n: Names, t: Test, a: Value, b: Value, m: Machine)
    requires n.Valid() && m.Total() && m.IndexSound()
    ensures Inserted(n.Both(Atom(Check(t), [n.X(), n.Y()])), Fact(n.p, [a, b]), m) <==>
            [a, b] in m.full(n.q) && m.test(t, a, b) == Ok(true)
    ensures Inserted(n.Both(NegAtom(Check(t), [n.X(), n.Y()])), Fact(n.p, [a, b]), m) <==>
            [a, b] in m.full(n.q) && m.test(t, a, b) == Ok(false)
  {
    FormsReady(n, a, b, m);
    BothInserted(n, Atom(Check(t), [n.X(), n.Y()]), a, b, m);
    BothInserted(n, NegAtom(Check(t), [n.X(), n.Y()]), a, b, m);
  }

  lemma {:induction false} RelationMeans(n: Names, s: string, a: Value, b: Value, m: Machine)
    requires n.Valid() && m.Total() && m.IndexSound()
    ensures Inserted(n.Both(Atom(Rel(s), [n.Y(), n.X()])), Fact(n.p, [a, b]), m) <==>
            [a, b] in m.full(n.q) && [b, a] in m.full(Rel(s))
    ensures Inserted(n.Both(NegAtom(Rel(s), [n.Y(), n.X()])), Fact(n.p, [a, b]), m) <==>
            [a, b] in m.full(n.q) && [b, a] !in m.full(Rel(s))
  {
    FormsReady(n, a, b, m);
    VarsOf(n);
    BothInserted(n, Atom(Rel(s), [n.Y(), n.X()]), a, b, m);
    BothInserted(n, NegAtom(Rel(s), [n.Y(), n.X()]), a, b, m);
  }

  // ----- Fields and lists -----

  /** Position `i` of interleaved names and values has the field with the value. */
  predicate FieldAt(es: seq<Value>, i: nat, field: string, v: Value) {
    2 * i + 1 < |es| && es[2 * i] == Name(field) && es[2 * i + 1] == v
  }

  /** The value is that of the first position with the name. */
  ghost predicate FirstField(es: seq<Value>, field: string, v: Value) {
    exists i: nat :: FieldAt(es, i, field, v) && forall j: nat, w :: j < i ==> !FieldAt(es, j, field, w)
  }

  ghost predicate SomeField(es: seq<Value>, field: string, v: Value) {
    exists i: nat :: FieldAt(es, i, field, v)
  }

  lemma {:induction false} FieldShift(es: seq<Value>, i: nat, field: string, v: Value)
    requires |es| >= 2
    ensures FieldAt(es, i + 1, field, v) <==> FieldAt(es[2..], i, field, v)
  {
  }

  lemma {:induction false} SomeFieldMeans(es: seq<Value>, field: string, v: Value)
    ensures AnyField(es, field, v) <==> SomeField(es, field, v)
    decreases |es|
  {
    if |es| >= 2 {
      var rest := es[2..];
      SomeFieldMeans(rest, field, v);
      if SomeField(es, field, v) {
        var i: nat :| FieldAt(es, i, field, v);
        if i > 0 { FieldShift(es, i - 1, field, v); }
      }
      if SomeField(rest, field, v) {
        var i: nat :| FieldAt(rest, i, field, v);
        FieldShift(es, i, field, v);
      }
      if FieldAt(es, 0, field, v) { assert SomeField(es, field, v); }
    }
  }

  lemma {:induction false} FirstFieldMeans(es: seq<Value>, field: string, v: Value)
    ensures FindField(es, field) == Some(v) <==> FirstField(es, field, v)
    decreases |es|
  {
    if |es| >= 2 {
      if es[0] == Name(field) {
        assert FieldAt(es, 0, field, es[1]);
        if es[1] == v { assert FirstField(es, field, v); }
      } else {
        FirstFieldMeans(es[2..], field, v);
        FirstShift(es, field, v);
      }
    }
  }

  lemma {:induction false} FirstShift(es: seq<Value>, field: string, v: Value)
    requires |es| >= 2 && es[0] != Name(field)
    ensures FirstField(es, field, v) <==> FirstField(es[2..], field, v)
  {
    var rest := es[2..];
    forall i: nat, w
      ensures FieldAt(es, i + 1, field, w) <==> FieldAt(rest, i, field, w) { FieldShift(es, i, field, w); }
    if FirstField(es, field, v) {
      var i: nat :| FieldAt(es, i, field, v) && forall j: nat, w :: j < i ==> !FieldAt(es, j, field, w);
      assert i > 0;
      FieldShift(es, i - 1, field, v);
      forall j: nat, w | j < i - 1 ensures !FieldAt(rest, j, field, w) { FieldShift(es, j, field, w); }
      assert FirstField(rest, field, v);
    }
    if FirstField(rest, field, v) {
      var i: nat :| FieldAt(rest, i, field, v) && forall j: nat, w :: j < i ==> !FieldAt(rest, j, field, w);
      forall j: nat, w | j < i + 1 ensures !FieldAt(es, j, field, w) {
        if j > 0 { FieldShift(es, j - 1, field, w); }
      }
      assert FieldAt(es, i + 1, field, v);
    }
  }

  /** `:match_field` gives the value of the first field of the name; its negation holds when no
      field of the name has the value. */
  lemma {:induction false} FieldMeans(n: Names, field: string, a: Value, b: Value, m: Machine)
    requires n.Valid() && m.Total() && m.IndexSound()
    ensures Inserted(n.Second(Atom(MatchField, [n.X(), ConstTerm(CName(field)), n.Y()])), Fact(n.p, [a, b]), m) <==>
            [a] in m.full(n.q) && a.Compound? && a.kind == StructKind && FirstField(a.elems, field, b)
    ensures Inserted(n.Both(NegAtom(MatchField, [n.X(), ConstTerm(CName(field)), n.Y()])), Fact(n.p, [a, b]), m) <==>
            [a, b] in m.full(n.q) && !(a.Compound? && a.kind == StructKind && SomeField(a.elems, field, b))
  {
    var ts, e: Env := [n.X(), ConstTerm(CName(field)), n.Y()], map[n.x := a, n.y := b];
    TripleReady(n, field, a, b, m);
    SecondInserted(n, Atom(MatchField, ts), a, b, m);
    BothInserted(n, NegAtom(MatchField, ts), a, b, m);
    if a.Compound? {
      FirstFieldMeans(a.elems, field, b);
      SomeFieldMeans(a.elems, field, b);
    }
  }

  lemma {:induction false} TripleReady(n: Names, field: string, a: Value, b: Value, m: Machine)
    ensures var ts := [n.X(), ConstTerm(CName(field)), n.Y()];
            && TermsVars(ts) == {n.x, n.y} && AllSupported(ts)
            && (n.x != n.y ==> EvalTerms(ts, map[n.x := a, n.y := b], m) == Ok([a, Name(field), b]))
  {
    var c, e: Env := ConstTerm(CName(field)), map[n.x := a, n.y := b];
    var ts := [n.X(), c, n.Y()];
    assert ts[1..] == [c, n.Y()] && [c, n.Y()][1..] == [n.Y()] && [n.Y()][1..] == [];
    assert TermsVars([]) == {} && TermsVars([n.Y()]) == {n.y};
    assert TermsVars([c, n.Y()]) == TermVars(c) + TermsVars([n.Y()]) == {n.y};
    SupportedPair(c, n.Y());
    EvalPair(c, n.Y(), e, m);
    assert n.x != n.y ==> [a] + [Name(field), b] == [a, Name(field), b];
  }

  lemma {:induction false} MemberMeans(n: Names, a: Value, b: Value, m: Machine)
    requires n.Valid() && m.Total() && m.IndexSound()
    ensures Inserted(n.Second(Atom(ListMember, [n.Y(), n.X()])), Fact(n.p, [a, b]), m) <==>
            [a] in m.full(n.q) && a.Compound? && a.kind == ListKind && b in a.elems
    ensures Inserted(n.Both(NegAtom(ListMember, [n.Y(), n.X()])), Fact(n.p, [a, b]), m) <==>
            [a, b] in m.full(n.q) && !(a.Compound? && a.kind == ListKind && b in a.elems)
  {
    FormsReady(n, a, b, m);
    VarsOf(n);
    SecondInserted(n, Atom(ListMember, [n.Y(), n.X()]), a, b, m);
    BothInserted(n, NegAtom(ListMember, [n.Y(), n.X()]), a, b, m);
  }

  // ----- Constants, calls and literals -----

  lemma {:induction false} ConstantMeans(n: Names, c: Constant, a: Value, b: Value, m: Machine)
    requires n.Valid() && m.Total() && m.IndexSound()
    ensures Inserted(n.Second(Equal(n.Y(), ConstTerm(c))), Fact(n.p, [a, b]), m) <==>
            [a] in m.full(n.q) &&
            (match c
             case CNumber(k) => b == Number(k)
             case CFloat(bits) => b == Float(bits)
             case CString(s) => b == Str(s)
             case CName(s) => b == Name(s)
             case CTime(t) => b == Time(t)
             case CDuration(t) => b == Duration(t))
  {
    EvalPair(n.Y(), ConstTerm(c), map[n.x := a, n.y := b], m);
    SecondInserted(n, Equal(n.Y(), ConstTerm(c)), a, b, m);
  }

  /** A call or literal over `X` and a number: the function gets both, in that order. */
  lemma {:induction false} CallMeans(n: Names, f: string, kind: LiteralKind, k: int, a: Value, b: Value, m: Machine)
    requires n.Valid() && m.Total() && m.IndexSound()
    ensures Inserted(n.Second(Equal(n.Y(), Apply(f, [n.X(), ConstTerm(CNumber(k))]))), Fact(n.p, [a, b]), m) <==>
            [a] in m.full(n.q) && m.fn(f, [a, Number(k)]) == Ok(b)
    ensures Inserted(n.Second(Equal(n.Y(), Literal(kind, [n.X(), ConstTerm(CNumber(k))]))), Fact(n.p, [a, b]), m) <==>
            [a] in m.full(n.q) &&
            (match kind
             case ListLiteral => m.fn("fn:list", [a, Number(k)]) == Ok(b)
             case MapLiteral => m.fn("fn:map", [a, Number(k)]) == Ok(b)
             case StructLiteral => m.fn("fn:struct", [a, Number(k)]) == Ok(b))
  {
    var ts, e: Env := [n.X(), ConstTerm(CNumber(k))], map[n.x := a, n.y := b];
    assert TermsVars(ts) == {n.x} by {
      assert ts[1..] == [ts[1]] && [ts[1]][1..] == [] && TermsVars([]) == {};
      assert TermsVars([ts[1]]) == TermVars(ts[1]) + TermsVars([]) == {};
      assert TermsVars(ts) == TermVars(ts[0]) + TermsVars([ts[1]]);
    }
    SupportedPair(ts[0], ts[1]);
    EvalPair(ts[0], ts[1], e, m);
    EvalPair(n.Y(), Apply(f, ts), e, m);
    EvalPair(n.Y(), Literal(kind, ts), e, m);
    SecondInserted(n, Equal(n.Y(), Apply(f, ts)), a, b, m);
    SecondInserted(n, Equal(n.Y(), Literal(kind, ts)), a, b, m);
  }
}
