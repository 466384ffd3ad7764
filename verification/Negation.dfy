/** When a negated premise holds exactly where the positive one does not. */
module Negation {
  import opened Datalog
  import opened Interp

  ghost predicate Complementary(p: Pred, args: seq<Term>, vs: Tuple, m: Machine) {
    FailsOf(p, vs, m) <==> !HoldsOf(p, args, vs, m.full(p), m)
  }

  predicate Sized(p: Pred, vs: Tuple) {
    match p
    case Compare(_, _) => |vs| == 2
    case Check(_) => |vs| == 2
    case MatchField => |vs| == 3
    case ListMember => |vs| == 2
    case _ => true
  }

  /** Except for the field test, only a test that fails decides neither way. */
  lemma {:induction false} NegationExactIff(p: Pred, args: seq<Term>, vs: Tuple, m: Machine)
    requires Sized(p, vs) && !p.MatchField?
    ensures Complementary(p, args, vs, m) <==> (p.Check? ==> m.test(p.test, vs[0], vs[1]).Ok?)
  {
    match p
    case Check(t) => assert m.test(t, vs[0], vs[1]).Ok? ==> m.test(t, vs[0], vs[1]).value in {true, false};
    case _ =>
  }

  /** All pairs with this name have the same value. */
  ghost predicate OneValue(pairs: seq<Value>, field: string) {
    forall x, y :: AnyField(pairs, field, x) && AnyField(pairs, field, y) ==> x == y
  }

  lemma {:induction false} FindFieldMeans(pairs: seq<Value>, field: string)
    ensures FindField(pairs, field).Some? ==> AnyField(pairs, field, FindField(pairs, field).value)
    ensures FindField(pairs, field).None? ==> forall x :: !AnyField(pairs, field, x)
    decreases |pairs|
  {
    if |pairs| >= 2 && pairs[0] != Name(field) { FindFieldMeans(pairs[2..], field); }
  }

  /** The positive field test reads the first pair with the name and the negated one any pair:
      they are complementary for every value if and only if the pairs with that name agree. */
  lemma {:induction false} FieldNegationIff(v: Value, field: Value, args: seq<Term>, m: Machine)
    ensures (forall x :: Complementary(MatchField, args, [v, field, x], m)) <==>
            (v.Compound? && v.kind == StructKind && field.Name? ==> OneValue(v.elems, field.name))
  {
    if v.Compound? && v.kind == StructKind && field.Name? {
      var pairs, f := v.elems, field.name;
      FindFieldMeans(pairs, f);
      forall x
        ensures Complementary(MatchField, args, [v, field, x], m) <==>
                (AnyField(pairs, f, x) <==> FindField(pairs, f) == Some(x))
      {
        assert [v, field, x][0] == v && [v, field, x][1] == field && [v, field, x][2] == x;
      }
      if forall x :: Complementary(MatchField, args, [v, field, x], m) {
        forall x, y | AnyField(pairs, f, x) && AnyField(pairs, f, y) ensures x == y {
          assert Complementary(MatchField, args, [v, field, x], m) && Complementary(MatchField, args, [v, field, y], m);
        }
      }
    } else {
      forall x ensures Complementary(MatchField, args, [v, field, x], m) {
        assert [v, field, x][0] == v && [v, field, x][1] == field;
      }
    }
  }

  /** With a name twice and two values, the second value passes neither test. */
  lemma {:induction false} SecondValueUndecided(f: string, x: Value, y: Value, args: seq<Term>, m: Machine)
    requires x != y
    ensures var vs := [Compound(StructKind, [Name(f), x, Name(f), y]), Name(f), y];
            !HoldsOf(MatchField, args, vs, m.full(MatchField), m) && !FailsOf(MatchField, vs, m)
  {
    var pairs := [Name(f), x, Name(f), y];
    assert pairs[2..] == [Name(f), y];
    assert AnyField(pairs[2..], f, y);
  }
}
