/** Which values a type has, said position by position. */
module TypeExtent {
  import opened Types

  // ----- Names -----

  /** The value is the name, or continues it with a slash. */
  ghost predicate AtOrBelow(v: Const, n: string) {
    v.NameC? && (v.name == n || exists rest: string :: v.name == n + "/" + rest)
  }

  lemma {:induction false} UnderMeans(a: string, n: string)
    ensures Under(a, n) <==> AtOrBelow(NameC(a), n)
  {
    if Under(a, n) && a != n {
      assert a == n + "/" + a[|n| + 1..];
    }
    if rest: string :| a == n + "/" + rest {
      assert a[|n|] == '/' && n <= a;
    }
  }

  /** The values of a name type, from the side of the name. */
  ghost predicate NameFits(n: string, v: Const) {
    || AtOrBelow(v, n)
    || match n
       case "/number" => v.NumberC?
       case "/float64" => v.FloatC?
       case "/string" => v.StringC?
       case "/bool" => v.BoolC?
       case "/time" => v.TimeC?
       case "/duration" => v.DurationC?
       case "/bytes" => v.BytesC?
       case "/name" => v.NameC?
       case "/any" => !v.ListC? && !v.MapC? && !v.PairC? && !v.TupleC? && !v.StructC?
       case _ => false
  }

  lemma {:induction false} NameExtent(n: string, v: Const)
    ensures HasType(NameT(n), v) <==> NameFits(n, v)
  {
    if v.NameC? { UnderMeans(v.name, n); }
  }

  // ----- Alternatives -----

  lemma {:induction false} UnionExtent(alts: seq<Type>, v: Const)
    ensures HasType(UnionT(alts), v) <==> exists t :: t in alts && HasType(t, v)
  {
    if HasType(UnionT(alts), v) {
      var i :| 0 <= i < |alts| && HasType(alts[i], v);
      assert alts[i] in alts;
    }
    if t :| t in alts && HasType(t, v) {
      var i :| 0 <= i < |alts| && alts[i] == t;
    }
  }

  lemma {:induction false} OptionExtent(a: Type, v: Const)
    ensures HasType(OptionT(a), v) <==> v == NameC("/unit") || HasType(a, v)
  {
  }

  // ----- Positions -----

  datatype Step =
    | Elem(i: nat)
    | KeyAt(i: nat)
    | ValAt(i: nat)
    | First
    | Second
    | Part(i: nat)
    | Named(n: string)

  /** The part of the value at the step; a list of two counts as a pair, and a pair as a tuple. */
  ghost function SubValue(v: Const, s: Step): Option<Const> {
    match s
    case Elem(i) => if v.ListC? && i < |v.elems| then Some(v.elems[i]) else None
    case KeyAt(i) => if v.MapC? && i < |v.entries| then Some(v.entries[i].key) else None
    case ValAt(i) => if v.MapC? && i < |v.entries| then Some(v.entries[i].val) else None
    case First =>
      if v.PairC? then Some(v.first) else if v.ListC? && |v.elems| == 2 then Some(v.elems[0]) else None
    case Second =>
      if v.PairC? then Some(v.second) else if v.ListC? && |v.elems| == 2 then Some(v.elems[1]) else None
    case Part(i) =>
      if v.TupleC? then (if i < |v.parts| then Some(v.parts[i]) else None)
      else if v.PairC? && i < 2 then Some(if i == 0 then v.first else v.second)
      else None
    case Named(n) =>
      if v.StructC? && LastMember(v.members, n) >= 0 then Some(v.members[LastMember(v.members, n)].val) else None
  }

  ghost function SubType(t: Type, s: Step): Option<Type> {
    match (t, s)
    case (ListT(e), Elem(_)) => Some(e)
    case (MapT(k, _), KeyAt(_)) => Some(k)
    case (MapT(_, x), ValAt(_)) => Some(x)
    case (PairT(a, _), First) => Some(a)
    case (PairT(_, b), Second) => Some(b)
    case (TupleT(ts), Part(i)) => if i < |ts| then Some(ts[i]) else None
    case (StructT(fs), Named(n)) => if LastField(fs, n) >= 0 then Some(fs[LastField(fs, n)].ty) else None
    case _ => None
  }

  datatype Option<T> = None | Some(value: T)

  ghost function ValueAt(v: Const, path: seq<Step>): Option<Const> {
    if path == [] then Some(v)
    else
      var w := SubValue(v, path[0]);
      if w.Some? then ValueAt(w.value, path[1..]) else None
  }

  ghost function TypeAt(t: Type, path: seq<Step>): Option<Type> {
    if path == [] then Some(t)
    else
      var u := SubType(t, path[0]);
      if u.Some? then TypeAt(u.value, path[1..]) else None
  }

  /** The value has the outer shape of the type. */
  ghost predicate Shaped(t: Type, v: Const) {
    match t
    case NameT(n) => NameFits(n, v)
    case SingletonT(c) => v == c && (v.NameC? || v.NumberC? || v.FloatC? || v.StringC? || v.BoolC?)
    case UnionT(_) => false
    case ListT(_) => v.ListC?
    case MapT(_, _) => v.MapC?
    case PairT(_, _) => v.PairC? || (v.ListC? && |v.elems| == 2)
    case TupleT(ts) => (v.TupleC? && |v.parts| == |ts|) || (v.PairC? && |ts| == 2)
    case OptionT(_) => false
    case StructT(fs) =>
      && v.StructC?
      && (forall f :: f in fs && !f.optional ==> exists m :: m in v.members && m.name == f.name)
      && (forall m :: m in v.members ==> exists f :: f in fs && f.name == m.name)
  }

  /** No alternatives anywhere, and fields named once. */
  predicate Definite(t: Type) {
    match t
    case NameT(_) => true
    case SingletonT(_) => true
    case UnionT(_) => false
    case ListT(e) => Definite(e)
    case MapT(k, x) => Definite(k) && Definite(x)
    case PairT(a, b) => Definite(a) && Definite(b)
    case TupleT(ts) => forall i :: 0 <= i < |ts| ==> Definite(ts[i])
    case OptionT(_) => false
    case StructT(fs) => DistinctFields(fs) && forall i :: 0 <= i < |fs| ==> Definite(fs[i].ty)
  }

  /** Wherever the type and the value both have a part, the part has the shape of its type. */
  ghost predicate ShapedThroughout(t: Type, v: Const) {
    forall path ::
    TypeAt(t, path).Some? && ValueAt(v, path).Some? ==> Shaped(TypeAt(t, path).value, ValueAt(v, path).value)
  }

  lemma {:induction false} MemberNamed(ms: seq<Member>, n: string)
    ensures LastMember(ms, n) >= 0 <==> exists m :: m in ms && m.name == n
  {
    var r := LastMember(ms, n);
    if r >= 0 { assert ms[r] in ms; }
    if m :| m in ms && m.name == n {
      var i :| 0 <= i < |ms| && ms[i] == m;
    }
  }

  lemma {:induction false} FieldNamed(fs: seq<Field>, n: string)
    ensures LastField(fs, n) >= 0 <==> exists f :: f in fs && f.name == n
  {
    var r := LastField(fs, n);
    if r >= 0 { assert fs[r] in fs; }
    if f :| f in fs && f.name == n {
      var i :| 0 <= i < |fs| && fs[i] == f;
    }
  }

  ghost predicate PartsTyped(t: Type, v: Const) {
    forall s :: SubType(t, s).Some? && SubValue(v, s).Some? ==> HasType(SubType(t, s).value, SubValue(v, s).value)
  }

  /** A value has a type when it has its outer shape and its parts have theirs. */
  lemma {:induction false} StepExtent(t: Type, v: Const)
    requires !t.UnionT? && !t.OptionT? && (t.StructT? ==> DistinctFields(t.fields))
    ensures HasType(t, v) <==> Shaped(t, v) && PartsTyped(t, v)
  {
    match t
    case NameT(n) => NameExtent(n, v);
    case StructT(fs) => StructExtent(fs, v);
    case _ =>
      if HasType(t, v) { TypeMakesParts(t, v); }
      if Shaped(t, v) && PartsTyped(t, v) { PartsMakeType(t, v); }
  }

  lemma {:induction false} TypeMakesParts(t: Type, v: Const)
    requires !t.UnionT? && !t.OptionT? && !t.NameT? && !t.StructT? && HasType(t, v)
    ensures Shaped(t, v) && PartsTyped(t, v)
  {
  }

  lemma {:induction false} PartsMakeType(t: Type, v: Const)
    requires !t.NameT? && !t.StructT? && Shaped(t, v) && PartsTyped(t, v)
    ensures HasType(t, v)
  {
    match t
    case SingletonT(_) =>
    case ListT(e) =>
      forall i | 0 <= i < |v.elems| ensures HasType(e, v.elems[i]) { assert SubValue(v, Elem(i)).Some?; }
    case MapT(k, x) =>
      forall i | 0 <= i < |v.entries| ensures HasType(k, v.entries[i].key) && HasType(x, v.entries[i].val) {
        assert SubValue(v, KeyAt(i)).Some? && SubValue(v, ValAt(i)).Some?;
      }
    case PairT(_, _) => assert SubValue(v, First).Some? && SubValue(v, Second).Some?;
    case TupleT(ts) =>
      forall i | 0 <= i < |ts| ensures HasType(ts[i], SubValue(v, Part(i)).value) { assert SubValue(v, Part(i)).Some?; }
  }

  lemma {:induction false} StructExtent(fs: seq<Field>, v: Const)
    requires DistinctFields(fs)
    ensures HasType(StructT(fs), v) <==> Shaped(StructT(fs), v) && PartsTyped(StructT(fs), v)
  {
    var t := StructT(fs);
    if v.StructC? {
      forall n ensures LastMember(v.members, n) >= 0 <==> exists m :: m in v.members && m.name == n {
        MemberNamed(v.members, n);
      }
      forall n ensures LastField(fs, n) >= 0 <==> exists f :: f in fs && f.name == n { FieldNamed(fs, n); }
      forall i | 0 <= i < |fs| ensures LastField(fs, fs[i].name) == i { assert fs[i] in fs; }
      if HasType(t, v) { StructHas(fs, v); }
      if Shaped(t, v) && PartsTyped(t, v) { StructMakes(fs, v); }
    }
  }

  lemma {:induction false} StructHas(fs: seq<Field>, v: Const)
    requires HasType(StructT(fs), v)
    requires forall i :: 0 <= i < |fs| ==> LastField(fs, fs[i].name) == i
    requires forall n :: LastMember(v.members, n) >= 0 <==> exists m :: m in v.members && m.name == n
    requires forall n :: LastField(fs, n) >= 0 <==> exists f :: f in fs && f.name == n
    ensures Shaped(StructT(fs), v) && PartsTyped(StructT(fs), v)
  {
    forall f | f in fs && !f.optional ensures exists m :: m in v.members && m.name == f.name {
      var i :| 0 <= i < |fs| && fs[i] == f;
      assert LastMember(v.members, fs[i].name) >= 0;
    }
    forall m | m in v.members ensures exists f :: f in fs && f.name == m.name {
      var k :| 0 <= k < |v.members| && v.members[k] == m;
      assert LastField(fs, v.members[k].name) >= 0;
    }
    forall s | SubType(StructT(fs), s).Some? && SubValue(v, s).Some?
      ensures HasType(SubType(StructT(fs), s).value, SubValue(v, s).value)
    {
      var i := LastField(fs, s.n);
      assert fs[i].name == s.n && LastMember(v.members, fs[i].name) >= 0;
    }
  }

  lemma {:induction false} StructMakes(fs: seq<Field>, v: Const)
    requires Shaped(StructT(fs), v) && PartsTyped(StructT(fs), v)
    requires forall i :: 0 <= i < |fs| ==> LastField(fs, fs[i].name) == i
    requires forall n :: LastMember(v.members, n) >= 0 <==> exists m :: m in v.members && m.name == n
    requires forall n :: LastField(fs, n) >= 0 <==> exists f :: f in fs && f.name == n
    ensures HasType(StructT(fs), v)
  {
    forall i | 0 <= i < |fs|
      ensures var k := LastMember(v.members, fs[i].name);
              if k >= 0 then HasType(fs[i].ty, v.members[k].val) else fs[i].optional
    {
      assert fs[i] in fs;
      if LastMember(v.members, fs[i].name) >= 0 {
        assert SubType(StructT(fs), Named(fs[i].name)) == Some(fs[i].ty) && SubValue(v, Named(fs[i].name)).Some?;
      }
    }
    forall k | 0 <= k < |v.members| ensures LastField(fs, v.members[k].name) >= 0 { assert v.members[k] in v.members; }
  }

  // ----- All positions -----

  lemma {:induction false} ThroughoutStep(t: Type, v: Const)
    ensures ShapedThroughout(t, v) <==>
            Shaped(t, v) &&
            forall s :: SubType(t, s).Some? && SubValue(v, s).Some? ==>
                          ShapedThroughout(SubType(t, s).value, SubValue(v, s).value)
  {
    if ShapedThroughout(t, v) {
      assert TypeAt(t, []) == Some(t) && ValueAt(v, []) == Some(v);
      forall s | SubType(t, s).Some? && SubValue(v, s).Some?
        ensures ShapedThroughout(SubType(t, s).value, SubValue(v, s).value)
      {
        var u, w := SubType(t, s).value, SubValue(v, s).value;
        forall path | TypeAt(u, path).Some? && ValueAt(w, path).Some?
          ensures Shaped(TypeAt(u, path).value, ValueAt(w, path).value)
        {
          var longer := [s] + path;
          assert longer[0] == s && longer[1..] == path;
          assert TypeAt(t, longer) == TypeAt(u, path) && ValueAt(v, longer) == ValueAt(w, path);
        }
      }
    }
    if Shaped(t, v) && forall s :: SubType(t, s).Some? && SubValue(v, s).Some? ==>
                                     ShapedThroughout(SubType(t, s).value, SubValue(v, s).value) {
      forall path | TypeAt(t, path).Some? && ValueAt(v, path).Some?
        ensures Shaped(TypeAt(t, path).value, ValueAt(v, path).value)
      {
        if path != [] { assert ShapedThroughout(SubType(t, path[0]).value, SubValue(v, path[0]).value); }
      }
    }
  }

  lemma {:induction false} SubTypeDefinite(t: Type, s: Step)
    requires Definite(t) && SubType(t, s).Some?
    ensures Definite(SubType(t, s).value)
  {
  }

  /** A value has a type without alternatives exactly when every part that both have at the
      same position has the shape of its type. */
  lemma {:induction false} PathExtent(t: Type, v: Const)
    requires Definite(t)
    ensures HasType(t, v) <==> ShapedThroughout(t, v)
    decreases t
  {
    StepExtent(t, v);
    ThroughoutStep(t, v);
    hide HasType, ShapedThroughout, Shaped, Definite;
    forall s | SubType(t, s).Some? && SubValue(v, s).Some?
      ensures HasType(SubType(t, s).value, SubValue(v, s).value) <==>
              ShapedThroughout(SubType(t, s).value, SubValue(v, s).value)
    {
      SubTypeDefinite(t, s);
      PathExtent(SubType(t, s).value, SubValue(v, s).value);
    }
  }
}
