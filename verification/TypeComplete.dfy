/** When conformance must hold: it is covariant, and on types over ordinary names it misses only
    what an option adds. */
module TypeComplete {
  import opened Types

  /** Compound types conform exactly part by part, whatever the parts. */
  lemma {:induction false} Covariance(a: Type, b: Type, c: Type, d: Type, ts: seq<Type>, us: seq<Type>)
    ensures SetConforms(ListT(a), ListT(b)) <==> SetConforms(a, b)
    ensures SetConforms(OptionT(a), OptionT(b)) <==> SetConforms(a, b)
    ensures SetConforms(MapT(a, c), MapT(b, d)) <==> SetConforms(a, b) && SetConforms(c, d)
    ensures SetConforms(PairT(a, c), PairT(b, d)) <==> SetConforms(a, b) && SetConforms(c, d)
    ensures SetConforms(TupleT(ts), TupleT(us)) <==>
            |ts| == |us| && forall i :: 0 <= i < |ts| ==> SetConforms(ts[i], us[i])
    ensures SetConforms(a, NameT("/any")) && SetConforms(NameT("/bot"), a)
  {
  }

  /** A union conforms when all its alternatives do, and a type conforms to a union when it
      conforms to one of them. */
  lemma {:induction false} UnionConforms(a: Type, ts: seq<Type>)
    ensures SetConforms(UnionT(ts), a) <==>
            a == UnionT(ts) || a == NameT("/any") || forall t :: t in ts ==> SetConforms(t, a)
    ensures !a.UnionT? && a != NameT("/bot") ==>
            (SetConforms(a, UnionT(ts)) <==> exists t :: t in ts && SetConforms(a, t))
  {
    if !a.UnionT? && a != NameT("/bot") && SetConforms(a, UnionT(ts)) {
      var i :| 0 <= i < |ts| && SetConforms(a, ts[i]);
      assert ts[i] in ts;
    }
    if t :| t in ts && SetConforms(a, t) {
      var i :| 0 <= i < |ts| && ts[i] == t;
    }
    if forall t :: t in ts ==> SetConforms(t, a) {
      forall i | 0 <= i < |ts| ensures SetConforms(ts[i], a) { assert ts[i] in ts; }
    }
  }

  /** A struct type conforms when every field of the other conforms, or is optional and absent. */
  lemma {:induction false} StructConforms(fs: seq<Field>, gs: seq<Field>)
    requires DistinctFields(fs) && DistinctFields(gs)
    ensures SetConforms(StructT(fs), StructT(gs)) <==> forall g :: g in gs ==> FieldConforms(fs, g)
  {
    if fs == gs {
      forall g | g in gs ensures FieldConforms(fs, g) { assert g in fs && SetConforms(g.ty, g.ty); }
    } else if SetConforms(StructT(fs), StructT(gs)) {
      forall g | g in gs ensures FieldConforms(fs, g) { FieldKept(fs, gs, g); }
    } else {
      var g := FieldFails(fs, gs);
    }
  }

  lemma {:induction false} FieldKept(fs: seq<Field>, gs: seq<Field>, g: Field)
    requires DistinctFields(fs) && fs != gs && SetConforms(StructT(fs), StructT(gs)) && g in gs
    ensures FieldConforms(fs, g)
  {
    var j :| 0 <= j < |gs| && gs[j] == g;
    assert TypeConforms(StructT(fs), StructT(gs));
    FieldFound(fs, gs[j]);
  }

  lemma {:induction false} FieldFails(fs: seq<Field>, gs: seq<Field>) returns (g: Field)
    requires DistinctFields(fs) && !SetConforms(StructT(fs), StructT(gs))
    ensures g in gs && !FieldConforms(fs, g)
  {
    assert !TypeConforms(StructT(fs), StructT(gs));
    var j :| 0 <= j < |gs| &&
      var i := LastField(fs, gs[j].name);
      !(if i >= 0 then SetConforms(fs[i].ty, gs[j].ty) else gs[j].optional);
    g := gs[j];
    FieldFound(fs, g);
  }

  ghost predicate FieldConforms(fs: seq<Field>, g: Field) {
    || (exists f :: f in fs && f.name == g.name && SetConforms(f.ty, g.ty))
    || (g.optional && forall f :: f in fs ==> f.name != g.name)
  }

  lemma {:induction false} FieldFound(fs: seq<Field>, g: Field)
    requires DistinctFields(fs)
    ensures (var i := LastField(fs, g.name); if i >= 0 then SetConforms(fs[i].ty, g.ty) else g.optional) <==>
            FieldConforms(fs, g)
  {
    hide SetConforms;
    var i := LastField(fs, g.name);
    if i >= 0 { assert fs[i] in fs; }
    forall f | f in fs && f.name == g.name ensures i >= 0 && f == fs[i] {
      var k :| 0 <= k < |fs| && fs[k] == f;
    }
  }

  // ----- A fragment of types -----

  predicate PlainName(n: string) {
    n != "" && n[0] == '/' && n !in {"/any", "/bot", "/unit"}
  }

  /** Names below the slash, constants that can be compared, and types made of them. */
  predicate Plain(t: Type) {
    match t
    case NameT(n) => PlainName(n)
    case SingletonT(c) => SameScalar(c, c) && c != NameC("/unit")
    case UnionT(alts) => alts != [] && forall i :: 0 <= i < |alts| ==> Plain(alts[i])
    case ListT(e) => Plain(e)
    case MapT(k, x) => Plain(k) && Plain(x)
    case PairT(a, b) => Plain(a) && Plain(b)
    case TupleT(ts) => forall i :: 0 <= i < |ts| ==> Plain(ts[i])
    case OptionT(a) => Plain(a)
    case StructT(fs) => DistinctFields(fs) && forall i :: 0 <= i < |fs| ==> Plain(fs[i].ty)
  }

  predicate StructFree(t: Type) {
    match t
    case NameT(_) => true
    case SingletonT(_) => true
    case UnionT(alts) => forall i :: 0 <= i < |alts| ==> StructFree(alts[i])
    case ListT(e) => StructFree(e)
    case MapT(k, x) => StructFree(k) && StructFree(x)
    case PairT(a, b) => StructFree(a) && StructFree(b)
    case TupleT(ts) => forall i :: 0 <= i < |ts| ==> StructFree(ts[i])
    case OptionT(a) => StructFree(a)
    case StructT(_) => false
  }

  /** Options stand at the same places on both sides. */
  predicate Aligned(l: Type, r: Type)
    decreases l, r
  {
    if l.UnionT? then forall i :: 0 <= i < |l.alts| ==> Aligned(l.alts[i], r)
    else
      match (l, r)
      case (OptionT(a), OptionT(b)) => Aligned(a, b)
      case (OptionT(_), _) => false
      case (_, OptionT(_)) => false
      case (ListT(a), ListT(b)) => Aligned(a, b)
      case (MapT(a, c), MapT(b, d)) => Aligned(a, b) && Aligned(c, d)
      case (PairT(a, c), PairT(b, d)) => Aligned(a, b) && Aligned(c, d)
      case (TupleT(ts), TupleT(us)) => |ts| == |us| ==> forall i :: 0 <= i < |ts| ==> Aligned(ts[i], us[i])
      case (StructT(fs), StructT(gs)) =>
        forall j :: 0 <= j < |gs| && LastField(fs, gs[j].name) >= 0 ==>
                      Aligned(fs[LastField(fs, gs[j].name)].ty, gs[j].ty)
      case _ => true
  }

  ghost predicate Contained(l: Type, r: Type) {
    forall v :: HasType(l, v) ==> HasType(r, v)
  }

  lemma {:induction false} PlainInhabited(t: Type)
    requires Plain(t)
    ensures Inhabited(t) && WellFormed(t)
    decreases t
  {
    match t
    case NameT(_) =>
    case SingletonT(_) =>
    case UnionT(alts) =>
      forall i | 0 <= i < |alts| ensures Inhabited(alts[i]) && WellFormed(alts[i]) { PlainInhabited(alts[i]); }
      assert Inhabited(alts[0]);
    case ListT(e) => PlainInhabited(e);
    case MapT(k, x) => PlainInhabited(k); PlainInhabited(x);
    case PairT(a, b) => PlainInhabited(a); PlainInhabited(b);
    case TupleT(ts) =>
      forall i | 0 <= i < |ts| ensures Inhabited(ts[i]) && WellFormed(ts[i]) { PlainInhabited(ts[i]); }
    case OptionT(a) => PlainInhabited(a);
    case StructT(fs) =>
      forall i | 0 <= i < |fs| ensures Inhabited(fs[i].ty) && WellFormed(fs[i].ty) { PlainInhabited(fs[i].ty); }
  }

  // ----- A value that shows a missing conformance -----

  lemma {:induction false} NameMissing(m: string, n: string) returns (v: Const)
    requires PlainName(m) && PlainName(n) && !TypeConforms(NameT(m), NameT(n))
    ensures HasBase(v, m) && !HasBase(v, n) && v != NameC("/unit")
  {
    v := NameC(m);
    if n == "/name" {
      assert m[..1] == "/" && IsBase(m);
      v := match m
           case "/number" => NumberC(0)
           case "/float64" => FloatC(0)
           case "/string" => StringC("")
           case "/bool" => BoolC(false)
           case "/time" => TimeC(0)
           case "/duration" => DurationC(0)
           case _ => BytesC("");
    }
  }

  lemma {:induction false} NameNotSingle(n: string, c: Const) returns (v: Const)
    requires PlainName(n)
    ensures HasBase(v, n) && v != c && v != NameC("/unit")
  {
    v := NameC(n);
    if v == c {
      var longer := n + "/x";
      v := NameC(longer);
      assert longer[|n|] == '/' && n <= longer && longer[|longer| - 1] == 'x' && "/unit"[4] == 't';
    }
  }

  /** Where conformance fails, some value of the left type lacks the right one. */
  lemma {:induction false} Missing(l: Type, r: Type) returns (v: Const)
    requires Plain(l) && Plain(r) && UnionFree(r) && Aligned(l, r) && !SetConforms(l, r)
    ensures HasType(l, v) && !HasType(r, v) && v != NameC("/unit")
    decreases l, r, 1
  {
    match l
    case UnionT(alts) =>
      var i :| 0 <= i < |alts| && !SetConforms(alts[i], r);
      v := Missing(alts[i], r);
    case NameT(n) =>
      if r.NameT? { v := NameMissing(n, r.name); }
      else if r.SingletonT? { v := NameNotSingle(n, r.c); }
      else { v := NameC(n); }
    case SingletonT(c) => v := c;
    case OptionT(a) => v := Missing(a, r.arg);
    case StructT(_) => v := StructMissing(l, r);
    case ListT(_) => v := ListMissing(l, r);
    case MapT(_, _) => v := MapMissing(l, r);
    case PairT(_, _) => v := PairMissing(l, r);
    case TupleT(_) => v := TupleMissing(l, r);
  }

  lemma {:induction false} ListMissing(l: Type, r: Type) returns (v: Const)
    requires Plain(l) && Plain(r) && UnionFree(r) && Aligned(l, r) && !SetConforms(l, r)
    requires l.ListT?
    ensures HasType(l, v) && !HasType(r, v) && v != NameC("/unit")
    decreases l, r, 0
  {
    v := ListC([]);
    if r.ListT? {
      var x := Missing(l.elem, r.elem);
      v := ListC([x]);
      assert v.elems[0] == x;
    }
  }

  lemma {:induction false} MapMissing(l: Type, r: Type) returns (v: Const)
    requires Plain(l) && Plain(r) && UnionFree(r) && Aligned(l, r) && !SetConforms(l, r)
    requires l.MapT?
    ensures HasType(l, v) && !HasType(r, v) && v != NameC("/unit")
    decreases l, r, 0
  {
    v := MapC([]);
    if r.MapT? {
      var x, y := TwoMissing(l.key, r.key, l.val, r.val);
      v := MapC([Entry(x, y)]);
      assert v.entries[0] == Entry(x, y);
    }
  }

  lemma {:induction false} PairMissing(l: Type, r: Type) returns (v: Const)
    requires Plain(l) && Plain(r) && UnionFree(r) && Aligned(l, r) && !SetConforms(l, r)
    requires l.PairT?
    ensures HasType(l, v) && !HasType(r, v) && v != NameC("/unit")
    decreases l, r, 0
  {
    if r.PairT? {
      var x, y := TwoMissing(l.first, r.first, l.second, r.second);
      v := PairC(x, y);
    } else {
      PlainInhabited(l.first);
      PlainInhabited(l.second);
      var x := Inhabit(l.first);
      var y := Inhabit(l.second);
      v := if r.TupleT? then ListC([x, y]) else PairC(x, y);
    }
  }

  lemma {:induction false} TwoMissing(a: Type, b: Type, c: Type, d: Type) returns (x: Const, y: Const)
    requires Plain(a) && Plain(b) && UnionFree(b) && Aligned(a, b) && Plain(c) && Plain(d) && UnionFree(d) &&
             Aligned(c, d)
    requires !SetConforms(a, b) || !SetConforms(c, d)
    ensures HasType(a, x) && HasType(c, y) && (!HasType(b, x) || !HasType(d, y))
    decreases (if SetConforms(a, b) then c else a), (if SetConforms(a, b) then d else b), 2
  {
    PlainInhabited(a);
    PlainInhabited(c);
    x := Inhabit(a);
    y := Inhabit(c);
    if !SetConforms(a, b) { x := Missing(a, b); } else { y := Missing(c, d); }
  }

  lemma {:induction false} TupleMissing(l: Type, r: Type) returns (v: Const)
    requires Plain(l) && Plain(r) && UnionFree(r) && Aligned(l, r) && !SetConforms(l, r)
    requires l.TupleT?
    ensures HasType(l, v) && !HasType(r, v) && v != NameC("/unit")
    decreases l, r, 0
  {
    PlainInhabited(l);
    var ts := l.parts;
    var vs := InhabitAll(l, |ts|);
    v := TupleC(vs);
    if r.TupleT? && |r.parts| == |ts| {
      var i :| 0 <= i < |ts| && !SetConforms(ts[i], r.parts[i]);
      assert Plain(ts[i]) && Plain(r.parts[i]) && UnionFree(r.parts[i]) && Aligned(ts[i], r.parts[i]);
      hide Plain, UnionFree, Aligned, SetConforms, Inhabited, WellFormed;
      var x := Missing(ts[i], r.parts[i]);
      v := TupleC(vs[i := x]);
      assert v.parts[i] == x;
    }
  }

  lemma {:induction false} StructMissing(l: Type, r: Type) returns (v: Const)
    requires Plain(l) && Plain(r) && UnionFree(r) && Aligned(l, r) && !SetConforms(l, r)
    requires l.StructT?
    ensures HasType(l, v) && !HasType(r, v) && v != NameC("/unit")
    decreases l, r, 0
  {
    PlainInhabited(l);
    if r.StructT? {
      var fs, gs := l.fields, r.fields;
      var j :| 0 <= j < |gs| &&
        var i := LastField(fs, gs[j].name);
        !(if i >= 0 then SetConforms(fs[i].ty, gs[j].ty) else gs[j].optional);
      var i := LastField(fs, gs[j].name);
      if i >= 0 {
        var x := Missing(fs[i].ty, gs[j].ty);
        v := FieldLost(l, r, i, j, x);
      } else {
        v := MissingLost(l, r, j);
      }
    } else {
      v := InhabitStruct(l, -1, NameC(""));
    }
  }

  // ----- Conformance and containment -----

  lemma {:induction false} AlignedSelf(t: Type)
    requires Plain(t) && UnionFree(t)
    ensures Aligned(t, t)
    decreases t
  {
    match t
    case ListT(e) => AlignedSelf(e);
    case MapT(k, x) => AlignedSelf(k); AlignedSelf(x);
    case PairT(a, b) => AlignedSelf(a); AlignedSelf(b);
    case TupleT(ts) => forall i | 0 <= i < |ts| ensures Aligned(ts[i], ts[i]) { AlignedSelf(ts[i]); }
    case OptionT(a) => AlignedSelf(a);
    case StructT(fs) =>
      forall j | 0 <= j < |fs| ensures LastField(fs, fs[j].name) == j && Aligned(fs[j].ty, fs[j].ty) {
        AlignedSelf(fs[j].ty);
      }
    case _ =>
  }

  lemma {:induction false} ConformsAligned(l: Type, r: Type)
    requires Plain(l) && Plain(r) && UnionFree(r) && SetConforms(l, r)
    ensures Aligned(l, r)
    decreases l, r
  {
    if l == r {
      AlignedSelf(r);
    } else {
      match l
      case UnionT(alts) =>
        forall i | 0 <= i < |alts| ensures Aligned(alts[i], r) { ConformsAligned(alts[i], r); }
      case ListT(a) => ConformsAligned(a, r.elem);
      case MapT(a, c) => ConformsAligned(a, r.key); ConformsAligned(c, r.val);
      case PairT(a, c) => ConformsAligned(a, r.first); ConformsAligned(c, r.second);
      case TupleT(ts) =>
      forall i | 0 <= i < |ts| ensures Aligned(ts[i], r.parts[i]) { ConformsAligned(ts[i], r.parts[i]); }
      case OptionT(a) => ConformsAligned(a, r.arg);
      case StructT(fs) =>
        forall j | 0 <= j < |r.fields| && LastField(fs, r.fields[j].name) >= 0
          ensures Aligned(fs[LastField(fs, r.fields[j].name)].ty, r.fields[j].ty)
        {
          ConformsAligned(fs[LastField(fs, r.fields[j].name)].ty, r.fields[j].ty);
        }
      case _ =>
    }
  }

  /** On this fragment a type conforms soundly to another exactly when its values are among the
      other's and options stand at the same places. */
  lemma {:induction false} ConformsIff(l: Type, r: Type)
    requires Plain(l) && Plain(r) && UnionFree(r)
    ensures SetConforms(l, r) && Keeps(l, r) <==> Contained(l, r) && Aligned(l, r)
  {
    PlainInhabited(l);
    if SetConforms(l, r) {
      KeepsContained(l, r);
      ConformsAligned(l, r);
    } else if Aligned(l, r) {
      var v := Missing(l, r);
    }
  }

  lemma {:induction false} KeepsContained(l: Type, r: Type)
    requires SetConforms(l, r) && UnionFree(r) && WellFormed(l)
    ensures Contained(l, r) <==> Keeps(l, r)
  {
    if Keeps(l, r) {
      forall v | HasType(l, v) ensures HasType(r, v) { ConformsSound(l, r, v); }
    } else {
      var v := SomeLost(l, r);
    }
  }

  lemma {:induction false} KeepsPlain(l: Type, r: Type)
    requires Plain(l) && Plain(r) && UnionFree(r) && StructFree(l) && SetConforms(l, r)
    ensures Keeps(l, r)
    decreases l, r
  {
    if l != r {
      match l
      case UnionT(alts) => forall i | 0 <= i < |alts| ensures Keeps(alts[i], r) { KeepsPlain(alts[i], r); }
      case ListT(a) => KeepsPlain(a, r.elem);
      case MapT(a, c) => KeepsPlain(a, r.key); KeepsPlain(c, r.val);
      case PairT(a, c) => KeepsPlain(a, r.first); KeepsPlain(c, r.second);
      case TupleT(ts) => forall i | 0 <= i < |ts| ensures Keeps(ts[i], r.parts[i]) { KeepsPlain(ts[i], r.parts[i]); }
      case OptionT(a) => KeepsPlain(a, r.arg);
      case _ =>
    }
  }

  /** Without structs, conformance is containment as far as options allow. */
  lemma {:induction false} ConformsCompletely(l: Type, r: Type)
    requires Plain(l) && Plain(r) && UnionFree(r) && StructFree(l)
    ensures SetConforms(l, r) <==> Contained(l, r) && Aligned(l, r)
  {
    ConformsIff(l, r);
    if SetConforms(l, r) { KeepsPlain(l, r); }
  }

  // ----- What conformance misses -----

  /** A type is contained in its option, and does not conform to it. */
  lemma {:induction false} OptionMissed(t: Type)
    requires Plain(t) && !t.UnionT? && !t.OptionT?
    ensures Contained(t, OptionT(t)) && !SetConforms(t, OptionT(t))
  {
  }

  /** The names below `/unit` are names, and `/unit` does not conform to `/name`. */
  lemma {:induction false} UnitMissed()
    ensures Contained(NameT("/unit"), NameT("/name")) && !SetConforms(NameT("/unit"), NameT("/name"))
  {
    assert "/name"[1] == 'n' && "/unit"[1] == 'u';
  }

  /** A pair type without values is contained in every type. */
  lemma {:induction false} EmptyMissed(a: Type, b: Type)
    ensures Contained(PairT(UnionT([]), a), ListT(b)) && !SetConforms(PairT(UnionT([]), a), ListT(b))
  {
  }
}
