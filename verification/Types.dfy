/** Type expressions: when one type conforms to another, and which values have a type. */
module Types {

  /** A constant of the intermediate representation. */
  datatype Const =
    | NumberC(n: int)
    | FloatC(bits: int)
    | StringC(s: string)
    | BoolC(b: bool)
    | TimeC(t: int)
    | DurationC(d: int)
    | BytesC(s: string)
    | NameC(name: string)
    | ListC(elems: seq<Const>)
    | MapC(entries: seq<Entry>)
    | PairC(first: Const, second: Const)
    | TupleC(parts: seq<Const>)
    | StructC(members: seq<Member>)

  datatype Entry = Entry(key: Const, val: Const)

  datatype Member = Member(name: string, val: Const)

  /** A type without tagged unions, functions, relations and variables. */
  datatype Type =
    | NameT(name: string)
    | SingletonT(c: Const)
    | UnionT(alts: seq<Type>)
    | ListT(elem: Type)
    | MapT(key: Type, val: Type)
    | PairT(first: Type, second: Type)
    | TupleT(parts: seq<Type>)
    | OptionT(arg: Type)
    | StructT(fields: seq<Field>)

  datatype Field = Field(name: string, ty: Type, optional: bool)

  predicate IsBase(n: string) {
    n in {"/any", "/bot", "/number", "/float64", "/string", "/bytes", "/name", "/bool", "/time", "/duration", "/unit"}
  }

  /** The name is the other or below it. */
  predicate Under(n: string, top: string) {
    top <= n && (|n| == |top| || n[|top|] == '/')
  }

  // ----- Values -----

  predicate HasBase(c: Const, n: string) {
    match c
    case NumberC(_) => n == "/number" || n == "/any"
    case FloatC(_) => n == "/float64" || n == "/any"
    case StringC(_) => n == "/string" || n == "/any"
    case BoolC(_) => n == "/bool" || n == "/any"
    case TimeC(_) => n == "/time" || n == "/any"
    case DurationC(_) => n == "/duration" || n == "/any"
    case BytesC(_) => n == "/bytes" || n == "/any"
    case NameC(name) => n == "/name" || n == "/any" || Under(name, n)
    case _ => false
  }

  /** Equality by content, which is defined for these kinds of constants. */
  predicate SameScalar(a: Const, b: Const) {
    (a.NameC? || a.NumberC? || a.FloatC? || a.StringC? || a.BoolC?) && a == b
  }

  /** The last member of the name, which is the one that counts, or -1. */
  function LastMember(ms: seq<Member>, n: string): (r: int)
    ensures -1 <= r < |ms| && (r >= 0 ==> ms[r].name == n) && forall k :: r < k < |ms| ==> ms[k].name != n
  {
    if ms == [] then -1 else if ms[|ms| - 1].name == n then |ms| - 1 else LastMember(ms[..|ms| - 1], n)
  }

  function LastField(fs: seq<Field>, n: string): (r: int)
    ensures -1 <= r < |fs| && (r >= 0 ==> fs[r].name == n) && forall k :: r < k < |fs| ==> fs[k].name != n
  {
    if fs == [] then -1 else if fs[|fs| - 1].name == n then |fs| - 1 else LastField(fs[..|fs| - 1], n)
  }

  predicate HasType(t: Type, v: Const) {
    match t
    case NameT(n) => HasBase(v, n)
    case SingletonT(c) => SameScalar(v, c)
    case UnionT(alts) => exists i :: 0 <= i < |alts| && HasType(alts[i], v)
    case ListT(e) => v.ListC? && forall i :: 0 <= i < |v.elems| ==> HasType(e, v.elems[i])
    case MapT(k, x) =>
      v.MapC? && forall i :: 0 <= i < |v.entries| ==> HasType(k, v.entries[i].key) && HasType(x, v.entries[i].val)
    case PairT(a, b) =>
      || (v.PairC? && HasType(a, v.first) && HasType(b, v.second))
      || (v.ListC? && |v.elems| == 2 && HasType(a, v.elems[0]) && HasType(b, v.elems[1]))
    case TupleT(ts) =>
      || (v.TupleC? && |v.parts| == |ts| && forall i :: 0 <= i < |ts| ==> HasType(ts[i], v.parts[i]))
      || (v.PairC? && |ts| == 2 && HasType(ts[0], v.first) && HasType(ts[1], v.second))
    case OptionT(a) => v == NameC("/unit") || HasType(a, v)
    case StructT(fs) =>
      && v.StructC?
      && (forall i :: 0 <= i < |fs| ==>
            var k := LastMember(v.members, fs[i].name);
            if k >= 0 then HasType(fs[i].ty, v.members[k].val) else fs[i].optional)
      && (forall k :: 0 <= k < |v.members| ==> LastField(fs, v.members[k].name) >= 0)
  }

  // ----- Conformance -----

  predicate SetConforms(l: Type, r: Type)
    decreases l, r, 1
  {
    if l == r || r == NameT("/any") || l == NameT("/bot") then true
    else if l.UnionT? then forall i :: 0 <= i < |l.alts| ==> SetConforms(l.alts[i], r)
    else if r.UnionT? then exists i :: 0 <= i < |r.alts| && SetConforms(l, r.alts[i])
    else TypeConforms(l, r)
  }

  predicate TypeConforms(l: Type, r: Type)
    decreases l, r, 0
  {
    if l == r || r == NameT("/any") || l == NameT("/bot") then true
    else if l.NameT? && r.NameT? then
      (r.name == "/name" && "/" <= l.name && !IsBase(l.name)) || Under(l.name, r.name)
    else if l.SingletonT? then r.NameT? && HasBase(l.c, r.name)
    else
      match (l, r)
      case (ListT(a), ListT(b)) => SetConforms(a, b)
      case (MapT(a, x), MapT(b, y)) => SetConforms(a, b) && SetConforms(x, y)
      case (PairT(a, x), PairT(b, y)) => SetConforms(a, b) && SetConforms(x, y)
      case (TupleT(ts), TupleT(us)) => |ts| == |us| && forall i :: 0 <= i < |ts| ==> SetConforms(ts[i], us[i])
      case (OptionT(a), OptionT(b)) => SetConforms(a, b)
      case (StructT(fs), StructT(gs)) =>
        forall j :: 0 <= j < |gs| ==>
          var i := LastField(fs, gs[j].name);
          if i >= 0 then SetConforms(fs[i].ty, gs[j].ty) else gs[j].optional
      case _ => false
  }

  // ----- Which types have values, and which only scalar values -----

  /** Some value has the type. */
  predicate Inhabited(t: Type) {
    match t
    case NameT(_) => true
    case SingletonT(c) => SameScalar(c, c)
    case UnionT(alts) => exists i :: 0 <= i < |alts| && Inhabited(alts[i])
    case ListT(_) => true
    case MapT(_, _) => true
    case PairT(a, b) => Inhabited(a) && Inhabited(b)
    case TupleT(ts) => forall i :: 0 <= i < |ts| ==> Inhabited(ts[i])
    case OptionT(_) => true
    case StructT(fs) => forall i :: 0 <= i < |fs| ==> fs[i].optional || Inhabited(fs[i].ty)
  }

  /** Every value of the type is a scalar. */
  predicate ScalarOnly(t: Type) {
    match t
    case NameT(_) => true
    case SingletonT(_) => true
    case UnionT(alts) => forall i :: 0 <= i < |alts| ==> ScalarOnly(alts[i])
    case ListT(_) => false
    case MapT(_, _) => false
    case PairT(_, _) => !Inhabited(t)
    case TupleT(_) => !Inhabited(t)
    case OptionT(a) => ScalarOnly(a)
    case StructT(_) => !Inhabited(t)
  }

  /** Well-formed struct types name each field once. */
  predicate DistinctFields(fs: seq<Field>) {
    forall i, j :: 0 <= i < |fs| && 0 <= j < |fs| && fs[i].name == fs[j].name ==> i == j
  }

  predicate WellFormed(t: Type) {
    match t
    case NameT(_) => true
    case SingletonT(_) => true
    case UnionT(alts) => forall i :: 0 <= i < |alts| ==> WellFormed(alts[i])
    case ListT(e) => WellFormed(e)
    case MapT(k, x) => WellFormed(k) && WellFormed(x)
    case PairT(a, b) => WellFormed(a) && WellFormed(b)
    case TupleT(ts) => forall i :: 0 <= i < |ts| ==> WellFormed(ts[i])
    case OptionT(a) => WellFormed(a)
    case StructT(fs) => DistinctFields(fs) && forall i :: 0 <= i < |fs| ==> WellFormed(fs[i].ty)
  }

  predicate IsCompound(v: Const) {
    v.ListC? || v.MapC? || v.PairC? || v.TupleC? || v.StructC?
  }

  lemma {:induction false} Inhabit(t: Type) returns (v: Const)
    requires Inhabited(t) && WellFormed(t)
    ensures HasType(t, v)
    decreases t, 2
  {
    match t
    case NameT(n) => v := NameC(n);
    case SingletonT(c) => v := c;
    case UnionT(alts) =>
      var i :| 0 <= i < |alts| && Inhabited(alts[i]);
      v := Inhabit(alts[i]);
    case ListT(_) => v := ListC([]);
    case MapT(_, _) => v := MapC([]);
    case PairT(a, b) =>
      var x := Inhabit(a);
      var y := Inhabit(b);
      v := PairC(x, y);
    case TupleT(ts) =>
      var vs := InhabitAll(t, |ts|);
      v := TupleC(vs);
    case OptionT(_) => v := NameC("/unit");
    case StructT(fs) => v := InhabitStruct(t, -1, NameC(""));
  }

  /** Values for the first parts of a tuple type. */
  lemma {:induction false} InhabitAll(t: Type, n: nat) returns (vs: seq<Const>)
    requires t.TupleT? && Inhabited(t) && WellFormed(t) && n <= |t.parts|
    ensures |vs| == n && forall i :: 0 <= i < n ==> HasType(t.parts[i], vs[i])
    decreases t, 0, n
  {
    vs := [];
    if n > 0 {
      var front := InhabitAll(t, n - 1);
      var last := Inhabit(t.parts[n - 1]);
      vs := front + [last];
    }
  }

  /** The member belongs to one of the first fields, a required one or the picked one. */
  ghost predicate Belongs(e: Member, fs: seq<Field>, n: nat, pick: int, w: Const) {
    n <= |fs| && exists i :: 0 <= i < n && MemberFor(e, fs, i, pick, w)
  }

  ghost predicate MemberFor(e: Member, fs: seq<Field>, i: nat, pick: int, w: Const)
    requires i < |fs|
  {
    e.name == fs[i].name && HasType(fs[i].ty, e.val) && (i == pick ==> e.val == w) && (i == pick || !fs[i].optional)
  }

  /** Members for the required ones among the first fields, and for the picked one. */
  ghost predicate Fills(ms: seq<Member>, fs: seq<Field>, n: nat, pick: int, w: Const) {
    && n <= |fs|
    && (forall k :: 0 <= k < |ms| ==> Belongs(ms[k], fs, n, pick, w))
    && (forall i :: 0 <= i < n && (i == pick || !fs[i].optional) ==> LastMember(ms, fs[i].name) >= 0)
  }

  lemma {:induction false} FillFields(t: Type, n: nat, pick: int, w: Const) returns (ms: seq<Member>)
    requires t.StructT? && Inhabited(t) && WellFormed(t) && n <= |t.fields|
    requires 0 <= pick < |t.fields| ==> HasType(t.fields[pick].ty, w)
    ensures Fills(ms, t.fields, n, pick, w)
    decreases t, 0, n
  {
    ms := [];
    if n > 0 {
      var fs, i := t.fields, n - 1;
      ms := FillFields(t, i, pick, w);
      BelongsMore(ms, fs, i, pick, w);
      if i == pick || !fs[i].optional {
        var v := w;
        if i != pick { v := Inhabit(fs[i].ty); }
        assert MemberFor(Member(fs[i].name, v), fs, i, pick, w);
        FillOne(ms, Member(fs[i].name, v), fs, i, pick, w);
        ms := ms + [Member(fs[i].name, v)];
      }
    }
  }

  lemma {:induction false} BelongsMore(ms: seq<Member>, fs: seq<Field>, i: nat, pick: int, w: Const)
    requires i < |fs| && Fills(ms, fs, i, pick, w)
    ensures forall k :: 0 <= k < |ms| ==> Belongs(ms[k], fs, i + 1, pick, w)
  {
    hide MemberFor;
    forall k | 0 <= k < |ms| ensures Belongs(ms[k], fs, i + 1, pick, w) {
      assert Belongs(ms[k], fs, i, pick, w);
    }
  }

  lemma {:induction false} FillOne(ms: seq<Member>, e: Member, fs: seq<Field>, i: nat, pick: int, w: Const)
    requires i < |fs| && Fills(ms, fs, i, pick, w) && e.name == fs[i].name && Belongs(e, fs, i + 1, pick, w)
    requires forall k :: 0 <= k < |ms| ==> Belongs(ms[k], fs, i + 1, pick, w)
    ensures Fills(ms + [e], fs, i + 1, pick, w)
  {
    hide MemberFor, Belongs, LastMember;
    forall j | 0 <= j < i + 1 && (j == pick || !fs[j].optional) ensures LastMember(ms + [e], fs[j].name) >= 0 {
      LastAppended(ms, e, fs[j].name);
    }
  }

  lemma {:induction false} LastAppended(ms: seq<Member>, e: Member, n: string)
    ensures LastMember(ms + [e], n) == if e.name == n then |ms| else LastMember(ms, n)
  {
    assert (ms + [e])[..|ms|] == ms;
  }

  /** A struct value with the required fields and the picked one, which has the given value. */
  lemma {:induction false} InhabitStruct(t: Type, pick: int, w: Const) returns (v: Const)
    requires t.StructT? && Inhabited(t) && WellFormed(t) && -1 <= pick < |t.fields|
    requires pick >= 0 ==> HasType(t.fields[pick].ty, w)
    ensures HasType(t, v) && v.StructC?
    ensures pick >= 0 ==> var k := LastMember(v.members, t.fields[pick].name); k >= 0 && v.members[k].val == w
    ensures forall n ::
            LastMember(v.members, n) >= 0 ==>
            exists i :: 0 <= i < |t.fields| && t.fields[i].name == n && (i == pick || !t.fields[i].optional)
    decreases t, 1
  {
    var ms := FillFields(t, |t.fields|, pick, w);
    v := StructC(ms);
    FilledHasType(ms, t.fields, pick, w);
    forall n | LastMember(ms, n) >= 0
      ensures exists i :: 0 <= i < |t.fields| && t.fields[i].name == n && (i == pick || !t.fields[i].optional)
    {
      var i := FieldOfMember(ms, LastMember(ms, n), t.fields, pick, w);
    }
  }

  lemma {:induction false} FieldOfMember(ms: seq<Member>, k: nat, fs: seq<Field>, pick: int, w: Const) returns (i: nat)
    requires k < |ms| && Fills(ms, fs, |fs|, pick, w)
    ensures i < |fs| && MemberFor(ms[k], fs, i, pick, w)
  {
    hide MemberFor;
    assert Belongs(ms[k], fs, |fs|, pick, w);
    i :| 0 <= i < |fs| && MemberFor(ms[k], fs, i, pick, w);
  }

  lemma {:induction false} FilledHasType(ms: seq<Member>, fs: seq<Field>, pick: int, w: Const)
    requires Fills(ms, fs, |fs|, pick, w) && DistinctFields(fs) && -1 <= pick < |fs|
    ensures HasType(StructT(fs), StructC(ms))
    ensures pick >= 0 ==> var k := LastMember(ms, fs[pick].name); k >= 0 && ms[k].val == w
  {
    hide LastMember, LastField;
    forall i | 0 <= i < |fs|
      ensures var k := LastMember(ms, fs[i].name);
              if k >= 0 then HasType(fs[i].ty, ms[k].val) && (i == pick ==> ms[k].val == w) else
              fs[i].optional && i != pick
    {
      FieldFilled(ms, fs, i, pick, w);
    }
    forall k | 0 <= k < |ms| ensures LastField(fs, ms[k].name) >= 0 {
      var i := FieldOfMember(ms, k, fs, pick, w);
    }
  }

  lemma {:induction false} FieldFilled(ms: seq<Member>, fs: seq<Field>, i: nat, pick: int, w: Const)
    requires Fills(ms, fs, |fs|, pick, w) && DistinctFields(fs) && i < |fs|
    ensures var k := LastMember(ms, fs[i].name);
            if k >= 0 then HasType(fs[i].ty, ms[k].val) && (i == pick ==> ms[k].val == w) else
            fs[i].optional && i != pick
  {
    hide LastMember, HasType;
    var k := LastMember(ms, fs[i].name);
    if k >= 0 {
      var j := FieldOfMember(ms, k, fs, pick, w);
      assert j == i;
    }
  }

  lemma {:induction false} HasTypeInhabited(t: Type, v: Const)
    requires HasType(t, v)
    ensures Inhabited(t)
    decreases t
  {
    match t
    case UnionT(alts) =>
      var i :| 0 <= i < |alts| && HasType(alts[i], v);
      HasTypeInhabited(alts[i], v);
    case PairT(a, b) =>
      HasTypeInhabited(a, if v.PairC? then v.first else v.elems[0]);
      HasTypeInhabited(b, if v.PairC? then v.second else v.elems[1]);
    case TupleT(ts) =>
      forall i | 0 <= i < |ts| ensures Inhabited(ts[i]) {
        HasTypeInhabited(ts[i], if v.TupleC? then v.parts[i] else if i == 0 then v.first else v.second);
      }
    case StructT(fs) =>
      forall i | 0 <= i < |fs| ensures fs[i].optional || Inhabited(fs[i].ty) {
        var k := LastMember(v.members, fs[i].name);
        if k >= 0 { HasTypeInhabited(fs[i].ty, v.members[k].val); }
      }
    case _ =>
  }

  lemma {:induction false} ScalarsOnly(t: Type, v: Const)
    requires HasType(t, v) && ScalarOnly(t)
    ensures HasBase(v, "/any")
    decreases t
  {
    HasTypeInhabited(t, v);
    match t
    case UnionT(alts) =>
      var i :| 0 <= i < |alts| && HasType(alts[i], v);
      ScalarsOnly(alts[i], v);
    case OptionT(a) => if v != NameC("/unit") { ScalarsOnly(a, v); }
    case _ =>
  }

  lemma {:induction false} SomeCompound(t: Type) returns (v: Const)
    requires !ScalarOnly(t) && WellFormed(t)
    ensures HasType(t, v) && IsCompound(v)
    decreases t
  {
    match t
    case UnionT(alts) =>
      var i :| 0 <= i < |alts| && !ScalarOnly(alts[i]);
      v := SomeCompound(alts[i]);
    case ListT(_) => v := ListC([]);
    case MapT(_, _) => v := MapC([]);
    case PairT(a, b) =>
      var x := Inhabit(a);
      var y := Inhabit(b);
      v := PairC(x, y);
    case TupleT(ts) =>
      var vs := InhabitAll(t, |ts|);
      v := TupleC(vs);
    case OptionT(a) => v := SomeCompound(a);
    case StructT(fs) => v := InhabitStruct(t, -1, NameC(""));
  }

  /** Conformance to `/any` is sound exactly for types that have only scalar values. */
  lemma {:induction false} AnySoundIff(l: Type)
    requires WellFormed(l)
    ensures (forall v :: HasType(l, v) ==> HasType(NameT("/any"), v)) <==> ScalarOnly(l)
  {
    if ScalarOnly(l) {
      forall v | HasType(l, v) ensures HasType(NameT("/any"), v) { ScalarsOnly(l, v); }
    } else {
      var v := SomeCompound(l);
      assert !HasType(NameT("/any"), v);
    }
  }

  // ----- Names -----

  lemma {:induction false} UnderTrans(a: string, b: string, c: string)
    requires Under(a, b) && Under(b, c)
    ensures Under(a, c)
  {
    assert a[..|b|] == b && b[..|c|] == c;
    assert a[..|c|] == c;
  }

  /** Names with one slash, at their start. */
  predicate TopLevel(n: string) {
    |n| > 1 && n[0] == '/' && forall k :: 0 < k < |n| ==> n[k] != '/'
  }

  lemma {:induction false} BasesTopLevel(n: string)
    requires IsBase(n)
    ensures TopLevel(n)
  {
  }

  /** Only the name itself and the empty name are above a top-level name. */
  lemma {:induction false} NothingAbove(n: string, top: string)
    requires TopLevel(n) && Under(n, top) && top != ""
    ensures top == n
  {
    assert |top| == |n|;
    assert n[..|top|] == top;
  }

  /** Names whose values are not all names that start with a slash. */
  predicate TopName(n: string) {
    n in {"/any", "/name", "/number", "/float64", "/string", "/bool", "/time", "/duration", "/bytes"}
  }

  /** Conformance of the left name to the right one keeps values. */
  predicate NamesKeep(l: string, r: string) {
    || l == r
    || r == "/any"
    || (r == "" && !TopName(l))
    || (r != "" && (l != "/bot" || r == "/name"))
  }

  lemma {:induction false} NamesSound(l: string, r: string, v: Const)
    requires TypeConforms(NameT(l), NameT(r)) && NamesKeep(l, r) && HasBase(v, l)
    ensures HasBase(v, r)
  {
    if l != r && r != "/any" && r != "/name" {
      if v.NameC? && Under(v.name, l) {
        if l == "/bot" { assert Under("/bot", ""); }
        UnderTrans(v.name, l, r);
      } else {
        BasesTopLevel(l);
        NothingAbove(l, r);
        assert false;
      }
    } else if l != r && r == "/name" && !v.NameC? {
      BasesTopLevel(l);
      NothingAbove(l, r);
      assert false;
    }
  }

  /** A scalar value of the left name that the right one lacks; it is not `/unit`. */
  lemma {:induction false} NamesLose(l: string, r: string) returns (v: Const)
    requires TypeConforms(NameT(l), NameT(r)) && !NamesKeep(l, r)
    ensures HasBase(v, l) && !HasBase(v, r) && v != NameC("/unit")
  {
    if r == "" {
      v := match l
           case "/number" => NumberC(0)
           case "/float64" => FloatC(0)
           case "/string" => StringC("")
           case "/bool" => BoolC(false)
           case "/time" => TimeC(0)
           case "/duration" => DurationC(0)
           case "/bytes" => BytesC("")
           case _ => NameC("x");
    } else {
      v := NameC("/bot");
      if Under("/bot", r) { NothingAbove("/bot", r); assert false; }
    }
  }

  /** Conformance of names keeps all values exactly when the names are as `NamesKeep` says. */
  lemma {:induction false} NamesSoundIff(l: string, r: string)
    requires TypeConforms(NameT(l), NameT(r))
    ensures (forall v :: HasBase(v, l) ==> HasBase(v, r)) <==> NamesKeep(l, r)
  {
    if NamesKeep(l, r) {
      forall v | HasBase(v, l) ensures HasBase(v, r) { NamesSound(l, r, v); }
    } else {
      var v := NamesLose(l, r);
    }
  }

  // ----- When conformance is sound -----

  /** Every name below `/bot` has the type. */
  predicate TakesBot(t: Type) {
    match t
    case NameT(n) => n in {"/bot", "/name", "/any", ""}
    case UnionT(alts) => exists i :: 0 <= i < |alts| && TakesBot(alts[i])
    case OptionT(a) => TakesBot(a)
    case _ => false
  }

  /** Where the left type conforms to the right one, every value of it has the right one. */
  predicate Keeps(l: Type, r: Type)
    decreases l, r
  {
    if l == r || !Inhabited(l) then true
    else if r == NameT("/any") then ScalarOnly(l)
    else if l == NameT("/bot") then TakesBot(r)
    else if l.UnionT? then forall i :: 0 <= i < |l.alts| ==> Keeps(l.alts[i], r)
    else if r.UnionT? then exists i :: 0 <= i < |r.alts| && SetConforms(l, r.alts[i]) && Keeps(l, r.alts[i])
    else
      match (l, r)
      case (NameT(m), NameT(n)) => NamesKeep(m, n)
      case (ListT(a), ListT(b)) => Keeps(a, b)
      case (MapT(a, x), MapT(b, y)) => !Inhabited(a) || !Inhabited(x) || (Keeps(a, b) && Keeps(x, y))
      case (PairT(a, x), PairT(b, y)) => Keeps(a, b) && Keeps(x, y)
      case (TupleT(ts), TupleT(us)) => |ts| == |us| && forall i :: 0 <= i < |ts| ==> Keeps(ts[i], us[i])
      case (OptionT(a), OptionT(b)) => Keeps(a, b)
      case (StructT(fs), StructT(gs)) =>
        && (forall i :: 0 <= i < |fs| && Inhabited(fs[i].ty) ==> LastField(gs, fs[i].name) >= 0)
        && (forall j :: 0 <= j < |gs| && !gs[j].optional ==> RequiredIn(fs, gs[j].name))
        && (forall j :: 0 <= j < |gs| ==>
              var i := LastField(fs, gs[j].name);
              i >= 0 ==> Keeps(fs[i].ty, gs[j].ty))
      case _ => true
  }

  predicate RequiredIn(fs: seq<Field>, n: string) {
    exists i :: 0 <= i < |fs| && fs[i].name == n && !fs[i].optional
  }

  lemma {:induction false} BotSound(t: Type, v: Const)
    requires TakesBot(t) && HasBase(v, "/bot")
    ensures HasType(t, v)
    decreases t
  {
    match t
    case NameT(n) => if n == "" { UnderTrans(v.name, "/bot", ""); }
    case UnionT(alts) =>
      var i :| 0 <= i < |alts| && TakesBot(alts[i]);
      BotSound(alts[i], v);
    case OptionT(a) => BotSound(a, v);
  }

  /** A value of a type has every type to which the type conforms with `Keeps`. */
  lemma {:induction false} ConformsSound(l: Type, r: Type, v: Const)
    requires SetConforms(l, r) && Keeps(l, r) && HasType(l, v)
    ensures HasType(r, v)
    decreases l, r, 1
  {
    HasTypeInhabited(l, v);
    if l != r {
      if r == NameT("/any") {
        ScalarsOnly(l, v);
      } else if l == NameT("/bot") {
        BotSound(r, v);
      } else if l.UnionT? {
        var i :| 0 <= i < |l.alts| && HasType(l.alts[i], v);
        ConformsSound(l.alts[i], r, v);
      } else if r.UnionT? {
        var i :| 0 <= i < |r.alts| && SetConforms(l, r.alts[i]) && Keeps(l, r.alts[i]);
        ConformsSound(l, r.alts[i], v);
      } else if l.NameT? && r.NameT? {
        NamesSound(l.name, r.name, v);
      } else if l.StructT? {
        StructSound(l, r, v);
      } else if !l.SingletonT? {
        PartsSound(l, r, v);
      }
    }
  }

  /** The types are compared by their parts. */
  ghost predicate ByParts(l: Type, r: Type) {
    TypeConforms(l, r) && l != r && r != NameT("/any") && !l.UnionT? && !r.UnionT? && !l.NameT? && !l.SingletonT?
  }

  lemma {:induction false} PartsSound(l: Type, r: Type, v: Const)
    requires ByParts(l, r) && !l.StructT? && Inhabited(l) && Keeps(l, r) && HasType(l, v)
    ensures HasType(r, v)
    decreases l, r, 0
  {
    match l
    case ListT(a) =>
      forall i | 0 <= i < |v.elems| ensures HasType(r.elem, v.elems[i]) { ConformsSound(a, r.elem, v.elems[i]); }
    case MapT(a, x) =>
      forall i | 0 <= i < |v.entries| ensures HasType(r.key, v.entries[i].key) && HasType(r.val, v.entries[i].val) {
        HasTypeInhabited(a, v.entries[i].key);
        HasTypeInhabited(x, v.entries[i].val);
        ConformsSound(a, r.key, v.entries[i].key);
        ConformsSound(x, r.val, v.entries[i].val);
      }
    case PairT(a, b) =>
      if v.PairC? {
        ConformsSound(a, r.first, v.first);
        ConformsSound(b, r.second, v.second);
      } else {
        ConformsSound(a, r.first, v.elems[0]);
        ConformsSound(b, r.second, v.elems[1]);
      }
    case TupleT(ts) =>
      if v.TupleC? {
        forall i | 0 <= i < |ts|
          ensures HasType(r.parts[i], v.parts[i]) { ConformsSound(ts[i], r.parts[i], v.parts[i]); }
      } else {
        ConformsSound(ts[0], r.parts[0], v.first);
        ConformsSound(ts[1], r.parts[1], v.second);
      }
    case OptionT(a) =>
      if v != NameC("/unit") { ConformsSound(a, r.arg, v); }
  }

  lemma {:induction false} StructSound(l: Type, r: Type, v: Const)
    requires ByParts(l, r) && l.StructT? && Inhabited(l) && Keeps(l, r) && HasType(l, v)
    ensures HasType(r, v)
    decreases l, r, 0
  {
    var fs, gs := l.fields, r.fields;
    forall j | 0 <= j < |gs|
      ensures var k := LastMember(v.members, gs[j].name);
              if k >= 0 then HasType(gs[j].ty, v.members[k].val) else gs[j].optional
    {
      var k := LastMember(v.members, gs[j].name);
      if k >= 0 {
        var i := LastField(fs, gs[j].name);
        assert LastField(fs, v.members[k].name) >= 0;
        ConformsSound(fs[i].ty, gs[j].ty, v.members[k].val);
      }
    }
    forall k | 0 <= k < |v.members| ensures LastField(gs, v.members[k].name) >= 0 {
      var i := LastField(fs, v.members[k].name);
      var last := LastMember(v.members, fs[i].name);
      assert last >= 0;
      HasTypeInhabited(fs[i].ty, v.members[last].val);
    }
  }

  // ----- Where conformance is not sound -----

  /** No alternatives to choose from on the right. */
  predicate UnionFree(t: Type) {
    match t
    case NameT(_) => true
    case SingletonT(_) => true
    case UnionT(_) => false
    case ListT(e) => UnionFree(e)
    case MapT(k, x) => UnionFree(k) && UnionFree(x)
    case PairT(a, b) => UnionFree(a) && UnionFree(b)
    case TupleT(ts) => forall i :: 0 <= i < |ts| ==> UnionFree(ts[i])
    case OptionT(a) => UnionFree(a)
    case StructT(fs) => forall i :: 0 <= i < |fs| ==> UnionFree(fs[i].ty)
  }

  lemma {:induction false} BotLost(t: Type) returns (v: Const)
    requires !TakesBot(t) && UnionFree(t)
    ensures HasBase(v, "/bot") && !HasType(t, v) && v != NameC("/unit")
    decreases t
  {
    v := NameC("/bot");
    match t
    case NameT(n) => if Under("/bot", n) { NothingAbove("/bot", n); assert false; }
    case SingletonT(c) => if c == v { v := NameC("/bot/x"); }
    case OptionT(a) => v := BotLost(a);
    case _ =>
  }

  /** Where `Keeps` fails, some value is lost; it is not `/unit`. */
  lemma {:induction false} SomeLost(l: Type, r: Type) returns (v: Const)
    requires SetConforms(l, r) && !Keeps(l, r) && UnionFree(r) && WellFormed(l)
    ensures HasType(l, v) && !HasType(r, v) && v != NameC("/unit")
    decreases l, r, 2
  {
    if r == NameT("/any") {
      v := SomeCompound(l);
    } else if l == NameT("/bot") {
      v := BotLost(r);
    } else if l.UnionT? {
      var i :| 0 <= i < |l.alts| && !Keeps(l.alts[i], r);
      v := SomeLost(l.alts[i], r);
    } else if l.NameT? {
      v := NamesLose(l.name, r.name);
    } else if l.StructT? {
      v := StructLost(l, r);
    } else {
      v := PartLost(l, r);
    }
  }

  lemma {:induction false} TwoLost(a: Type, b: Type, c: Type, d: Type) returns (x: Const, y: Const)
    requires SetConforms(a, b) && SetConforms(c, d) && UnionFree(b) && UnionFree(d) && WellFormed(a) && WellFormed(c)
    requires Inhabited(a) && Inhabited(c) && (!Keeps(a, b) || !Keeps(c, d))
    ensures HasType(a, x) && HasType(c, y) && (!HasType(b, x) || !HasType(d, y))
    decreases (if Keeps(a, b) then c else a), (if Keeps(a, b) then d else b), 3
  {
    x := Inhabit(a);
    y := Inhabit(c);
    if !Keeps(a, b) { x := SomeLost(a, b); } else { y := SomeLost(c, d); }
  }

  lemma {:induction false} PartLost(l: Type, r: Type) returns (v: Const)
    requires ByParts(l, r) && !l.StructT? && !Keeps(l, r) && UnionFree(r) && WellFormed(l)
    ensures HasType(l, v) && !HasType(r, v) && v != NameC("/unit")
    decreases l, r, 1
  {
    match l
    case ListT(a) =>
      var x := SomeLost(a, r.elem);
      v := ListC([x]);
      assert v.elems[0] == x;
    case MapT(a, x) =>
      var k, y := TwoLost(a, r.key, x, r.val);
      v := MapC([Entry(k, y)]);
      assert v.entries[0] == Entry(k, y);
    case PairT(a, b) =>
      var x, y := TwoLost(a, r.first, b, r.second);
      v := PairC(x, y);
    case TupleT(ts) => v := TupleLost(l, r);
    case OptionT(a) => v := SomeLost(a, r.arg);
  }

  lemma {:induction false} TupleLost(l: Type, r: Type) returns (v: Const)
    requires ByParts(l, r) && l.TupleT? && !Keeps(l, r) && UnionFree(r) && WellFormed(l)
    ensures HasType(l, v) && !HasType(r, v) && v.TupleC?
    decreases l, r, 0
  {
    var ts := l.parts;
    var vs := InhabitAll(l, |ts|);
    var i :| 0 <= i < |ts| && !Keeps(ts[i], r.parts[i]);
    var x := SomeLost(ts[i], r.parts[i]);
    v := TupleC(vs[i := x]);
    assert !HasType(r.parts[i], v.parts[i]);
  }

  lemma {:induction false} StructLost(l: Type, r: Type) returns (v: Const)
    requires ByParts(l, r) && l.StructT? && !Keeps(l, r) && UnionFree(r) && WellFormed(l)
    ensures HasType(l, v) && !HasType(r, v) && v != NameC("/unit")
    decreases l, r, 1
  {
    assert r.StructT? && Inhabited(l);
    hide HasType, SetConforms, TypeConforms, UnionFree, WellFormed, ScalarOnly, TakesBot, Inhabited, RequiredIn,
      LastField;
    var fs, gs := l.fields, r.fields;
    if i :| 0 <= i < |fs| && Inhabited(fs[i].ty) && LastField(gs, fs[i].name) == -1 {
      v := ExtraLost(l, r, i);
    } else if j :| 0 <= j < |gs| && !gs[j].optional && !RequiredIn(fs, gs[j].name) {
      v := MissingLost(l, r, j);
    } else {
      var j :| 0 <= j < |gs| && LastField(fs, gs[j].name) >= 0 && !Keeps(fs[LastField(fs, gs[j].name)].ty, gs[j].ty);
      v := WorseLost(l, r, j);
    }
  }

  lemma {:induction false} WorseLost(l: Type, r: Type, j: nat) returns (v: Const)
    requires ByParts(l, r) && l.StructT? && r.StructT? && Inhabited(l) && UnionFree(r) && WellFormed(l)
    requires j < |r.fields| && LastField(l.fields, r.fields[j].name) >= 0
    requires !Keeps(l.fields[LastField(l.fields, r.fields[j].name)].ty, r.fields[j].ty)
    ensures HasType(l, v) && !HasType(r, v) && v.StructC?
    decreases l, r, 0
  {
    var i := LastField(l.fields, r.fields[j].name);
    hide HasType, Keeps, LastMember, Inhabited;
    var x := SomeLost(l.fields[i].ty, r.fields[j].ty);
    v := FieldLost(l, r, i, j, x);
  }

  lemma {:induction false} ExtraLost(l: Type, r: Type, i: nat) returns (v: Const)
    requires l.StructT? && r.StructT? && Inhabited(l) && WellFormed(l)
    requires i < |l.fields| && Inhabited(l.fields[i].ty) && LastField(r.fields, l.fields[i].name) == -1
    ensures HasType(l, v) && !HasType(r, v) && v.StructC?
  {
    hide LastField;
    var x := Inhabit(l.fields[i].ty);
    v := InhabitStruct(l, i, x);
    assert v.members[LastMember(v.members, l.fields[i].name)].name == l.fields[i].name;
  }

  lemma {:induction false} MissingLost(l: Type, r: Type, j: nat) returns (v: Const)
    requires l.StructT? && r.StructT? && Inhabited(l) && WellFormed(l)
    requires j < |r.fields| && !r.fields[j].optional && !RequiredIn(l.fields, r.fields[j].name)
    ensures HasType(l, v) && !HasType(r, v) && v.StructC?
  {
    hide LastField, LastMember;
    v := InhabitStruct(l, -1, NameC(""));
    assert LastMember(v.members, r.fields[j].name) == -1;
  }

  lemma {:induction false} FieldLost(l: Type, r: Type, i: nat, j: nat, x: Const) returns (v: Const)
    requires l.StructT? && r.StructT? && Inhabited(l) && WellFormed(l)
    requires i < |l.fields| && j < |r.fields| && l.fields[i].name == r.fields[j].name
    requires HasType(l.fields[i].ty, x) && !HasType(r.fields[j].ty, x)
    ensures HasType(l, v) && !HasType(r, v) && v.StructC?
  {
    hide LastField, LastMember;
    v := InhabitStruct(l, i, x);
    assert v.members[LastMember(v.members, r.fields[j].name)].val == x;
  }

  /** Conformance to a type without alternatives is sound exactly where `Keeps` says so. */
  lemma {:induction false} ConformsSoundIff(l: Type, r: Type)
    requires SetConforms(l, r) && UnionFree(r) && WellFormed(l)
    ensures (forall v :: HasType(l, v) ==> HasType(r, v)) <==> Keeps(l, r)
  {
    if Keeps(l, r) {
      forall v | HasType(l, v) ensures HasType(r, v) { ConformsSound(l, r, v); }
    } else {
      var v := SomeLost(l, r);
    }
  }

  lemma {:induction false} OneOfTwo(a: Type, b: Type, v: Const)
    ensures HasType(UnionT([a, b]), v) <==> HasType(a, v) || HasType(b, v)
    ensures Inhabited(a) ==> Inhabited(UnionT([a, b]))
    ensures !ScalarOnly(a) ==> !ScalarOnly(UnionT([a, b]))
  {
    var alts := UnionT([a, b]).alts;
    assert alts[0] == a && alts[1] == b;
  }

  lemma {:induction false} TwoConform(a: Type, b: Type, r: Type)
    requires r != NameT("/any") && r != UnionT([a, b])
    ensures SetConforms(UnionT([a, b]), r) <==> SetConforms(a, r) && SetConforms(b, r)
  {
    var alts := UnionT([a, b]).alts;
    assert alts[0] == a && alts[1] == b;
  }

  lemma {:induction false} PairParts(a: Type, x: Type, t: Type)
    requires Inhabited(a) && Inhabited(t) && a != x
    ensures SetConforms(PairT(a, t), PairT(x, t)) <==> SetConforms(a, x)
    ensures Keeps(PairT(a, t), PairT(x, t)) <==> Keeps(a, x)
  {
    hide HasType, ScalarOnly;
    assert SetConforms(t, t) && Keeps(t, t) && Inhabited(PairT(a, t));
  }

  /** The pair of a list or a map conforms to neither pair, and loses values as a pair of `/any`. */
  lemma {:induction false} PairOfEither(t: Type)
    requires Inhabited(t)
    ensures var l := PairT(UnionT([ListT(t), MapT(t, t)]), t);
            && !SetConforms(l, PairT(ListT(t), t)) && !SetConforms(l, PairT(MapT(t, t), t))
            && SetConforms(l, PairT(NameT("/any"), t)) && !Keeps(l, PairT(NameT("/any"), t)) && Inhabited(l)
  {
    var both := UnionT([ListT(t), MapT(t, t)]);
    assert !TypeConforms(ListT(t), MapT(t, t)) && !TypeConforms(MapT(t, t), ListT(t));
    assert !SetConforms(ListT(t), MapT(t, t)) && !SetConforms(MapT(t, t), ListT(t));
    TwoConform(ListT(t), MapT(t, t), ListT(t));
    TwoConform(ListT(t), MapT(t, t), MapT(t, t));
    OneOfTwo(ListT(t), MapT(t, t), NameC(""));
    assert SetConforms(both, NameT("/any")) && !Keeps(both, NameT("/any"));
    hide SetConforms, Keeps, TypeConforms;
    PairParts(both, ListT(t), t);
    PairParts(both, MapT(t, t), t);
    PairParts(both, NameT("/any"), t);
  }

  function ThreePairs(t: Type): Type {
    UnionT([PairT(ListT(t), t), PairT(MapT(t, t), t), PairT(NameT("/any"), t)])
  }

  lemma {:induction false} ThirdOnly(l: Type, t: Type)
    requires l.PairT? && Inhabited(l) && SetConforms(l, PairT(NameT("/any"), t)) && !Keeps(l, PairT(NameT("/any"), t))
    requires !SetConforms(l, PairT(ListT(t), t)) && !SetConforms(l, PairT(MapT(t, t), t))
    ensures SetConforms(l, ThreePairs(t)) && !Keeps(l, ThreePairs(t))
  {
    hide HasType, ScalarOnly, TypeConforms;
    var alts := ThreePairs(t).alts;
    assert alts[0] == PairT(ListT(t), t) && alts[1] == PairT(MapT(t, t), t) && alts[2] == PairT(NameT("/any"), t);
  }

  lemma {:induction false} OneOfThree(t: Type, v: Const)
    requires HasType(PairT(UnionT([ListT(t), MapT(t, t)]), t), v)
    ensures HasType(ThreePairs(t), v)
  {
    var alts := ThreePairs(t).alts;
    assert alts[0] == PairT(ListT(t), t) && alts[1] == PairT(MapT(t, t), t);
    OneOfTwo(ListT(t), MapT(t, t), if v.PairC? then v.first else v.elems[0]);
    assert HasType(alts[0], v) || HasType(alts[1], v);
  }

  /** With alternatives on the right `Keeps` is sufficient only: here the one alternative to
      which the pair conforms loses values, and the two others together have them all. */
  lemma {:induction false} AlternativesTogether(t: Type)
    requires Inhabited(t)
    ensures var l := PairT(UnionT([ListT(t), MapT(t, t)]), t);
            SetConforms(l, ThreePairs(t)) && !Keeps(l, ThreePairs(t)) &&
            forall v :: HasType(l, v) ==> HasType(ThreePairs(t), v)
  {
    hide HasType, Keeps, SetConforms, Inhabited;
    var l := PairT(UnionT([ListT(t), MapT(t, t)]), t);
    PairOfEither(t);
    ThirdOnly(l, t);
    forall v | HasType(l, v) ensures HasType(ThreePairs(t), v) { OneOfThree(t, v); }
  }

  /** `/any` is a type to which every type conforms, but no compound value has it; `/bot`
      conforms to every type, but the name `/bot` has it. */
  lemma {:induction false} AnyAndBotUnsound()
    ensures var list, v := ListT(NameT("/number")), ListC([NumberC(1)]);
            SetConforms(list, NameT("/any")) && HasType(list, v) && !HasType(NameT("/any"), v)
    ensures var v := NameC("/bot");
            SetConforms(NameT("/bot"), NameT("/number")) && HasType(NameT("/bot"), v) && !HasType(NameT("/number"), v)
  {
    assert !("/number" <= "/bot");
  }

  /** A struct type conforms to one with fewer fields, whose values have no further ones. */
  lemma {:induction false} ExtraFieldUnsound(n: string, t: Type, x: Const)
    requires HasType(t, x)
    ensures var wide, v := StructT([Field(n, t, false)]), StructC([Member(n, x)]);
            SetConforms(wide, StructT([])) && HasType(wide, v) && !HasType(StructT([]), v)
  {
    var fs, ms := [Field(n, t, false)], [Member(n, x)];
    assert fs[0].name == n && ms[0].name == n;
    assert LastMember(ms, n) == 0 && LastField(fs, n) == 0;
    assert LastField(StructT([]).fields, ms[0].name) == -1;
  }

  /** A field that is optional on the left conforms to one that is required on the right. */
  lemma {:induction false} OptionalFieldUnsound(n: string, t: Type)
    ensures var loose, tight := StructT([Field(n, t, true)]), StructT([Field(n, t, false)]);
            SetConforms(loose, tight) && HasType(loose, StructC([])) && !HasType(tight, StructC([]))
  {
    var fs, gs := [Field(n, t, true)], [Field(n, t, false)];
    assert fs[0].name == n && gs[0].name == n;
    assert LastField(fs, n) == 0 && LastMember(StructC([]).members, gs[0].name) == -1;
  }
}
