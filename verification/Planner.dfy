/** The rule compiler: premises in order, each turned into the operation that tests or
    binds it around the plan of the premises that follow.

    The source passes continuations; here the lowering of a term returns the bindings to
    put around the operation that uses it (`Lowered`), which is what the continuation
    builds.  The counter `k` numbers the planner's own variables. */
module Planner {
  import opened Datalog

  datatype Config = Config(delta: Option<Pred>, hashJoin: bool)

  datatype Binding = Binding(v: Var, expr: Expr)

  datatype Lowered = Lowered(lets: seq<Binding>, values: seq<Operand>, next: nat)

  datatype Planned = Planned(op: Op, next: nat)

  // ----- Terms -----

  function LiteralPrefix(kind: LiteralKind): string {
    match kind
    case ListLiteral => "list"
    case MapLiteral => "map"
    case StructLiteral => "struct"
  }

  /** One operand that holds the value of the term, after the bindings of its calls. */
  function LowerTerm(t: Term, k: nat): (r: Result<Lowered>)
    ensures r.Ok? ==> |r.value.values| == 1 && r.value.next >= k
    decreases t, 1
  {
    match t
    case VarTerm(v) => Ok(Lowered([], [OVar(v)], k))
    case ConstTerm(c) => Ok(Lowered([], [OConst(c)], k))
    case Apply(f, args) => LowerCall("call", f, args, k)
    case Literal(kind, parts) => LowerCall(LiteralPrefix(kind), LiteralFn(kind), parts, k)
    case Unsupported => Err
  }

  function LowerCall(prefix: string, f: string, args: seq<Term>, k: nat): (r: Result<Lowered>)
    ensures r.Ok? ==> |r.value.values| == 1 && r.value.next >= k
    decreases args, 1
  {
    match LowerTerms(args, k)
    case Err => Err
    case Ok(a) =>
      var tmp := Fresh(prefix, a.next);
      Ok(Lowered(a.lets + [Binding(tmp, Call(f, a.values))], [OVar(tmp)], a.next + 1))
  }

  function LowerTerms(ts: seq<Term>, k: nat): (r: Result<Lowered>)
    ensures r.Ok? ==> |r.value.values| == |ts| && r.value.next >= k
    decreases ts, 0
  {
    if ts == [] then Ok(Lowered([], [], k))
    else
      match LowerTerm(ts[0], k)
      case Err => Err
      case Ok(a) =>
        match LowerTerms(ts[1..], a.next)
        case Err => Err
        case Ok(b) => Ok(Lowered(a.lets + b.lets, a.values + b.values, b.next))
  }

  function WrapLets(lets: seq<Binding>, body: Op): Op {
    if lets == [] then body else Let(lets[0].v, lets[0].expr, WrapLets(lets[1..], body))
  }

  // ----- What a premise reads and binds at its place -----

  predicate IsUnboundVar(t: Term, bound: set<Var>) {
    t.VarTerm? && t.v !in bound
  }

  /** An equality with an unbound variable on one side is a let-binding; the left side is tried first. */
  function EqBinding(l: Term, r: Term, bound: set<Var>): Option<(Var, Term)> {
    if IsUnboundVar(l, bound) then Some((l.v, r))
    else if IsUnboundVar(r, bound) then Some((r.v, l))
    else None
  }

  /** The variables bound once the premise has been planned.  (The planner also records its
      own scan variables, which no later test asks for.) */
  function BoundAfter(p: Premise, bound: set<Var>): set<Var> {
    match p
    case Atom(pred, args) =>
      if pred.IsRelation() then bound + DirectVars(args)
      else if pred.MatchField? && |args| >= 3 && args[2].VarTerm? then bound + {args[2].v}
      else if pred.ListMember? && |args| >= 1 && args[0].VarTerm? then bound + {args[0].v}
      else bound
    case Equal(l, r) =>
      (match EqBinding(l, r, bound)
       case None => bound
       case Some(b) => bound + {b.0})
    case _ => bound
  }

  // ----- Tests -----

  predicate IsSimple(t: Term) {
    t.VarTerm? || t.ConstTerm?
  }

  /** Negated built-ins refuse an unbound variable argument. */
  predicate ArgsBound(args: seq<Term>, bound: set<Var>) {
    forall t :: t in args && t.VarTerm? ==> t.v in bound
  }

  predicate IsTest(p: Premise, bound: set<Var>) {
    match p
    case Atom(pred, _) => pred.IsFilter()
    case NegAtom(_, _) => true
    case Equal(l, r) => EqBinding(l, r, bound).None?
    case Inequal(_, _) => true
  }

  /** The terms a test evaluates, or an error when the planner refuses it. */
  function TestTerms(p: Premise, bound: set<Var>): Result<seq<Term>>
    requires IsTest(p, bound)
  {
    match p
    case Atom(_, args) => if |args| == 2 then Ok(args) else Err
    case NegAtom(pred, args) =>
      (match pred
       case Compare(_, _) => if |args| == 2 && ArgsBound(args, bound) then Ok(args) else Err
       case Check(_) => if |args| == 2 && ArgsBound(args, bound) then Ok(args) else Err
       case ListMember => if |args| == 2 && ArgsBound(args, bound) then Ok(args) else Err
       case MatchField =>
         if |args| == 3 && args[1].ConstTerm? && args[1].c.CName? && ArgsBound(args, bound)
         then Ok([args[0], args[2]]) else Err
       case Other(_) => Err
       case Rel(_) => if forall t :: t in args ==> IsSimple(t) then Ok(args) else Err)
    case Equal(l, r) => Ok([l, r])
    case Inequal(l, r) => Ok([l, r])
  }

  function TestCond(p: Premise, bound: set<Var>, vs: seq<Operand>): Cond
    requires IsTest(p, bound) && TestTerms(p, bound).Ok? && |vs| == |TestTerms(p, bound).value|
  {
    match p
    case Atom(pred, _) => AtomCond(pred, vs)
    case NegAtom(pred, args) =>
      (match pred
       case Rel(_) => Negation(pred, vs)
       case MatchField => Not(CallCheck(pred, [vs[0], OConst(args[1].c), vs[1]]))
       case ListMember => Not(CallCheck(pred, vs))
       case _ => Not(AtomCond(pred, vs)))
    case Equal(_, _) => Cmp(Eq, vs[0], vs[1])
    case Inequal(_, _) => Cmp(Neq, vs[0], vs[1])
  }

  function AtomCond(pred: Pred, vs: seq<Operand>): Cond
    requires pred.IsFilter() && |vs| == 2
  {
    if pred.Compare? then Cmp(OrderOp(pred.order), vs[0], vs[1]) else CallCheck(pred, vs)
  }

  function PlanTest(p: Premise, bound: set<Var>, ts: seq<Term>, body: Planned): Result<Planned>
    requires IsTest(p, bound) && TestTerms(p, bound) == Ok(ts)
  {
    match LowerTerms(ts, body.next)
    case Err => Err
    case Ok(l) => Ok(Planned(WrapLets(l.lets, Filter(TestCond(p, bound, l.values), body.op)), l.next))
  }

  // ----- Relation atoms -----

  datatype ScanPlan = ScanPlan(vars: seq<Var>, next: nat)

  /** The scan variable of each column: the argument itself at the first occurrence of an
      unbound variable, otherwise a variable of the planner. */
  function ScanVars(args: seq<Term>, bound: set<Var>, k: nat): (r: ScanPlan)
    ensures |r.vars| == |args| && r.next >= k
    decreases |args|
  {
    if args == [] then ScanPlan([], k)
    else if IsUnboundVar(args[0], bound) then
      var rest := ScanVars(args[1..], bound + {args[0].v}, k);
      ScanPlan([args[0].v] + rest.vars, rest.next)
    else
      var rest := ScanVars(args[1..], bound, k + 1);
      ScanPlan([Fresh("scan", k)] + rest.vars, rest.next)
  }

  datatype LookupKey = LookupKey(col: nat, key: Operand)

  /** A constant or a bound variable can serve as an index key. */
  predicate IsKey(t: Term, bound: set<Var>) {
    t.ConstTerm? || (t.VarTerm? && t.v in bound)
  }

  /** The first argument that can serve as an index key. */
  function FindLookup(args: seq<Term>, bound: set<Var>, i: nat): (r: Option<LookupKey>)
    requires i <= |args|
    ensures r.None? <==> forall k :: i <= k < |args| ==> !IsKey(args[k], bound)
    ensures r.Some? ==>
            var c := r.value.col;
            && i <= c < |args| && IsKey(args[c], bound) && (forall k :: i <= k < c ==> !IsKey(args[k], bound))
            && (args[c].VarTerm? ==> r.value.key == OVar(args[c].v))
            && (args[c].ConstTerm? ==> r.value.key == OConst(args[c].c))
    decreases |args| - i
  {
    if i == |args| then None
    else
      match args[i]
      case VarTerm(v) => if v in bound then Some(LookupKey(i, OVar(v))) else FindLookup(args, bound, i + 1)
      case ConstTerm(c) => Some(LookupKey(i, OConst(c)))
      case _ => FindLookup(args, bound, i + 1)
  }

  /** Filters around `body`, the one of column 0 outermost, that compare each column with
      its argument; the column of a variable that scans into itself needs none. */
  function ApplyConstraints(args: seq<Term>, vars: seq<Var>, body: Planned): (r: Result<Planned>)
    requires |vars| == |args|
    ensures r.Ok? ==> r.value.next >= body.next
    decreases |args|
  {
    if args == [] then Ok(body)
    else
      var n := |args| - 1;
      match Constrain(args[n], vars[n], body)
      case Err => Err
      case Ok(inner) => ApplyConstraints(args[..n], vars[..n], inner)
  }

  function Constrain(arg: Term, v: Var, body: Planned): (r: Result<Planned>)
    ensures r.Ok? ==> r.value.next >= body.next
  {
    if arg == VarTerm(v) then Ok(body)
    else
      match LowerTerm(arg, body.next)
      case Err => Err
      case Ok(l) => Ok(Planned(WrapLets(l.lets, Filter(Cmp(Eq, OVar(v), l.values[0]), body.op)), l.next))
  }

  function AtomSource(pred: Pred, args: seq<Term>, bound: set<Var>, vars: seq<Var>, cfg: Config): Source {
    match FindLookup(args, bound, 0)
    case Some(key) => IndexLookup(pred, key.col, key.key, vars)
    case None => if cfg.delta == Some(pred) then ScanDelta(pred, vars) else Scan(pred, vars)
  }

  // ----- Hash joins -----

  /** The arguments as variables when all are unbound, distinct variables. */
  function AllFreshDistinct(args: seq<Term>, bound: set<Var>): (r: Option<seq<Var>>)
    ensures r.Some? ==> |r.value| == |args|
    decreases |args|
  {
    if args == [] then Some([])
    else if !IsUnboundVar(args[0], bound) then None
    else
      match AllFreshDistinct(args[1..], bound + {args[0].v})
      case None => None
      case Some(vs) => Some([args[0].v] + vs)
  }

  function Shared(vs: seq<Var>, ws: seq<Var>): (r: seq<Var>)
    ensures forall v :: v in r <==> v in vs && v in ws
  {
    if vs == [] then [] else (if vs[0] in ws then [vs[0]] else []) + Shared(vs[1..], ws)
  }

  datatype JoinPlan = JoinPlan(build: seq<Var>, probeRel: Pred, probe: seq<Var>, keys: seq<Var>)

  /** A hash join of this atom with the next premise.  Any atom qualifies as the next
      premise: whether its predicate is a built-in is not asked. */
  function TryHashJoin(args: seq<Term>, rest: seq<Premise>, bound: set<Var>): Option<JoinPlan> {
    match AllFreshDistinct(args, bound)
    case None => None
    case Some(build) =>
      if rest == [] || !rest[0].Atom? then None
      else
        match AllFreshDistinct(rest[0].args, bound)
        case None => None
        case Some(probe) =>
          var keys := Shared(build, probe);
          if keys == [] then None else Some(JoinPlan(build, rest[0].pred, probe, keys))
  }

  function VarSet(vs: seq<Var>): set<Var> {
    set v | v in vs
  }

  // ----- The join sequence -----

  function PlanHead(h: Head, k: nat): Result<Planned> {
    match LowerTerms(h.args, k)
    case Err => Err
    case Ok(l) => Ok(Planned(WrapLets(l.lets, Insert(h.rel, l.values)), l.next))
  }

  function PlanJoin(ps: seq<Premise>, bound: set<Var>, k: nat, h: Head, cfg: Config): (r: Result<Planned>)
    ensures r.Ok? ==> r.value.next >= k
    decreases |ps|
  {
    if ps == [] then PlanHead(h, k)
    else if IsTest(ps[0], bound) then
      match TestTerms(ps[0], bound)
      case Err => Err
      case Ok(ts) =>
        match PlanJoin(ps[1..], bound, k, h, cfg)
        case Err => Err
        case Ok(body) => PlanTest(ps[0], bound, ts, body)
    else
      match ps[0]
      case Equal(l, r) => PlanLet(EqBinding(l, r, bound).value, ps, bound, k, h, cfg)
      case Atom(pred, args) =>
        if pred.MatchField? then PlanMatchField(args, ps, bound, k, h, cfg)
        else if pred.ListMember? then PlanListMember(args, ps, bound, k, h, cfg)
        else PlanAtom(pred, args, ps, bound, k, h, cfg)
  }

  function PlanLet(b: (Var, Term), ps: seq<Premise>, bound: set<Var>, k: nat, h: Head,
      cfg: Config): (r: Result<Planned>)
    requires ps != []
    ensures r.Ok? ==> r.value.next >= k
    decreases |ps|, 0
  {
    // A function application is bound directly, without a variable of its own.
    var lowered := if b.1.Apply? then LowerTerms(b.1.args, k) else LowerTerm(b.1, k);
    match lowered
    case Err => Err
    case Ok(l) =>
      match PlanJoin(ps[1..], bound + {b.0}, l.next, h, cfg)
      case Err => Err
      case Ok(body) =>
        Ok(Planned(WrapLets(l.lets, Let(b.0, BoundExpr(b.1, l.values), body.op)), body.next))
  }

  function BoundExpr(t: Term, vs: seq<Operand>): Expr
    requires t.Apply? || |vs| == 1
  {
    if t.Apply? then Call(t.fn, vs) else ValueOf(vs[0])
  }

  function PlanMatchField(args: seq<Term>, ps: seq<Premise>, bound: set<Var>, k: nat, h: Head,
      cfg: Config): (r: Result<Planned>)
    requires ps != []
    ensures r.Ok? ==> r.value.next >= k
    decreases |ps|, 0
  {
    if |args| != 3 || !args[1].ConstTerm? || !args[1].c.CName? then Err
    else if IsUnboundVar(args[2], bound) then
      match PlanJoin(ps[1..], bound + {args[2].v}, k, h, cfg)
      case Err => Err
      case Ok(body) =>
        match LowerTerm(args[0], body.next)
        case Err => Err
        case Ok(l) =>
          Ok(Planned(WrapLets(l.lets, BindField(l.values[0], args[1].c.name, args[2].v, body.op)), l.next))
    else
      match PlanJoin(ps[1..], bound, k + 1, h, cfg)
      case Err => Err
      case Ok(body) =>
        match LowerTerms([args[0], args[2]], body.next)
        case Err => Err
        case Ok(l) =>
          var tmp := Fresh("mf", k);
          var test := Filter(Cmp(Eq, OVar(tmp), l.values[1]), body.op);
          Ok(Planned(WrapLets(l.lets, BindField(l.values[0], args[1].c.name, tmp, test)), l.next))
  }

  function PlanListMember(args: seq<Term>, ps: seq<Premise>, bound: set<Var>, k: nat, h: Head,
      cfg: Config): (r: Result<Planned>)
    requires ps != []
    ensures r.Ok? ==> r.value.next >= k
    decreases |ps|, 0
  {
    if |args| != 2 then Err
    else if IsUnboundVar(args[0], bound) then
      match PlanJoin(ps[1..], bound + {args[0].v}, k, h, cfg)
      case Err => Err
      case Ok(body) =>
        match LowerTerm(args[1], body.next)
        case Err => Err
        case Ok(l) => Ok(Planned(WrapLets(l.lets, IterateList(l.values[0], args[0].v, body.op)), l.next))
    else
      match PlanJoin(ps[1..], bound, k + 1, h, cfg)
      case Err => Err
      case Ok(body) =>
        match LowerTerms([args[1], args[0]], body.next)
        case Err => Err
        case Ok(l) =>
          var tmp := Fresh("listmem", k);
          var test := Filter(Cmp(Eq, OVar(tmp), l.values[1]), body.op);
          Ok(Planned(WrapLets(l.lets, IterateList(l.values[0], tmp, test)), l.next))
  }

  /** The two premises that a hash join consumes, if the planner chooses one here. */
  function ChosenJoin(args: seq<Term>, ps: seq<Premise>, bound: set<Var>, cfg: Config): (r: Option<JoinPlan>)
    requires ps != []
    ensures r.Some? ==> |ps| >= 2 && ps[1].Atom?
  {
    if cfg.hashJoin && cfg.delta.None? then TryHashJoin(args, ps[1..], bound) else None
  }

  function PlanAtom(pred: Pred, args: seq<Term>, ps: seq<Premise>, bound: set<Var>, k: nat, h: Head,
      cfg: Config): (r: Result<Planned>)
    requires ps != []
    ensures r.Ok? ==> r.value.next >= k
    decreases |ps|, 0
  {
    match ChosenJoin(args, ps, bound, cfg)
    case Some(j) =>
      (match PlanJoin(ps[2..], bound + VarSet(j.build) + VarSet(j.probe), k, h, cfg)
       case Err => Err
       case Ok(body) => Ok(Planned(HashJoin(pred, j.build, j.probeRel, j.probe, j.keys, body.op), body.next)))
    case None =>
      var scan := ScanVars(args, bound, k);
      match PlanJoin(ps[1..], bound + DirectVars(args), scan.next, h, cfg)
      case Err => Err
      case Ok(body) =>
        match ApplyConstraints(args, scan.vars, body)
        case Err => Err
        case Ok(inner) => Ok(Planned(Iterate(AtomSource(pred, args, bound, scan.vars, cfg), inner.op), inner.next))
  }

  /** A chosen join is the plan of the premises after its pair of atoms, under one hash join. */
  lemma {:induction false} PlannedJoin(ps: seq<Premise>, bound: set<Var>, k: nat, h: Head, cfg: Config)
    requires ps != [] && ps[0].Atom? && ps[0].pred.IsRelation() && ChosenJoin(ps[0].args, ps, bound, cfg).Some?
    ensures var j := ChosenJoin(ps[0].args, ps, bound, cfg).value;
            var rest := PlanJoin(ps[2..], bound + VarSet(j.build) + VarSet(j.probe), k, h, cfg);
            PlanJoin(ps, bound, k, h, cfg) ==
            if rest.Ok? then
            Ok(Planned(HashJoin(ps[0].pred, j.build, j.probeRel, j.probe, j.keys, rest.value.op),
                       rest.value.next)) else Err
  {
    assert PlanJoin(ps, bound, k, h, cfg) == PlanAtom(ps[0].pred, ps[0].args, ps, bound, k, h, cfg);
  }
}
