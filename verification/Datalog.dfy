/** Rules, plans and values: the data shared by the analysis, the planner, the
    interpreter and the code generator.

    Names that the program compares as strings (built-in predicates, comparison
    operators) are constructors here, so that a dispatch on a name is a `match`. */
module Datalog {

  datatype Option<+T> = None | Some(value: T)

  /** Planning and evaluation either give a value or fail; error texts are not modelled. */
  datatype Result<+T> = Ok(value: T) | Err

  // ----- Values -----

  datatype Kind = ListKind | PairKind | MapKind | StructKind

  datatype Value =
    | Number(n: int)
    | Float(bits: int)
    | Str(s: string)
    | Name(name: string)
    | Time(nanos: int)
    | Duration(nanos: int)
    | Compound(kind: Kind, elems: seq<Value>)
    | Null

  type Tuple = seq<Value>

  // ----- Names -----

  /** A variable of the rule, or one interned by the planner as `$prefix_id`. */
  datatype Var = User(name: string) | Fresh(prefix: string, id: nat)

  datatype CmpOp = Eq | Neq | Lt | Le | Gt | Ge

  datatype Order = OLt | OLe | OGt | OGe

  datatype Domain = Plain | TimeDomain | DurationDomain

  datatype Test = StartsWith | EndsWith | Contains | MatchPrefix

  /** A predicate symbol.  `Other` is a name that starts with a colon but is no
      built-in the planner knows: it plans a positive occurrence as a relation. */
  datatype Pred =
    | Compare(domain: Domain, order: Order)
    | Check(test: Test)
    | MatchField
    | ListMember
    | Other(name: string)
    | Rel(name: string)
  {
    predicate IsRelation() {
      Rel? || Other?
    }

    predicate IsFilter() {
      Compare? || Check?
    }
  }

  function OrderOp(o: Order): CmpOp {
    match o
    case OLt => Lt
    case OLe => Le
    case OGt => Gt
    case OGe => Ge
  }

  // ----- Rules -----

  datatype Constant =
    | CNumber(n: int)
    | CFloat(bits: int)
    | CString(s: string)
    | CName(name: string)
    | CTime(nanos: int)
    | CDuration(nanos: int)

  function ConstValue(c: Constant): Value {
    match c
    case CNumber(n) => Number(n)
    case CFloat(b) => Float(b)
    case CString(s) => Str(s)
    case CName(s) => Name(s)
    case CTime(t) => Time(t)
    case CDuration(d) => Duration(d)
  }

  datatype LiteralKind = ListLiteral | MapLiteral | StructLiteral

  /** A base term.  The parts of a map or struct literal are already interleaved
      (key, value, key, value, ...).  `Unsupported` is a term the planner cannot evaluate. */
  datatype Term =
    | VarTerm(v: Var)
    | ConstTerm(c: Constant)
    | Apply(fn: string, args: seq<Term>)
    | Literal(kind: LiteralKind, parts: seq<Term>)
    | Unsupported

  function LiteralFn(k: LiteralKind): string {
    match k
    case ListLiteral => "fn:list"
    case MapLiteral => "fn:map"
    case StructLiteral => "fn:struct"
  }

  datatype Premise =
    | Atom(pred: Pred, args: seq<Term>)
    | NegAtom(pred: Pred, args: seq<Term>)
    | Equal(l: Term, r: Term)
    | Inequal(l: Term, r: Term)

  datatype Head = Head(rel: Pred, args: seq<Term>)

  /** A rule without a transform part. */
  datatype Rule = Rule(head: Head, premises: seq<Premise>)

  function TermVars(t: Term): set<Var>
    decreases t, 1
  {
    match t
    case VarTerm(v) => {v}
    case ConstTerm(_) => {}
    case Apply(_, args) => TermsVars(args)
    case Literal(_, parts) => TermsVars(parts)
    case Unsupported => {}
  }

  function TermsVars(ts: seq<Term>): set<Var>
    decreases ts, 0
  {
    if ts == [] then {} else TermVars(ts[0]) + TermsVars(ts[1..])
  }

  function PremiseVars(p: Premise): set<Var> {
    match p
    case Atom(_, args) => TermsVars(args)
    case NegAtom(_, args) => TermsVars(args)
    case Equal(l, r) => TermVars(l) + TermVars(r)
    case Inequal(l, r) => TermVars(l) + TermVars(r)
  }

  function PremisesVars(ps: seq<Premise>): set<Var> {
    if ps == [] then {} else PremiseVars(ps[0]) + PremisesVars(ps[1..])
  }

  /** The variables that are arguments of their own, not inside a compound term. */
  function DirectVars(args: seq<Term>): set<Var> {
    if args == [] then {}
    else (if args[0].VarTerm? then {args[0].v} else {}) + DirectVars(args[1..])
  }

  ghost predicate UserVars(vs: set<Var>) {
    forall v :: v in vs ==> v.User?
  }

  /** Every variable was written in the program, as after parsing and lowering. */
  ghost predicate Parsed(r: Rule) {
    UserVars(PremisesVars(r.premises)) && UserVars(TermsVars(r.head.args))
  }

  // ----- Physical plans -----

  datatype Operand = OVar(v: Var) | OConst(c: Constant)

  datatype Expr = ValueOf(o: Operand) | Call(fn: string, args: seq<Operand>)

  datatype Cond =
    | Cmp(op: CmpOp, left: Operand, right: Operand)
    | Negation(rel: Pred, args: seq<Operand>)
    | CallCheck(pred: Pred, args: seq<Operand>)
    | Not(inner: Cond)

  datatype Source =
    | Scan(rel: Pred, vars: seq<Var>)
    | ScanDelta(rel: Pred, vars: seq<Var>)
    | IndexLookup(rel: Pred, col: nat, key: Operand, vars: seq<Var>)

  datatype Op =
    | Nop
    | Iterate(source: Source, body: Op)
    | Filter(cond: Cond, body: Op)
    | Insert(rel: Pred, args: seq<Operand>)
    | Let(v: Var, expr: Expr, body: Op)
    | HashJoin(buildRel: Pred, buildVars: seq<Var>, probeRel: Pred, probeVars: seq<Var>, keys: seq<Var>, body: Op)
    | BindField(source_: Operand, field: string, v: Var, body: Op)
    | IterateList(list: Operand, v: Var, body: Op)

  datatype Fact = Fact(rel: Pred, tuple: Tuple)
}
