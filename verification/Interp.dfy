/** The meaning of plans and of rules.

    `Run` is the scoped meaning of a plan: every loop, binding or test yields the
    environments under which the body runs.  The interpreter as written, with one mutable
    environment that keeps the bindings of finished loops, is `Exec` in the module `Scope`. */
module Interp {
  import opened Datalog

  type Env = map<Var, Value>

  datatype Ordering = Less | Same | Greater

  /** The store and the built-in functions as a plan sees them.  Inserted facts go to a
      tier that no scan of the same pass reads, so the tables are fixed during a pass. */
  datatype Machine = Machine(
    full: Pred -> seq<Tuple>,
    delta: Pred -> seq<Tuple>,
    index: (Pred, nat, Value) -> seq<Tuple>,
    fn: (string, seq<Value>) -> Result<Value>,
    test: (Test, Value, Value) -> Result<bool>,
    cmp: (Value, Value) -> Ordering)
  {
    /** An index lookup returns rows of the relation, and none with the key is missing.
        (The in-memory store may return more: it indexes compound values by kind and length.) */
    ghost predicate IndexSound() {
      forall r: Pred, c: nat, k: Value, row: Tuple {:trigger row in index(r, c, k)} ::
        (row in index(r, c, k) ==> row in full(r)) &&
        (row in full(r) && c < |row| && row[c] == k ==> row in index(r, c, k))
    }

    /** No function or check fails at run time. */
    ghost predicate Total() {
      (forall f: string, vs: seq<Value> {:trigger fn(f, vs)} :: fn(f, vs).Ok?) &&
      (forall t: Test, a: Value, b: Value {:trigger test(t, a, b)} :: test(t, a, b).Ok?)
    }
  }

  // ----- Built-in predicates on values -----

  function Compares(op: CmpOp, a: Value, b: Value, m: Machine): bool {
    match op
    case Eq => a == b
    case Neq => a != b
    case Lt => m.cmp(a, b) == Less
    case Le => m.cmp(a, b) != Greater
    case Gt => m.cmp(a, b) == Greater
    case Ge => m.cmp(a, b) != Less
  }

  /** The value of the first occurrence of the field in interleaved names and values. */
  function FindField(pairs: seq<Value>, field: string): Option<Value> {
    if |pairs| < 2 then None
    else if pairs[0] == Name(field) then Some(pairs[1])
    else FindField(pairs[2..], field)
  }

  function FieldOf(v: Value, field: string): Option<Value> {
    if v.Compound? && v.kind == StructKind then FindField(v.elems, field) else None
  }

  predicate AnyField(pairs: seq<Value>, field: string, value: Value) {
    |pairs| >= 2 &&
    ((pairs[0] == Name(field) && pairs[1] == value) || AnyField(pairs[2..], field, value))
  }

  predicate HasField(v: Value, field: Value, value: Value) {
    v.Compound? && v.kind == StructKind && field.Name? && AnyField(v.elems, field.name, value)
  }

  function ListElems(v: Value): seq<Value> {
    if v.Compound? && v.kind == ListKind then v.elems else []
  }

  // ----- Operands, expressions and conditions of a plan -----

  function EvalOperand(o: Operand, env: Env): Result<Value> {
    match o
    case OVar(v) => if v in env then Ok(env[v]) else Err
    case OConst(c) => Ok(ConstValue(c))
  }

  function EvalOperands(os: seq<Operand>, env: Env): (r: Result<Tuple>)
    ensures r.Ok? ==> |r.value| == |os|
  {
    if os == [] then Ok([])
    else
      match EvalOperand(os[0], env)
      case Err => Err
      case Ok(v) =>
        match EvalOperands(os[1..], env)
        case Err => Err
        case Ok(vs) => Ok([v] + vs)
  }

  function EvalExpr(e: Expr, env: Env, m: Machine): Result<Value> {
    match e
    case ValueOf(o) => EvalOperand(o, env)
    case Call(f, args) =>
      match EvalOperands(args, env)
      case Err => Err
      case Ok(vs) => m.fn(f, vs)
  }

  function MatchesRow(row: Tuple, args: seq<Operand>, env: Env): Result<bool>
    requires |row| == |args|
  {
    if args == [] then Ok(true)
    else
      match EvalOperand(args[0], env)
      case Err => Err
      case Ok(v) => if row[0] != v then Ok(false) else MatchesRow(row[1..], args[1..], env)
  }

  function NoMatch(rows: seq<Tuple>, args: seq<Operand>, env: Env): Result<bool> {
    if rows == [] then Ok(true)
    else if |rows[0]| != |args| then NoMatch(rows[1..], args, env)
    else
      match MatchesRow(rows[0], args, env)
      case Err => Err
      case Ok(hit) => if hit then Ok(false) else NoMatch(rows[1..], args, env)
  }

  function EvalCheck(p: Pred, vs: seq<Value>, m: Machine): Result<bool> {
    match p
    case Check(t) => if |vs| == 2 then m.test(t, vs[0], vs[1]) else Err
    case ListMember => if |vs| == 2 then Ok(vs[0] in ListElems(vs[1])) else Err
    case MatchField => if |vs| == 3 then Ok(HasField(vs[0], vs[1], vs[2])) else Err
    case _ => Err
  }

  function EvalCond(c: Cond, env: Env, m: Machine): Result<bool> {
    match c
    case Cmp(op, l, r) =>
      (match EvalOperands([l, r], env)
       case Err => Err
       case Ok(vs) => Ok(Compares(op, vs[0], vs[1], m)))
    case Negation(rel, args) => NoMatch(m.full(rel), args, env)
    case CallCheck(p, args) =>
      (match EvalOperands(args, env)
       case Err => Err
       case Ok(vs) => EvalCheck(p, vs, m))
    case Not(inner) =>
      match EvalCond(inner, env, m)
      case Err => Err
      case Ok(b) => Ok(!b)
  }

  // ----- Scoped meaning of a plan -----

  function BindRow(env: Env, vars: seq<Var>, row: Tuple): Env
    requires |vars| == |row|
    decreases |vars|
  {
    if vars == [] then env else BindRow(env[vars[0] := row[0]], vars[1..], row[1..])
  }

  /** One environment per row of the right width. */
  function BindRows(env: Env, vars: seq<Var>, rows: seq<Tuple>): seq<Env> {
    if rows == [] then []
    else (if |rows[0]| == |vars| then [BindRow(env, vars, rows[0])] else []) + BindRows(env, vars, rows[1..])
  }

  function BindElems(env: Env, v: Var, elems: seq<Value>): seq<Env> {
    if elems == [] then [] else [env[v := elems[0]]] + BindElems(env, v, elems[1..])
  }

  function Position(v: Var, vars: seq<Var>): (i: nat)
    requires v in vars
    ensures i < |vars| && vars[i] == v
    ensures forall j :: 0 <= j < i ==> vars[j] != v
  {
    if vars[0] == v then 0 else 1 + Position(v, vars[1..])
  }

  function KeyOf(keys: seq<Var>, vars: seq<Var>, row: Tuple): (r: seq<Value>)
    requires |vars| == |row|
    requires forall k :: k in keys ==> k in vars
    ensures |r| == |keys|
    ensures forall i :: 0 <= i < |keys| ==> r[i] == row[Position(keys[i], vars)]
  {
    if keys == [] then [] else [row[Position(keys[0], vars)]] + KeyOf(keys[1..], vars, row)
  }

  /** The build rows of the hash table under the key. */
  function Bucket(keys: seq<Var>, vars: seq<Var>, rows: seq<Tuple>, key: seq<Value>): seq<Tuple>
    requires forall k :: k in keys ==> k in vars
  {
    if rows == [] then []
    else
      (if |rows[0]| == |vars| && KeyOf(keys, vars, rows[0]) == key then [rows[0]] else []) +
      Bucket(keys, vars, rows[1..], key)
  }

  function JoinRows(env: Env, keys: seq<Var>, buildVars: seq<Var>, buildRows: seq<Tuple>,
                    probeVars: seq<Var>, probeRows: seq<Tuple>): seq<Env>
    requires forall k :: k in keys ==> k in buildVars && k in probeVars
  {
    if probeRows == [] then []
    else
      var rest := JoinRows(env, keys, buildVars, buildRows, probeVars, probeRows[1..]);
      if |probeRows[0]| != |probeVars| then rest
      else
        var bucket := Bucket(keys, buildVars, buildRows, KeyOf(keys, probeVars, probeRows[0]));
        BindRows(BindRow(env, probeVars, probeRows[0]), buildVars, bucket) + rest
  }

  function SourceRows(src: Source, env: Env, m: Machine): Result<seq<Tuple>> {
    match src
    case Scan(rel, _) => Ok(m.full(rel))
    case ScanDelta(rel, _) => Ok(m.delta(rel))
    case IndexLookup(rel, col, key, _) =>
      match EvalOperand(key, env)
      case Err => Err
      case Ok(k) => Ok(m.index(rel, col, k))
  }

  /** The environments under which the body of `op` runs. */
  function Branches(op: Op, env: Env, m: Machine): Result<seq<Env>>
    requires !op.Nop? && !op.Insert?
  {
    match op
    case Iterate(src, _) =>
      (match SourceRows(src, env, m)
       case Err => Err
       case Ok(rows) => Ok(BindRows(env, src.vars, rows)))
    case Filter(c, _) =>
      (match EvalCond(c, env, m)
       case Err => Err
       case Ok(b) => Ok(if b then [env] else []))
    case Let(v, e, _) =>
      (match EvalExpr(e, env, m)
       case Err => Err
       case Ok(x) => Ok([env[v := x]]))
    case HashJoin(buildRel, buildVars, probeRel, probeVars, keys, _) =>
      if forall k :: k in keys ==> k in buildVars && k in probeVars then
        Ok(JoinRows(env, keys, buildVars, m.full(buildRel), probeVars, m.full(probeRel)))
      else Err
    case BindField(o, field, v, _) =>
      (match EvalOperand(o, env)
       case Err => Err
       case Ok(s) =>
         match FieldOf(s, field)
         case None => Ok([])
         case Some(x) => Ok([env[v := x]]))
    case IterateList(o, v, _) =>
      match EvalOperand(o, env)
      case Err => Err
      case Ok(l) => Ok(BindElems(env, v, ListElems(l)))
  }

  /** The facts a plan inserts under an environment. */
  function Run(op: Op, env: Env, m: Machine): Result<set<Fact>>
    decreases op, 0, 0
  {
    match op
    case Nop => Ok({})
    case Insert(rel, args) =>
      (match EvalOperands(args, env)
       case Err => Err
       case Ok(vs) => Ok({Fact(rel, vs)}))
    case _ =>
      match Branches(op, env, m)
      case Err => Err
      case Ok(envs) => RunAll(envs, op.body, m)
  }

  function RunAll(envs: seq<Env>, body: Op, m: Machine): Result<set<Fact>>
    decreases body, 1, |envs|
  {
    if envs == [] then Ok({})
    else
      match Run(body, envs[0], m)
      case Err => Err
      case Ok(fs) =>
        match RunAll(envs[1..], body, m)
        case Err => Err
        case Ok(gs) => Ok(fs + gs)
  }

  lemma {:induction false} SplitHead<T>(s: seq<T>)
    requires s != []
    ensures forall x :: x in s <==> x == s[0] || x in s[1..]
  {
    assert s == [s[0]] + s[1..];
  }

  lemma {:induction false} RunAllOk(envs: seq<Env>, body: Op, m: Machine)
    ensures RunAll(envs, body, m).Ok? <==> forall e :: e in envs ==> Run(body, e, m).Ok?
    decreases |envs|
  {
    if envs != [] {
      RunAllOk(envs[1..], body, m);
      SplitHead(envs);
      assert RunAll(envs, body, m).Ok? <==> Run(body, envs[0], m).Ok? && RunAll(envs[1..], body, m).Ok?;
      assert envs[0] in envs;
      if RunAll(envs, body, m).Ok? {
        forall e | e in envs ensures Run(body, e, m).Ok? {
          assert e == envs[0] || e in envs[1..];
        }
      }
    }
  }

  lemma {:induction false} RunAllFacts(envs: seq<Env>, body: Op, m: Machine, f: Fact)
    requires RunAll(envs, body, m).Ok?
    ensures f in RunAll(envs, body, m).value <==>
            exists e :: e in envs && Run(body, e, m).Ok? && f in Run(body, e, m).value
    decreases |envs|
  {
    if envs != [] {
      RunAllFacts(envs[1..], body, m, f);
      SplitHead(envs);
      assert RunAll(envs, body, m).value == Run(body, envs[0], m).value + RunAll(envs[1..], body, m).value;
    }
  }

  // ----- The meaning of rules -----

  function EvalTerm(t: Term, env: Env, m: Machine): Result<Value>
    decreases t, 1
  {
    match t
    case VarTerm(v) => if v in env then Ok(env[v]) else Err
    case ConstTerm(c) => Ok(ConstValue(c))
    case Apply(f, args) =>
      (match EvalTerms(args, env, m)
       case Err => Err
       case Ok(vs) => m.fn(f, vs))
    case Literal(k, parts) =>
      (match EvalTerms(parts, env, m)
       case Err => Err
       case Ok(vs) => m.fn(LiteralFn(k), vs))
    case Unsupported => Err
  }

  function EvalTerms(ts: seq<Term>, env: Env, m: Machine): (r: Result<Tuple>)
    ensures r.Ok? ==> |r.value| == |ts|
    decreases ts, 0
  {
    if ts == [] then Ok([])
    else
      match EvalTerm(ts[0], env, m)
      case Err => Err
      case Ok(v) =>
        match EvalTerms(ts[1..], env, m)
        case Err => Err
        case Ok(vs) => Ok([v] + vs)
  }

  /** An atom holds of its argument values; `rows` is the table of a relation. */
  predicate HoldsOf(p: Pred, args: seq<Term>, vs: Tuple, rows: seq<Tuple>, m: Machine) {
    match p
    case Compare(_, o) => |vs| == 2 && Compares(OrderOp(o), vs[0], vs[1], m)
    case Check(t) => |vs| == 2 && m.test(t, vs[0], vs[1]) == Ok(true)
    case MatchField => |vs| == 3 && vs[1].Name? && FieldOf(vs[0], vs[1].name) == Some(vs[2])
    case ListMember => |vs| == 2 && vs[0] in ListElems(vs[1])
    case Other(_) => vs in rows
    case Rel(_) => vs in rows
  }

  /** The negation of an atom holds of its argument values. */
  predicate FailsOf(p: Pred, vs: Tuple, m: Machine) {
    match p
    case Compare(_, o) => |vs| == 2 && !Compares(OrderOp(o), vs[0], vs[1], m)
    case Check(t) => |vs| == 2 && m.test(t, vs[0], vs[1]) == Ok(false)
    case MatchField => |vs| == 3 && !HasField(vs[0], vs[1], vs[2])
    case ListMember => |vs| == 2 && vs[0] !in ListElems(vs[1])
    case Other(_) => vs !in m.full(p)
    case Rel(_) => vs !in m.full(p)
  }

  /** The premise holds under the assignment, its relation read from `rows`. */
  predicate HoldsIn(p: Premise, sigma: Env, rows: seq<Tuple>, m: Machine) {
    match p
    case Atom(pred, args) =>
      var vs := EvalTerms(args, sigma, m);
      vs.Ok? && HoldsOf(pred, args, vs.value, rows, m)
    case NegAtom(pred, args) =>
      var vs := EvalTerms(args, sigma, m);
      vs.Ok? && FailsOf(pred, vs.value, m)
    case Equal(l, r) =>
      var vs := EvalTerms([l, r], sigma, m);
      vs.Ok? && vs.value[0] == vs.value[1]
    case Inequal(l, r) =>
      var vs := EvalTerms([l, r], sigma, m);
      vs.Ok? && vs.value[0] != vs.value[1]
  }

  /** The premise holds under the assignment in the visible database. */
  predicate Holds(p: Premise, sigma: Env, m: Machine) {
    HoldsIn(p, sigma, if p.Atom? then m.full(p.pred) else [], m)
  }

  function HeadFact(h: Head, sigma: Env, m: Machine): Result<Fact> {
    match EvalTerms(h.args, sigma, m)
    case Err => Err
    case Ok(vs) => Ok(Fact(h.rel, vs))
  }

  /** The assignment satisfies every premise and makes the head the given fact. */
  ghost predicate Satisfies(sigma: Env, r: Rule, f: Fact, m: Machine) {
    (forall p :: p in r.premises ==> Holds(p, sigma, m)) && HeadFact(r.head, sigma, m) == Ok(f)
  }

  /** The declarative meaning of a rule: some assignment satisfies it. */
  ghost predicate Derives(r: Rule, f: Fact, m: Machine) {
    exists sigma: Env :: Satisfies(sigma, r, f, m)
  }

  // ----- Evaluation depends on the variables of a term only -----

  /** The environments give the same value, or none, to each of the variables. */
  ghost predicate AgreeOn(vs: set<Var>, e1: Env, e2: Env) {
    forall v :: v in vs ==> (v in e1 <==> v in e2) && (v in e1 ==> e1[v] == e2[v])
  }

  lemma {:induction false} EvalTermAgree(t: Term, e1: Env, e2: Env, m: Machine)
    requires AgreeOn(TermVars(t), e1, e2)
    ensures EvalTerm(t, e1, m) == EvalTerm(t, e2, m)
    decreases t, 1
  {
    match t
    case Apply(_, args) => EvalTermsAgree(args, e1, e2, m);
    case Literal(_, parts) => EvalTermsAgree(parts, e1, e2, m);
    case _ =>
  }

  lemma {:induction false} EvalTermsAgree(ts: seq<Term>, e1: Env, e2: Env, m: Machine)
    requires AgreeOn(TermsVars(ts), e1, e2)
    ensures EvalTerms(ts, e1, m) == EvalTerms(ts, e2, m)
    decreases ts, 0
  {
    if ts != [] {
      EvalTermAgree(ts[0], e1, e2, m);
      EvalTermsAgree(ts[1..], e1, e2, m);
    }
  }

  /** Every variable of a term that has a value is assigned. */
  lemma {:induction false} EvalTermBound(t: Term, e: Env, m: Machine)
    requires EvalTerm(t, e, m).Ok?
    ensures TermVars(t) <= e.Keys
    decreases t, 1
  {
    match t
    case Apply(_, args) => EvalTermsBound(args, e, m);
    case Literal(_, parts) => EvalTermsBound(parts, e, m);
    case _ =>
  }

  lemma {:induction false} EvalTermsBound(ts: seq<Term>, e: Env, m: Machine)
    requires EvalTerms(ts, e, m).Ok?
    ensures TermsVars(ts) <= e.Keys
    decreases ts, 0
  {
    if ts != [] {
      EvalTermBound(ts[0], e, m);
      EvalTermsBound(ts[1..], e, m);
    }
  }

  lemma {:induction false} EvalTermsAt(ts: seq<Term>, e: Env, m: Machine, i: nat)
    requires EvalTerms(ts, e, m).Ok? && i < |ts|
    ensures EvalTerm(ts[i], e, m) == Ok(EvalTerms(ts, e, m).value[i])
  {
    if i > 0 {
      EvalTermsAt(ts[1..], e, m, i - 1);
    }
  }

  /** A tuple is the value of the arguments when it is so column by column. */
  lemma {:induction false} EvalTermsFrom(ts: seq<Term>, e: Env, m: Machine, vs: Tuple)
    requires |vs| == |ts|
    requires forall i :: 0 <= i < |ts| ==> EvalTerm(ts[i], e, m) == Ok(vs[i])
    ensures EvalTerms(ts, e, m) == Ok(vs)
  {
    if ts != [] {
      assert EvalTerm(ts[0], e, m) == Ok(vs[0]);
      forall i | 0 <= i < |ts| - 1
        ensures EvalTerm(ts[1..][i], e, m) == Ok(vs[1..][i])
      {
        assert ts[1..][i] == ts[i + 1];
      }
      EvalTermsFrom(ts[1..], e, m, vs[1..]);
      assert vs == [vs[0]] + vs[1..];
    }
  }

  lemma {:induction false} HoldsInAgree(p: Premise, e1: Env, e2: Env, rows: seq<Tuple>, m: Machine)
    requires AgreeOn(PremiseVars(p), e1, e2)
    ensures HoldsIn(p, e1, rows, m) == HoldsIn(p, e2, rows, m)
  {
    match p
    case Atom(_, args) => EvalTermsAgree(args, e1, e2, m);
    case NegAtom(_, args) => EvalTermsAgree(args, e1, e2, m);
    case Equal(l, r) => PairVars(l, r); EvalTermsAgree([l, r], e1, e2, m);
    case Inequal(l, r) => PairVars(l, r); EvalTermsAgree([l, r], e1, e2, m);
  }

  lemma {:induction false} PairVars(l: Term, r: Term)
    ensures TermsVars([l, r]) == TermVars(l) + TermVars(r)
  {
    assert [l, r][1..] == [r] && [r][1..] == [];
    assert TermsVars([r]) == TermVars(r) + TermsVars([]);
  }

  // ----- Environments built row by row -----

  lemma {:induction false} BindRowKeys(env: Env, vars: seq<Var>, row: Tuple)
    requires |vars| == |row|
    ensures BindRow(env, vars, row).Keys == env.Keys + set v | v in vars
    ensures forall v :: v in env && v !in vars ==> BindRow(env, vars, row)[v] == env[v]
    decreases |vars|
  {
    if vars != [] {
      BindRowKeys(env[vars[0] := row[0]], vars[1..], row[1..]);
      assert vars == [vars[0]] + vars[1..];
    }
  }

  ghost predicate Distinct(vars: seq<Var>) {
    forall i, j :: 0 <= i < j < |vars| ==> vars[i] != vars[j]
  }

  lemma {:induction false} BindRowAt(env: Env, vars: seq<Var>, row: Tuple, i: nat)
    requires |vars| == |row| && Distinct(vars) && i < |vars|
    ensures vars[i] in BindRow(env, vars, row) && BindRow(env, vars, row)[vars[i]] == row[i]
    decreases |vars|
  {
    if i == 0 {
      BindRowKeys(env[vars[0] := row[0]], vars[1..], row[1..]);
      assert vars[0] !in vars[1..];
    } else {
      BindRowAt(env[vars[0] := row[0]], vars[1..], row[1..], i - 1);
    }
  }

  lemma {:induction false} BindRowsMember(env: Env, vars: seq<Var>, rows: seq<Tuple>, e: Env)
    ensures e in BindRows(env, vars, rows) <==>
            exists row :: row in rows && |row| == |vars| && e == BindRow(env, vars, row)
    decreases |rows|
  {
    if rows != [] {
      BindRowsMember(env, vars, rows[1..], e);
      assert forall row :: row in rows <==> row == rows[0] || row in rows[1..];
    }
  }

  lemma {:induction false} BindElemsMember(env: Env, v: Var, elems: seq<Value>, e: Env)
    ensures e in BindElems(env, v, elems) <==> exists x :: x in elems && e == env[v := x]
    decreases |elems|
  {
    if elems != [] {
      BindElemsMember(env, v, elems[1..], e);
      SplitHead(elems);
      if e == env[v := elems[0]] { assert elems[0] in elems; }
    }
  }

  lemma {:induction false} BucketMember(keys: seq<Var>, vars: seq<Var>, rows: seq<Tuple>, key: seq<Value>, row: Tuple)
    requires forall k :: k in keys ==> k in vars
    ensures row in Bucket(keys, vars, rows, key) <==>
            row in rows && |row| == |vars| && KeyOf(keys, vars, row) == key
    decreases |rows|
  {
    if rows != [] {
      BucketMember(keys, vars, rows[1..], key, row);
    }
  }

  ghost predicate Joins(env: Env, keys: seq<Var>, buildVars: seq<Var>, b: Tuple, probeVars: seq<Var>, p: Tuple, e: Env)
    requires forall k :: k in keys ==> k in buildVars && k in probeVars
  {
    |b| == |buildVars| && |p| == |probeVars| &&
    KeyOf(keys, buildVars, b) == KeyOf(keys, probeVars, p) &&
    e == BindRow(BindRow(env, probeVars, p), buildVars, b)
  }

  lemma {:induction false} JoinRowsMember(env: Env, keys: seq<Var>, buildVars: seq<Var>, buildRows: seq<Tuple>,
                                          probeVars: seq<Var>, probeRows: seq<Tuple>, e: Env)
    requires forall k :: k in keys ==> k in buildVars && k in probeVars
    ensures e in JoinRows(env, keys, buildVars, buildRows, probeVars, probeRows) <==>
            exists b, p :: b in buildRows && p in probeRows && Joins(env, keys, buildVars, b, probeVars, p, e)
    decreases |probeRows|
  {
    if probeRows != [] {
      JoinRowsMember(env, keys, buildVars, buildRows, probeVars, probeRows[1..], e);
      assert forall p :: p in probeRows <==> p == probeRows[0] || p in probeRows[1..];
      if |probeRows[0]| == |probeVars| {
        var key := KeyOf(keys, probeVars, probeRows[0]);
        var bucket := Bucket(keys, buildVars, buildRows, key);
        var env' := BindRow(env, probeVars, probeRows[0]);
        BindRowsMember(env', buildVars, bucket, e);
        forall b { BucketMember(keys, buildVars, buildRows, key, b); }
        assert e in BindRows(env', buildVars, bucket) <==>
               exists b :: b in buildRows && Joins(env, keys, buildVars, b, probeVars, probeRows[0], e);
      }
    }
  }

  /** A negated relation test is a membership test once its arguments have values. */
  lemma {:induction false} NoMatchMeans(rows: seq<Tuple>, args: seq<Operand>, env: Env)
    requires EvalOperands(args, env).Ok?
    ensures NoMatch(rows, args, env) == Ok(EvalOperands(args, env).value !in rows)
    decreases |rows|
  {
    if rows != [] {
      NoMatchMeans(rows[1..], args, env);
      if |rows[0]| == |args| {
        MatchesRowMeans(rows[0], args, env);
      }
    }
  }

  lemma {:induction false} MatchesRowMeans(row: Tuple, args: seq<Operand>, env: Env)
    requires |row| == |args| && EvalOperands(args, env).Ok?
    ensures MatchesRow(row, args, env) == Ok(row == EvalOperands(args, env).value)
    decreases |args|
  {
    if args != [] {
      MatchesRowMeans(row[1..], args[1..], env);
      var vs := EvalOperands(args, env).value;
      assert row == vs <==> row[0] == vs[0] && row[1..] == vs[1..] by {
        assert row == [row[0]] + row[1..] && vs == [vs[0]] + vs[1..];
      }
    }
  }
}
