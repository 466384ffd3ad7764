/** The target of code generation: structured WebAssembly code over a host that scans,
    inserts and evaluates.  Scans read a snapshot: inserts go to a tier no scan reads. */
module Wasm {
  import opened Datalog
  import opened Interp

  datatype Slot = Ref(v: Value) | NullRef | Int(n: int)

  /** The host's buffers for a tuple that the code sends value by value. */
  datatype Buffer = InsertBuffer | NegationBuffer | JoinBuffer

  datatype Instr =
    | LocalGet(i: nat)
    | LocalSet(i: nat)
    | LocalTee(i: nat)
    | ConstRef(c: Constant)
    | RefNull
    | Drop
    | I32Eqz
    | ScanStart(rel: Pred)
    | ScanDeltaStart(rel: Pred)
    | ScanIndexStart(rel: Pred, col: nat)
    | ListIterStart
    | ScanNext
    | GetCol(col: nat)
    | Begin(buffer: Buffer, rel: Pred)
    | Push(buffer: Buffer)
    | InsertEnd
    | NegationEnd
    | JoinBegin(id: nat)
    | JoinCommit(id: nat, keys: nat)
    | JoinProbe(id: nat)
    | JoinEnd(id: nat)
    | CallFn(fn: string, arity: nat)
    | CallCmp(op: CmpOp)
    | CallTest(pred: Pred)
    | FieldPresent
    | CompoundGet
    | MergeDeltas
    | Block(body: seq<Instr>)
    | Loop(body: seq<Instr>)
    | If(body: seq<Instr>)
    | Br(depth: nat)
    | BrIf(depth: nat)
  {
    predicate IsControl() { Block? || Loop? || If? || Br? || BrIf? }
  }

  /** `iters` are the open iterators with the rows still to come, `rows` the tuples handed
      out, `joins` the build rows of the hash tables. */
  datatype Host = Host(
    iters: map<int, seq<Tuple>>, nextIter: int,
    rows: map<int, Tuple>, nextRow: int,
    buffers: map<Buffer, Tuple>, targets: map<Buffer, Pred>,
    joins: map<nat, seq<Tuple>>,
    facts: set<Fact>)

  datatype State = State(locals: map<nat, Slot>, stack: seq<Slot>, host: Host)
  {
    function Pushed(s: Slot): State { this.(stack := stack + [s]) }
    function Popped(n: nat): State
      requires n <= |stack|
    {
      this.(stack := stack[..|stack| - n])
    }
    function Top(k: nat): Slot
      requires k < |stack|
    {
      stack[|stack| - 1 - k]
    }
  }

  function Truth(b: bool): Slot { Int(if b then 1 else 0) }

  function Refs(vs: seq<Value>): (r: seq<Slot>)
    ensures |r| == |vs| && forall i :: 0 <= i < |vs| ==> r[i] == Ref(vs[i])
  {
    seq(|vs|, i requires 0 <= i < |vs| => Ref(vs[i]))
  }

  function Values(slots: seq<Slot>): (r: Option<seq<Value>>)
    ensures r.Some? <==> forall s :: s in slots ==> s.Ref?
    ensures r.Some? ==> |r.value| == |slots| && forall i :: 0 <= i < |slots| ==> slots[i] == Ref(r.value[i])
  {
    if forall s :: s in slots ==> s.Ref? then
      assert forall i :: 0 <= i < |slots| ==> slots[i] in slots;
      Some(seq(|slots|, i requires 0 <= i < |slots| => slots[i].v))
    else None
  }

  function OpenIter(st: State, rows: seq<Tuple>): State {
    var h := st.host;
    st.(host := h.(iters := h.iters[h.nextIter := rows], nextIter := h.nextIter + 1)).Pushed(Int(h.nextIter))
  }

  function Matches(rows: seq<Tuple>, key: Tuple): seq<Tuple> {
    if rows == [] then []
    else (if |key| <= |rows[0]| && rows[0][..|key|] == key then [rows[0]] else []) + Matches(rows[1..], key)
  }

  /** A test of the host, on the values on top of the stack. */
  function HostTest(p: Pred, st: State, m: Machine): Option<State> {
    var k, n := TestArity(p), |st.stack|;
    if HasImport(p) && k <= n && Values(st.stack[n - k..]).Some? then
      match EvalCheck(p, Values(st.stack[n - k..]).value, m)
      case Err => None
      case Ok(b) => Some(st.Popped(k).Pushed(Truth(b)))
    else None
  }

  /** One instruction that is not control; `None` is a trap. */
  function Step(i: Instr, st: State, m: Machine): Option<State>
    requires !i.IsControl()
  {
    var h, n := st.host, |st.stack|;
    match i
    case LocalGet(k) => if k in st.locals then Some(st.Pushed(st.locals[k])) else None
    case LocalSet(k) =>
      if k in st.locals && n >= 1 then Some(st.Popped(1).(locals := st.locals[k := st.Top(0)])) else None
    case LocalTee(k) => if k in st.locals && n >= 1 then Some(st.(locals := st.locals[k := st.Top(0)])) else None
    case ConstRef(c) => Some(st.Pushed(Ref(ConstValue(c))))
    case RefNull => Some(st.Pushed(NullRef))
    case Drop => if n >= 1 then Some(st.Popped(1)) else None
    case I32Eqz => if n >= 1 && st.Top(0).Int? then Some(st.Popped(1).Pushed(Truth(st.Top(0).n == 0))) else None
    case ScanStart(rel) => Some(OpenIter(st, m.full(rel)))
    case ScanDeltaStart(rel) => Some(OpenIter(st, m.delta(rel)))
    case ScanIndexStart(rel, col) =>
      if n >= 1 && st.Top(0).Ref? then Some(OpenIter(st.Popped(1), m.index(rel, col, st.Top(0).v))) else None
    case ListIterStart =>
      if n >= 1 && st.Top(0).Ref? then Some(OpenIter(st.Popped(1), Singles(ListElems(st.Top(0).v)))) else None
    case ScanNext =>
      if n >= 1 && st.Top(0).Int? then
        var id := st.Top(0).n;
        if id in h.iters && h.iters[id] != [] then
          Some(st.Popped(1).(host :=
            h.(iters := h.iters[id := h.iters[id][1..]], rows := h.rows[h.nextRow := h.iters[id][0]],
                                        nextRow := h.nextRow + 1)).Pushed(Int(h.nextRow)))
        else Some(st.Popped(1).Pushed(Int(0)))
      else None
    case GetCol(c) =>
      if n >= 1 && st.Top(0).Int? && st.Top(0).n in h.rows then
        var row := h.rows[st.Top(0).n];
        Some(st.Popped(1).Pushed(if c < |row| then Ref(row[c]) else NullRef))
      else None
    case Begin(b, rel) => Some(st.(host := h.(buffers := h.buffers[b := []], targets := h.targets[b := rel])))
    case Push(b) =>
      if n >= 1 && st.Top(0).Ref? && b in h.buffers then
        Some(st.Popped(1).(host := h.(buffers := h.buffers[b := h.buffers[b] + [st.Top(0).v]])))
      else None
    case InsertEnd =>
      if InsertBuffer in h.buffers && InsertBuffer in h.targets then
        Some(st.(host := h.(facts := h.facts + {Fact(h.targets[InsertBuffer], h.buffers[InsertBuffer])})))
      else None
    case NegationEnd =>
      if NegationBuffer in h.buffers && NegationBuffer in h.targets then
        Some(st.Pushed(Truth(h.buffers[NegationBuffer] !in m.full(h.targets[NegationBuffer]))))
      else None
    case JoinBegin(id) => Some(st.(host := h.(joins := h.joins[id := []], buffers := h.buffers[JoinBuffer := []])))
    case JoinCommit(id, keys) =>
      if id in h.joins && JoinBuffer in h.buffers && keys <= |h.buffers[JoinBuffer]| then
        Some(st.(host :=
          h.(joins := h.joins[id := h.joins[id] + [h.buffers[JoinBuffer]]], buffers := h.buffers[JoinBuffer := []])))
      else None
    case JoinProbe(id) =>
      if id in h.joins && JoinBuffer in h.buffers then
        Some(OpenIter(st.(host := h.(buffers := h.buffers[JoinBuffer := []])),
                      Matches(h.joins[id], h.buffers[JoinBuffer])))
      else None
    case JoinEnd(id) => Some(st.(host := h.(joins := h.joins - {id})))
    case CallFn(f, k) =>
      if k <= n && Values(st.stack[n - k..]).Some? then
        match m.fn(f, Values(st.stack[n - k..]).value)
        case Err => None
        case Ok(v) => Some(st.Popped(k).Pushed(Ref(v)))
      else None
    case CallCmp(op) =>
      if n >= 2 && st.Top(0).Ref? && st.Top(1).Ref? then
        Some(st.Popped(2).Pushed(Truth(Compares(op, st.Top(1).v, st.Top(0).v, m))))
      else None
    case CallTest(p) => HostTest(p, st, m)
    case FieldPresent =>
      if n >= 2 && st.Top(0).Ref? && st.Top(1).Ref? && st.Top(0).v.Name? then
        Some(st.Popped(2).Pushed(Truth(FieldOf(st.Top(1).v, st.Top(0).v.name).Some?)))
      else None
    case CompoundGet =>
      if n >= 2 && st.Top(0).Ref? && st.Top(1).Ref? && st.Top(0).v.Name? &&
      FieldOf(st.Top(1).v, st.Top(0).v.name).Some? then
        Some(st.Popped(2).Pushed(Ref(FieldOf(st.Top(1).v, st.Top(0).v.name).value)))
      else None
    case MergeDeltas => None  // changes what scans read: not an instruction of a single pass
  }

  /** The built-in tests that the host offers. */
  predicate HasImport(p: Pred) {
    p.Check? || p.ListMember? || p.MatchField?
  }

  /** How many values the host's test takes, however many the code has sent. */
  function TestArity(p: Pred): nat {
    if p.MatchField? then 3 else 2
  }

  /** The locals exist, and the stack has values of the kinds that the instruction takes. */
  predicate Applicable(i: Instr, st: State)
    requires !i.IsControl()
  {
    var n := |st.stack|;
    match i
    case LocalGet(k) => k in st.locals
    case LocalSet(k) => k in st.locals && n >= 1
    case LocalTee(k) => k in st.locals && n >= 1
    case Drop => n >= 1
    case I32Eqz => n >= 1 && st.Top(0).Int?
    case ScanIndexStart(_, _) => n >= 1 && !st.Top(0).Int?
    case ListIterStart => n >= 1 && !st.Top(0).Int?
    case ScanNext => n >= 1 && st.Top(0).Int?
    case GetCol(_) => n >= 1 && st.Top(0).Int?
    case Push(_) => n >= 1 && !st.Top(0).Int?
    case CallFn(_, k) => k <= n && forall j :: 0 <= j < k ==> !st.Top(j).Int?
    case CallCmp(_) => n >= 2 && !st.Top(0).Int? && !st.Top(1).Int?
    case CallTest(p) => HasImport(p) && TestArity(p) <= n && forall j :: 0 <= j < TestArity(p) ==> !st.Top(j).Int?
    case FieldPresent => n >= 2 && !st.Top(0).Int? && !st.Top(1).Int?
    case CompoundGet => n >= 2 && !st.Top(0).Int? && !st.Top(1).Int?
    case _ => true
  }

  function Singles(vs: seq<Value>): seq<Tuple> {
    if vs == [] then [] else [[vs[0]]] + Singles(vs[1..])
  }

  // ----- Execution -----

  /** `Stuck` is what validation excludes: a missing local, a stack too short or a value of the
      wrong kind.  `Trap` is a failure of the host. */
  datatype Exit = Done(st: State) | Jump(depth: nat, st: State) | Trap | Stuck | Timeout

  /** Run code; `fuel` bounds how often a loop goes back. */
  function Exec(code: seq<Instr>, st: State, m: Machine, fuel: nat): Exit
    decreases fuel, code
  {
    if code == [] then Done(st)
    else
      match ExecOne(code[0], st, m, fuel)
      case Done(s) => Exec(code[1..], s, m, fuel)
      case other => other
  }

  function ExecOne(i: Instr, st: State, m: Machine, fuel: nat): Exit
    decreases fuel, i
  {
    match i
    case Block(body) => LeaveBlock(Exec(body, st, m, fuel), st.stack)
    case Loop(body) =>
      (match Exec(body, st, m, fuel)
       case Jump(d, s) =>
         if d > 0 then Jump(d - 1, s)
         else if fuel == 0 then Timeout
         else ExecOne(i, s.(stack := st.stack), m, fuel - 1)
       case other => other)
    case If(body) =>
      if |st.stack| >= 1 && st.Top(0).Int? then
        if st.Top(0).n != 0 then LeaveBlock(Exec(body, st.Popped(1), m, fuel), st.Popped(1).stack) else
        Done(st.Popped(1))
      else Stuck
    case Br(d) => Jump(d, st)
    case BrIf(d) =>
      if |st.stack| >= 1 && st.Top(0).Int? then
        if st.Top(0).n != 0 then Jump(d, st.Popped(1)) else Done(st.Popped(1))
      else Stuck
    case _ =>
      match Step(i, st, m)
      case None => if Applicable(i, st) then Trap else Stuck
      case Some(s) => Done(s)
  }

  function LeaveBlock(e: Exit, stack: seq<Slot>): Exit {
    if e.Jump? then (if e.depth == 0 then Done(e.st.(stack := stack)) else Jump(e.depth - 1, e.st)) else e
  }

  ghost predicate EndsAfter(code: seq<Instr>, st: State, m: Machine, e: Exit, n: nat) {
    forall fuel: nat :: fuel >= n ==> Exec(code, st, m, fuel) == e
  }

  /** How the code ends when it has enough fuel. */
  ghost function ExitOf(code: seq<Instr>, st: State, m: Machine): Exit {
    if e: Exit, n: nat :| EndsAfter(code, st, m, e, n) then e else Timeout
  }

  ghost predicate Ends(code: seq<Instr>, st: State, m: Machine, e: Exit) {
    ExitOf(code, st, m) == e
  }

  lemma {:induction false} ExitIs(code: seq<Instr>, st: State, m: Machine, e: Exit, n: nat)
    requires EndsAfter(code, st, m, e, n)
    ensures Ends(code, st, m, e)
  {
    var x := ExitOf(code, st, m);
    var k: nat :| EndsAfter(code, st, m, x, k);
    assert Exec(code, st, m, n + k) == e && Exec(code, st, m, n + k) == x;
  }

  lemma {:induction false} FuelFor(code: seq<Instr>, st: State, m: Machine, e: Exit) returns (n: nat)
    requires Ends(code, st, m, e) && e != Timeout
    ensures EndsAfter(code, st, m, e, n)
  {
    n :| EndsAfter(code, st, m, e, n);
  }

  lemma {:induction false} ExecConcat(a: seq<Instr>, b: seq<Instr>, st: State, m: Machine, fuel: nat)
    ensures Exec(a + b, st, m, fuel) ==
            (match Exec(a, st, m, fuel) case Done(s) => Exec(b, s, m, fuel) case other => other)
    decreases |a|
  {
    if a == [] {
      assert a + b == b;
    } else {
      assert (a + b)[0] == a[0] && (a + b)[1..] == a[1..] + b;
      if ExecOne(a[0], st, m, fuel).Done? { ExecConcat(a[1..], b, ExecOne(a[0], st, m, fuel).st, m, fuel); }
    }
  }

  lemma {:induction false} EndsConcat(a: seq<Instr>, b: seq<Instr>, st: State, m: Machine, s: State, e: Exit)
    requires Ends(a, st, m, Done(s)) && Ends(b, s, m, e) && e != Timeout
    ensures Ends(a + b, st, m, e)
  {
    var x := FuelFor(a, st, m, Done(s));
    var y := FuelFor(b, s, m, e);
    forall fuel: nat | fuel >= x + y ensures Exec(a + b, st, m, fuel) == e { ExecConcat(a, b, st, m, fuel); }
    ExitIs(a + b, st, m, e, x + y);
  }

  lemma {:induction false} EndsEarly(a: seq<Instr>, b: seq<Instr>, st: State, m: Machine, e: Exit)
    requires Ends(a, st, m, e) && e.Jump?
    ensures Ends(a + b, st, m, e)
  {
    var x := FuelFor(a, st, m, e);
    forall fuel: nat | fuel >= x ensures Exec(a + b, st, m, fuel) == e { ExecConcat(a, b, st, m, fuel); }
    ExitIs(a + b, st, m, e, x);
  }

  lemma {:induction false} ExecSingle(i: Instr, st: State, m: Machine, fuel: nat)
    ensures Exec([i], st, m, fuel) == ExecOne(i, st, m, fuel)
  {
    assert [i][1..] == [];
  }

  lemma {:induction false} EndsOne(i: Instr, st: State, m: Machine, e: Exit)
    requires !i.Block? && !i.Loop? && !i.If? && ExecOne(i, st, m, 0) == e && e != Timeout
    ensures Ends([i], st, m, e)
  {
    forall fuel: nat ensures Exec([i], st, m, fuel) == e { ExecSingle(i, st, m, fuel); }
    ExitIs([i], st, m, e, 0);
  }

  lemma {:induction false} EndsBlock(body: seq<Instr>, st: State, m: Machine, e: Exit)
    requires Ends(body, st, m, e) && e != Timeout
    ensures Ends([Block(body)], st, m, LeaveBlock(e, st.stack))
  {
    var x := FuelFor(body, st, m, e);
    forall fuel: nat | fuel >= x ensures Exec([Block(body)], st, m, fuel) == LeaveBlock(e, st.stack) {
      ExecSingle(Block(body), st, m, fuel);
    }
    ExitIs([Block(body)], st, m, LeaveBlock(e, st.stack), x);
  }

  lemma {:induction false} EndsIf(body: seq<Instr>, st: State, m: Machine, e: Exit)
    requires |st.stack| >= 1 && st.Top(0).Int? && st.Top(0).n != 0 && Ends(body, st.Popped(1), m, e) && e != Timeout
    ensures Ends([If(body)], st, m, LeaveBlock(e, st.Popped(1).stack))
  {
    var x := FuelFor(body, st.Popped(1), m, e);
    forall fuel: nat | fuel >= x ensures Exec([If(body)], st, m, fuel) == LeaveBlock(e, st.Popped(1).stack) {
      ExecSingle(If(body), st, m, fuel);
    }
    ExitIs([If(body)], st, m, LeaveBlock(e, st.Popped(1).stack), x);
  }

  lemma {:induction false} EndsIfNot(body: seq<Instr>, st: State, m: Machine)
    requires |st.stack| >= 1 && st.Top(0) == Int(0)
    ensures Ends([If(body)], st, m, Done(st.Popped(1)))
  {
    forall fuel: nat ensures Exec([If(body)], st, m, fuel) == Done(st.Popped(1)) { ExecSingle(If(body), st, m, fuel); }
    ExitIs([If(body)], st, m, Done(st.Popped(1)), 0);
  }

  /** The body leaves the loop. */
  lemma {:induction false} EndsLoop(body: seq<Instr>, st: State, m: Machine, d: nat, s: State)
    requires Ends(body, st, m, Jump(d + 1, s))
    ensures Ends([Loop(body)], st, m, Jump(d, s))
  {
    var x := FuelFor(body, st, m, Jump(d + 1, s));
    forall fuel: nat | fuel >= x ensures Exec([Loop(body)], st, m, fuel) == Jump(d, s) {
      ExecSingle(Loop(body), st, m, fuel);
    }
    ExitIs([Loop(body)], st, m, Jump(d, s), x);
  }

  /** The body goes back to the start of the loop. */
  lemma {:induction false} EndsAgain(body: seq<Instr>, st: State, m: Machine, s: State, e: Exit)
    requires Ends(body, st, m, Jump(0, s)) && Ends([Loop(body)], s.(stack := st.stack), m, e) && e != Timeout
    ensures Ends([Loop(body)], st, m, e)
  {
    var x := FuelFor(body, st, m, Jump(0, s));
    var y := FuelFor([Loop(body)], s.(stack := st.stack), m, e);
    forall fuel: nat | fuel >= x + y + 1 ensures Exec([Loop(body)], st, m, fuel) == e {
      ExecSingle(Loop(body), st, m, fuel);
      ExecSingle(Loop(body), s.(stack := st.stack), m, fuel - 1);
    }
    ExitIs([Loop(body)], st, m, e, x + y + 1);
  }

  // ----- Straight code -----

  function Straight(code: seq<Instr>, st: State, m: Machine): Option<State> {
    if code == [] then Some(st)
    else if code[0].IsControl() then None
    else
      match Step(code[0], st, m)
      case None => None
      case Some(s) => Straight(code[1..], s, m)
  }

  lemma {:induction false} StraightConcat(a: seq<Instr>, b: seq<Instr>, st: State, m: Machine)
    ensures Straight(a + b, st, m) == (match Straight(a, st, m) case None => None case Some(s) => Straight(b, s, m))
    decreases |a|
  {
    if a == [] {
      assert a + b == b;
    } else {
      assert (a + b)[0] == a[0] && (a + b)[1..] == a[1..] + b;
      if !a[0].IsControl() && Step(a[0], st, m).Some? { StraightConcat(a[1..], b, Step(a[0], st, m).value, m); }
    }
  }

  lemma {:induction false} StraightOne(i: Instr, st: State, m: Machine)
    requires !i.IsControl()
    ensures Straight([i], st, m) == Step(i, st, m)
  {
    assert [i][1..] == [];
    if Step(i, st, m).Some? { assert Straight([], Step(i, st, m).value, m) == Step(i, st, m); }
  }

  lemma {:induction false} StraightEnds(code: seq<Instr>, st: State, m: Machine)
    requires Straight(code, st, m).Some?
    ensures Ends(code, st, m, Done(Straight(code, st, m).value))
    decreases |code|
  {
    if code == [] {
      ExitIs(code, st, m, Done(st), 0);
    } else {
      var s := Step(code[0], st, m).value;
      EndsOne(code[0], st, m, Done(s));
      StraightEnds(code[1..], s, m);
      EndsConcat([code[0]], code[1..], st, m, s, Done(Straight(code, st, m).value));
      assert [code[0]] + code[1..] == code;
    }
  }

  lemma {:induction false} StraightCons(i: Instr, rest: seq<Instr>, st: State, s: State, m: Machine)
    requires !i.IsControl() && Step(i, st, m) == Some(s)
    ensures Straight([i] + rest, st, m) == Straight(rest, s, m)
  {
    assert ([i] + rest)[0] == i && ([i] + rest)[1..] == rest;
  }

  lemma {:induction false} StraightFour(a: Instr, b: Instr, c: Instr, d: Instr, s0: State, s1: State, s2: State,
      s3: State, s4: State, m: Machine)
    requires !a.IsControl() && !b.IsControl() && !c.IsControl() && !d.IsControl()
    requires Step(a, s0, m) == Some(s1) && Step(b, s1, m) == Some(s2) && Step(c, s2, m) == Some(s3) &&
             Step(d, s3, m) == Some(s4)
    ensures Straight([a, b, c, d], s0, m) == Some(s4)
  {
    StraightOne(d, s3, m);
    StraightCons(c, [d], s2, s3, m);
    StraightCons(b, [c] + [d], s1, s2, m);
    StraightCons(a, [b] + ([c] + [d]), s0, s1, m);
    assert [a] + ([b] + ([c] + [d])) == [a, b, c, d];
  }
}
