/** What a piece of emitted code leaves alone, and how a loop over an iterator proceeds. */
module CodeLoops {
  import opened Datalog
  import opened Interp
  import opened Planner
  import opened Wasm
  import opened Emit
  import opened CodeSteps

  /** The variables in scope, the iterators of the loops around, the open iterators apart from
      `own`, and the hash tables around are as before; so are the stack and an empty join buffer. */
  ghost predicate Kept(st: State, s: State, vm: VarMap, b: set<Var>, base: nat, iters: nat, joins: nat, own: set<int>) {
    && s.stack == st.stack && s.locals.Keys == st.locals.Keys
    && (forall v :: v in b && v in vm && vm[v] in st.locals ==> s.locals[vm[v]] == st.locals[vm[v]])
    && (forall i :: base <= i < base + iters && i in st.locals ==> s.locals[i] == st.locals[i])
    && HostOk(s.host) && st.host.nextIter <= s.host.nextIter && (JoinReady(st.host) ==> JoinReady(s.host))
    && (forall id :: id in st.host.iters && id !in own ==> id in s.host.iters && s.host.iters[id] == st.host.iters[id])
    && (forall j: nat :: j < joins && j in st.host.joins ==> j in s.host.joins && s.host.joins[j] == st.host.joins[j])
  }

  lemma {:induction false} KeptSelf(st: State, vm: VarMap, b: set<Var>, base: nat, iters: nat, joins: nat)
    requires HostOk(st.host)
    ensures Kept(st, st, vm, b, base, iters, joins, {})
  {
  }

  lemma {:induction false} KeptThen(st: State, s: State, t: State, vm: VarMap, b: set<Var>, base: nat, iters: nat,
      joins: nat, own: set<int>)
    requires Kept(st, s, vm, b, base, iters, joins, own) && Kept(s, t, vm, b, base, iters, joins, own)
    ensures Kept(st, t, vm, b, base, iters, joins, own)
  {
  }

  lemma {:induction false} KeptLess(st: State, s: State, vm: VarMap, b: set<Var>, base: nat, iters: nat, joins: nat,
      own: set<int>, b': set<Var>, iters': nat, joins': nat, own': set<int>)
    requires Kept(st, s, vm, b, base, iters, joins, own) && b' <= b && iters' <= iters && joins' <= joins
    requires forall id :: id in own && id in st.host.iters ==> id in own'
    ensures Kept(st, s, vm, b', base, iters', joins', own')
  {
  }

  lemma {:induction false} KeptLoaded(st: State, s: State, vm: VarMap, env: Env, b: set<Var>, base: nat, iters: nat,
      joins: nat, own: set<int>)
    requires Loaded(st, vm, env, b) && Kept(st, s, vm, b, base, iters, joins, own)
    ensures Loaded(s, vm, env, b)
  {
  }

  /** The locals up to here exist. */
  ghost predicate Declared(st: State, n: nat) {
    forall i: nat :: i < n ==> i in st.locals
  }

  // ----- One turn -----

  function Turned(st: State, id: int, vm: VarMap, vars: seq<Var>): State
    requires id in st.host.iters && st.host.iters[id] != [] && TUPLE in st.locals && |st.host.iters[id][0]| == |vars|
  {
    var a := Advanced(st, id);
    a.(locals := BindLocals(a.locals, vm, vars, st.host.iters[id][0]))
  }

  lemma {:induction false} TurnLocal(st: State, id: int, vm: VarMap, base: nat, vars: seq<Var>, n: nat, i: nat)
    requires Layout(vm, base) && Declared(st, base + n) && base >= FIRST_VAR && i != TUPLE
    requires id in st.host.iters && st.host.iters[id] != [] && |st.host.iters[id][0]| == |vars|
    requires forall v :: v in vars && v in vm ==> vm[v] != i
    ensures var t := Turned(st, id, vm, vars);
            t.locals.Keys == st.locals.Keys && (i in st.locals ==> t.locals[i] == st.locals[i])
  {
    BindLocalsFrame(Advanced(st, id).locals, vm, vars, st.host.iters[id][0], i);
  }

  lemma {:induction false} TurnKeeps(st: State, id: int, vm: VarMap, base: nat, vars: seq<Var>, b: set<Var>,
      iters: nat, joins: nat, n: nat)
    requires Layout(vm, base) && Declared(st, base + n) && base >= FIRST_VAR && HostOk(st.host) && VarSet(vars) !! b
    requires id in st.host.iters && st.host.iters[id] != [] && |st.host.iters[id][0]| == |vars|
    ensures Kept(st, Turned(st, id, vm, vars), vm, b, base, iters, joins, {id})
  {
    var t := Turned(st, id, vm, vars);
    BindLocalsFrame(Advanced(st, id).locals, vm, vars, st.host.iters[id][0], 0);
    forall v | v in b && v in vm && vm[v] in st.locals ensures t.locals[vm[v]] == st.locals[vm[v]] {
      assert forall w :: w in vars ==> w in VarSet(vars);
      TurnLocal(st, id, vm, base, vars, n, vm[v]);
    }
    forall i | base <= i < base + iters && i in st.locals ensures t.locals[i] == st.locals[i] {
      TurnLocal(st, id, vm, base, vars, n, i);
    }
  }

  lemma {:induction false} TurnLoads(st: State, id: int, vm: VarMap, base: nat, vars: seq<Var>, env: Env, b: set<Var>,
      n: nat)
    requires Layout(vm, base) && Declared(st, base + n) && base >= FIRST_VAR && Loaded(st, vm, env, b)
    requires id in st.host.iters && st.host.iters[id] != [] && |st.host.iters[id][0]| == |vars|
    requires VarSet(vars) <= vm.Keys
    ensures Loaded(Turned(st, id, vm, vars), vm, BindRow(env, vars, st.host.iters[id][0]), b + VarSet(vars))
  {
    var a := Advanced(st, id);
    assert forall w :: w in vars ==> w in VarSet(vars);
    assert Loaded(a, vm, env, b);
    BindLoads(a, vm, base, env, b, vars, st.host.iters[id][0]);
  }

  // ----- Opening an iterator -----

  function Opened(st: State, it: nat, rows: seq<Tuple>): State {
    var h := st.host;
    State(st.locals[it := Int(h.nextIter)], st.stack,
          h.(iters := h.iters[h.nextIter := rows], nextIter := h.nextIter + 1))
  }

  lemma {:induction false} OpenRuns(st: State, it: nat, rows: seq<Tuple>, m: Machine)
    requires it in st.locals
    ensures Step(LocalSet(it), OpenIter(st, rows), m) == Some(Opened(st, it, rows))
  {
    var s := OpenIter(st, rows);
    assert s.Top(0) == Int(st.host.nextIter) && s.stack[..|s.stack| - 1] == st.stack;
  }

  lemma {:induction false} OpenKeeps(st: State, it: nat, rows: seq<Tuple>, vm: VarMap, b: set<Var>, base: nat,
      iters: nat, joins: nat)
    requires Layout(vm, base) && it in st.locals && it >= base + iters && HostOk(st.host)
    ensures Kept(st, Opened(st, it, rows), vm, b, base, iters, joins, {})
  {
  }

  /** A scratch value does not disturb what is kept. */
  lemma {:induction false} ScratchKeeps(st: State, x: Slot, vm: VarMap, b: set<Var>, base: nat, iters: nat, joins: nat)
    requires Layout(vm, base) && base >= FIRST_VAR && SCRATCH in st.locals && HostOk(st.host)
    ensures Kept(st, st.(locals := st.locals[SCRATCH := x]), vm, b, base, iters, joins, {})
  {
  }

  /** With an iterator open the loop can start. */
  lemma {:induction false} OpenLoop(st: State, rows: seq<Tuple>, env: Env, b: set<Var>, vm: VarMap, base: nat,
      iters: nat, joins: nat, n: nat)
    requires Layout(vm, base) && base >= FIRST_VAR && Declared(st, base + n) && iters < n && Loaded(st, vm, env, b) &&
             HostOk(st.host)
    ensures var o := Opened(st, base + iters, rows);
            && Declared(o, base + n) && Loaded(o, vm, env, b) && HostOk(o.host)
            && o.locals[base + iters] == Int(st.host.nextIter) && st.host.nextIter in o.host.iters &&
               o.host.iters[st.host.nextIter] == rows
            && Kept(st, o, vm, b, base, iters, joins, {}) && st.host.nextIter !in st.host.iters &&
               o.host.facts == st.host.facts
  {
    OpenKeeps(st, base + iters, rows, vm, b, base, iters, joins);
    KeptLoaded(st, Opened(st, base + iters, rows), vm, env, b, base, iters, joins, {});
  }

  /** When the loop has left, its iterator is nobody else's. */
  lemma {:induction false} CloseLoop(st: State, o: State, s: State, id: int, it: nat, vars: seq<Var>, code: seq<Instr>,
      vm: VarMap, b: set<Var>, base: nat, iters: nat, joins: nat, m: Machine)
    requires Kept(st, o, vm, b, base, iters, joins, {}) && Kept(o, s, vm, b, base, iters, joins, {id}) &&
             id !in st.host.iters
    requires Ends([Loop(LoopBody(it, vars, vm, code))], o, m, Jump(0, s))
    ensures Ends(ScanLoop(it, vars, vm, code), o, m, Done(s)) && Kept(st, s, vm, b, base, iters, joins, {})
  {
    EndsBlock([Loop(LoopBody(it, vars, vm, code))], o, m, Jump(0, s));
    assert s.(stack := o.stack) == s;
  }

  /** Code that prepares a state, then code that runs from it. */
  lemma {:induction false} OpenThen(open: seq<Instr>, rest: seq<Instr>, st: State, t: State, o: State, s: State,
      vm: VarMap, b: set<Var>, base: nat, iters: nat, joins: nat, m: Machine)
    requires Straight(open, st, m) == Some(o) && Ends(rest, o, m, Done(s))
    requires Kept(st, t, vm, b, base, iters, joins, {}) && Kept(t, s, vm, b, base, iters, joins, {})
    ensures Ends(open + rest, st, m, Done(s)) && Kept(st, s, vm, b, base, iters, joins, {})
  {
    StraightEnds(open, st, m);
    EndsConcat(open, rest, st, m, o, Done(s));
    KeptThen(st, t, s, vm, b, base, iters, joins, {});
  }
}
