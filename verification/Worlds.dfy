/** Runs of a whole generated function: merging the deltas changes what scans read. */
module Worlds {
  import opened Datalog
  import opened Interp
  import opened Wasm

  /** What scans read for each stable and delta tier. */
  type Tables = (set<Fact>, set<Fact>) -> Machine

  /** The state of the code and its host, and the two tiers that scans read; the facts of the
      host are those inserted since the last merge. */
  datatype World = World(st: State, stable: set<Fact>, delta: set<Fact>)
  {
    function Visible(): set<Fact> { stable + delta }

    function News(): set<Fact> { st.host.facts - Visible() }

    /** The tiers move up, and the stack receives whether there was anything new. */
    function Merged(): World {
      World(st.(host := st.host.(facts := {})).Pushed(Truth(News() != {})), Visible(), News())
    }
  }

  datatype Outcome = Ended(w: World) | Leaving(depth: nat, w: World) | HostFailed | IllTyped | OutOfFuel

  function Lift(e: Wasm.Exit, w: World): Outcome {
    match e
    case Done(s) => Ended(w.(st := s))
    case Jump(d, s) => Leaving(d, w.(st := s))
    case Trap => HostFailed
    case Stuck => IllTyped
    case Timeout => OutOfFuel
  }

  function Restack(w: World, stack: seq<Slot>): World {
    w.(st := w.st.(stack := stack))
  }

  function LeaveBlock(e: Outcome, stack: seq<Slot>): Outcome {
    if e.Leaving? then (if e.depth == 0 then Ended(Restack(e.w, stack)) else Leaving(e.depth - 1, e.w)) else e
  }

  function Exec(code: seq<Instr>, w: World, h: Tables, fuel: nat): Outcome
    decreases fuel, code
  {
    if code == [] then Ended(w)
    else
      match ExecOne(code[0], w, h, fuel)
      case Ended(x) => Exec(code[1..], x, h, fuel)
      case other => other
  }

  function ExecOne(i: Instr, w: World, h: Tables, fuel: nat): Outcome
    decreases fuel, i
  {
    var st := w.st;
    match i
    case MergeDeltas => Ended(w.Merged())
    case Block(body) => LeaveBlock(Exec(body, w, h, fuel), st.stack)
    case Loop(body) =>
      (match Exec(body, w, h, fuel)
       case Leaving(d, x) =>
         if d > 0 then Leaving(d - 1, x)
         else if fuel == 0 then OutOfFuel
         else ExecOne(i, Restack(x, st.stack), h, fuel - 1)
       case other => other)
    case If(body) =>
      if |st.stack| >= 1 && st.Top(0).Int? then
        var x := w.(st := st.Popped(1));
        if st.Top(0).n != 0 then LeaveBlock(Exec(body, x, h, fuel), x.st.stack) else Ended(x)
      else IllTyped
    case Br(d) => Leaving(d, w)
    case BrIf(d) =>
      if |st.stack| >= 1 && st.Top(0).Int? then
        if st.Top(0).n != 0 then Leaving(d, w.(st := st.Popped(1))) else Ended(w.(st := st.Popped(1)))
      else IllTyped
    case _ => Lift(Wasm.ExecOne(i, st, h(w.stable, w.delta), fuel), w)
  }

  // ----- Code without merges reads one snapshot -----

  predicate MergeFree(code: seq<Instr>)
    decreases code
  {
    code != [] ==> MergeFreeOne(code[0]) && MergeFree(code[1..])
  }

  predicate MergeFreeOne(i: Instr)
    decreases i
  {
    match i
    case MergeDeltas => false
    case Block(body) => MergeFree(body)
    case Loop(body) => MergeFree(body)
    case If(body) => MergeFree(body)
    case _ => true
  }

  lemma {:induction false} MergeFreeConcat(a: seq<Instr>, b: seq<Instr>)
    ensures MergeFree(a + b) <==> MergeFree(a) && MergeFree(b)
    decreases |a|
  {
    if a == [] {
      assert a + b == b;
    } else {
      assert (a + b)[0] == a[0] && (a + b)[1..] == a[1..] + b;
      MergeFreeConcat(a[1..], b);
    }
  }

  lemma {:induction false} OneSnapshot(code: seq<Instr>, w: World, h: Tables, fuel: nat)
    requires MergeFree(code)
    ensures Exec(code, w, h, fuel) == Lift(Wasm.Exec(code, w.st, h(w.stable, w.delta), fuel), w)
    decreases fuel, code, 0
  {
    if code != [] {
      OneSnapshotOne(code[0], w, h, fuel);
      var e := Wasm.ExecOne(code[0], w.st, h(w.stable, w.delta), fuel);
      if e.Done? { OneSnapshot(code[1..], w.(st := e.st), h, fuel); }
    }
  }

  lemma {:induction false} OneSnapshotOne(i: Instr, w: World, h: Tables, fuel: nat)
    requires MergeFreeOne(i)
    ensures ExecOne(i, w, h, fuel) == Lift(Wasm.ExecOne(i, w.st, h(w.stable, w.delta), fuel), w)
    decreases fuel, i, 1
  {
    hide Step, Applicable, Exec, Wasm.Exec;
    match i
    case Block(body) => OneSnapshot(body, w, h, fuel);
    case If(body) =>
      if |w.st.stack| >= 1 { OneSnapshot(body, w.(st := w.st.Popped(1)), h, fuel); }
    case Loop(body) =>
      OneSnapshot(body, w, h, fuel);
      var e := Wasm.Exec(body, w.st, h(w.stable, w.delta), fuel);
      if e.Jump? && e.depth == 0 && fuel > 0 { OneSnapshotOne(i, w.(st := e.st.(stack := w.st.stack)), h, fuel - 1); }
    case _ =>
  }

  lemma {:induction false} ExecConcat(a: seq<Instr>, b: seq<Instr>, w: World, h: Tables, fuel: nat)
    ensures Exec(a + b, w, h, fuel) ==
            (match Exec(a, w, h, fuel) case Ended(x) => Exec(b, x, h, fuel) case other => other)
    decreases |a|
  {
    if a == [] {
      assert a + b == b;
    } else {
      assert (a + b)[0] == a[0] && (a + b)[1..] == a[1..] + b;
      if ExecOne(a[0], w, h, fuel).Ended? { ExecConcat(a[1..], b, ExecOne(a[0], w, h, fuel).w, h, fuel); }
    }
  }
}
