/** Hash joins in emitted code: build rows travel with the join keys first. */
module CodeJoins {
  import opened Datalog
  import opened Interp
  import opened Planner
  import opened Wasm
  import opened Emit
  import opened CodeSteps
  import opened CodeLoops

  ghost predicate AllWide(rows: seq<Tuple>, n: nat) {
    forall r :: r in rows ==> |r| == n
  }

  ghost predicate Among(some: seq<Var>, all: seq<Var>) {
    forall v :: v in some ==> v in all
  }

  /** The iterator of the loop has these rows to go. */
  ghost predicate AtRows(st: State, it: nat, id: int, rows: seq<Tuple>) {
    it in st.locals && st.locals[it] == Int(id) && id in st.host.iters && st.host.iters[id] == rows
  }

  // ----- Rows in the order of the join -----

  ghost function Reordered(order: seq<Var>, vars: seq<Var>, rows: seq<Tuple>): seq<Tuple>
    requires Among(order, vars) && AllWide(rows, |vars|)
  {
    if rows == [] then []
    else
      assert rows[0] in rows;
      assert AllWide(rows[1..], |vars|);
      [KeyOf(order, vars, rows[0])] + Reordered(order, vars, rows[1..])
  }

  lemma {:induction false} ReorderedWide(order: seq<Var>, vars: seq<Var>, rows: seq<Tuple>)
    requires Among(order, vars) && AllWide(rows, |vars|)
    ensures AllWide(Reordered(order, vars, rows), |order|)
    decreases |rows|
  {
    if rows != [] {
      assert rows[0] in rows && AllWide(rows[1..], |vars|);
      ReorderedWide(order, vars, rows[1..]);
    }
  }

  lemma {:induction false} WithoutAmong(vars: seq<Var>, keys: seq<Var>)
    ensures forall v :: v in Without(vars, keys) <==> v in vars && v !in keys
    decreases |vars|
  {
    if vars != [] {
      SplitHead(vars);
      WithoutAmong(vars[1..], keys);
    }
  }

  /** The order names the build variables, the keys in front. */
  lemma {:induction false} OrderShape(vars: seq<Var>, keys: seq<Var>)
    requires Among(keys, vars)
    ensures Among(BuildOrder(vars, keys), vars) && VarSet(BuildOrder(vars, keys)) == VarSet(vars)
    ensures |keys| <= |BuildOrder(vars, keys)| && BuildOrder(vars, keys)[..|keys|] == keys
  {
    WithoutAmong(vars, keys);
    var order := BuildOrder(vars, keys);
    forall v ensures v in order <==> v in vars {
      if v in vars && v !in keys { assert v in Without(vars, keys); }
    }
  }

  lemma {:induction false} KeyFirst(vars: seq<Var>, keys: seq<Var>, row: Tuple)
    requires Among(keys, vars) && |vars| == |row|
    ensures Among(BuildOrder(vars, keys), vars)
    ensures KeyOf(BuildOrder(vars, keys), vars, row)[..|keys|] == KeyOf(keys, vars, row)
  {
    OrderShape(vars, keys);
    var order := BuildOrder(vars, keys);
    forall i | 0 <= i < |keys| ensures KeyOf(order, vars, row)[i] == KeyOf(keys, vars, row)[i] {
      assert order[i] == order[..|keys|][i] == keys[i];
    }
  }

  lemma {:induction false} BucketWide(keys: seq<Var>, vars: seq<Var>, rows: seq<Tuple>, key: seq<Value>)
    requires Among(keys, vars)
    ensures AllWide(Bucket(keys, vars, rows, key), |vars|)
    decreases |rows|
  {
    if rows != [] { BucketWide(keys, vars, rows[1..], key); }
  }

  lemma {:induction false} ReorderedCons(order: seq<Var>, vars: seq<Var>, row: Tuple, rest: seq<Tuple>)
    requires Among(order, vars) && AllWide(rest, |vars|) && |row| == |vars|
    ensures AllWide([row] + rest, |vars|)
    ensures Reordered(order, vars, [row] + rest) == [KeyOf(order, vars, row)] + Reordered(order, vars, rest)
  {
    assert ([row] + rest)[0] == row && ([row] + rest)[1..] == rest;
  }

  lemma {:induction false} ReorderedAppend(table: seq<Tuple>, order: seq<Var>, vars: seq<Var>, rows: seq<Tuple>)
    requires Among(order, vars) && AllWide(rows, |vars|)
    ensures rows == [] ==> table + Reordered(order, vars, rows) == table
    ensures rows != [] ==> |rows[0]| == |vars| && AllWide(rows[1..], |vars|)
    ensures rows != [] ==>
            table + [KeyOf(order, vars, rows[0])] + Reordered(order, vars, rows[1..]) ==
            table + Reordered(order, vars, rows)
  {
    if rows != [] {
      assert rows[0] in rows && AllWide(rows[1..], |vars|);
      var key := KeyOf(order, vars, rows[0]);
      assert table + [key] + Reordered(order, vars, rows[1..]) == table + ([key] + Reordered(order, vars, rows[1..]));
    }
  }

  lemma {:induction false} MatchesCons(first: Tuple, rest: seq<Tuple>, key: Tuple)
    ensures Matches([first] + rest, key) ==
            (if |key| <= |first| && first[..|key|] == key then [first] else []) + Matches(rest, key)
  {
    assert ([first] + rest)[0] == first && ([first] + rest)[1..] == rest;
  }

  lemma {:induction false} BucketCons(keys: seq<Var>, vars: seq<Var>, row: Tuple, rest: seq<Tuple>, key: Tuple)
    requires Among(keys, vars) && |row| == |vars|
    ensures Bucket(keys, vars, [row] + rest, key) ==
            (if KeyOf(keys, vars, row) == key then [row] else []) + Bucket(keys, vars, rest, key)
  {
    assert ([row] + rest)[0] == row && ([row] + rest)[1..] == rest;
  }

  /** One row more: it matches exactly when its key is the key. */
  lemma {:induction false} MatchStep(keys: seq<Var>, vars: seq<Var>, order: seq<Var>, row: Tuple, rest: seq<Tuple>,
      key: Tuple)
    requires Among(keys, vars) && Among(order, vars) && AllWide(rest, |vars|) && |row| == |vars| && |key| == |keys| &&
             order == BuildOrder(vars, keys)
    requires AllWide(Bucket(keys, vars, rest, key), |vars|)
    requires Matches(Reordered(order, vars, rest), key) == Reordered(order, vars, Bucket(keys, vars, rest, key))
    ensures AllWide([row] + rest, |vars|) && AllWide(Bucket(keys, vars, [row] + rest, key), |vars|)
    ensures Matches(Reordered(order, vars, [row] + rest), key) ==
            Reordered(order, vars, Bucket(keys, vars, [row] + rest, key))
  {
    var first, bucket := KeyOf(order, vars, row), Bucket(keys, vars, rest, key);
    KeyFirst(vars, keys, row);
    OrderShape(vars, keys);
    assert |key| <= |first| && first[..|key|] == KeyOf(keys, vars, row);
    ReorderedCons(order, vars, row, rest);
    BucketCons(keys, vars, row, rest, key);
    hide Matches, Reordered, KeyOf, BuildOrder, Bucket;
    MatchesCons(first, Reordered(order, vars, rest), key);
    if KeyOf(keys, vars, row) == key {
      ReorderedCons(order, vars, row, bucket);
    } else {
      assert [] + bucket == bucket;
    }
  }

  /** Probing the table finds exactly the bucket, in the order of the join. */
  lemma {:induction false} MatchesAreBucket(keys: seq<Var>, vars: seq<Var>, order: seq<Var>, rows: seq<Tuple>,
      key: Tuple)
    requires Among(keys, vars) && Among(order, vars) && AllWide(rows, |vars|) && |key| == |keys|
    requires order == BuildOrder(vars, keys) && AllWide(Bucket(keys, vars, rows, key), |vars|)
    ensures Matches(Reordered(order, vars, rows), key) == Reordered(order, vars, Bucket(keys, vars, rows, key))
    decreases |rows|
  {
    hide BuildOrder, KeyOf;
    if rows != [] {
      assert rows[0] in rows && AllWide(rows[1..], |vars|);
      BucketWide(keys, vars, rows[1..], key);
      MatchesAreBucket(keys, vars, order, rows[1..], key);
      MatchStep(keys, vars, order, rows[0], rows[1..], key);
      assert rows == [rows[0]] + rows[1..];
    }
  }

  // ----- Binding in either order gives the same environment -----

  lemma {:induction false} BindRowLookup(env: Env, vars: seq<Var>, row: Tuple, v: Var)
    requires |vars| == |row| && Distinct(vars)
    ensures var e := BindRow(env, vars, row);
            && (v in e <==> v in env || v in vars)
            && (v in vars ==> e[v] == row[Position(v, vars)])
            && (v !in vars && v in env ==> e[v] == env[v])
    decreases |vars|
  {
    if vars != [] {
      assert Distinct(vars[1..]);
      BindRowLookup(env[vars[0] := row[0]], vars[1..], row[1..], v);
      SplitHead(vars);
      if v in vars && v != vars[0] { assert Position(v, vars) == 1 + Position(v, vars[1..]); }
      if v == vars[0] { assert v !in vars[1..]; }
    }
  }

  lemma {:induction false} WithoutApart(vars: seq<Var>, keys: seq<Var>)
    requires Distinct(vars)
    ensures Distinct(Without(vars, keys))
    decreases |vars|
  {
    if vars != [] {
      assert Distinct(vars[1..]);
      WithoutApart(vars[1..], keys);
      WithoutAmong(vars[1..], keys);
      assert vars[0] !in vars[1..];
    }
  }

  lemma {:induction false} OrderApart(vars: seq<Var>, keys: seq<Var>)
    requires Distinct(vars) && Distinct(keys)
    ensures Distinct(BuildOrder(vars, keys))
  {
    WithoutApart(vars, keys);
    WithoutAmong(vars, keys);
    var rest := Without(vars, keys);
    forall i | 0 <= i < |rest| ensures rest[i] !in keys { assert rest[i] in rest; }
  }

  lemma {:induction false} ReorderBind(env: Env, vars: seq<Var>, keys: seq<Var>, row: Tuple)
    requires Distinct(vars) && Distinct(keys) && Among(keys, vars) && |vars| == |row|
    ensures Among(BuildOrder(vars, keys), vars)
    ensures var order := BuildOrder(vars, keys);
            BindRow(env, order, KeyOf(order, vars, row)) == BindRow(env, vars, row)
  {
    OrderShape(vars, keys);
    OrderApart(vars, keys);
    var order := BuildOrder(vars, keys);
    var moved := KeyOf(order, vars, row);
    var x, y := BindRow(env, order, moved), BindRow(env, vars, row);
    forall v ensures (v in x <==> v in y) && (v in x ==> x[v] == y[v]) {
      BindRowLookup(env, order, moved, v);
      BindRowLookup(env, vars, row, v);
      assert v in order <==> v in VarSet(order);
      assert v in vars <==> v in VarSet(vars);
    }
    assert x.Keys == y.Keys;
  }

  lemma {:induction false} ReorderBindRows(env: Env, vars: seq<Var>, keys: seq<Var>, rows: seq<Tuple>)
    requires Distinct(vars) && Distinct(keys) && Among(keys, vars) && AllWide(rows, |vars|)
    ensures Among(BuildOrder(vars, keys), vars)
    ensures var order := BuildOrder(vars, keys);
            BindRows(env, order, Reordered(order, vars, rows)) == BindRows(env, vars, rows)
    decreases |rows|
  {
    OrderShape(vars, keys);
    if rows != [] {
      assert rows[0] in rows && AllWide(rows[1..], |vars|);
      var order := BuildOrder(vars, keys);
      ReorderBind(env, vars, keys, rows[0]);
      ReorderBindRows(env, vars, keys, rows[1..]);
      var all := Reordered(order, vars, rows);
      assert all[0] == KeyOf(order, vars, rows[0]) && all[1..] == Reordered(order, vars, rows[1..]);
    }
  }

  // ----- Sending values -----

  lemma {:induction false} SendRuns(vars: seq<Var>, vs: Tuple, vm: VarMap, st: State, m: Machine)
    requires |vs| == |vars| && JoinBuffer in st.host.buffers
    requires forall i ::
             0 <= i < |vars| ==> vars[i] in vm && vm[vars[i]] in st.locals && st.locals[vm[vars[i]]] == Ref(vs[i])
    ensures Straight(SendVars(vars, vm), st, m) == Some(Sent(st, JoinBuffer, vs))
    decreases |vars|
  {
    if vars == [] {
      assert st.host.buffers[JoinBuffer] + vs == st.host.buffers[JoinBuffer];
      assert Sent(st, JoinBuffer, vs) == st;
    } else {
      var first := [LocalGet(vm[vars[0]]), Push(JoinBuffer)];
      PushRuns(st, vs[0], JoinBuffer, m);
      StraightCons(LocalGet(vm[vars[0]]), [Push(JoinBuffer)], st, st.Pushed(Ref(vs[0])), m);
      assert [LocalGet(vm[vars[0]])] + [Push(JoinBuffer)] == first;
      var s := Sent(st, JoinBuffer, [vs[0]]);
      assert forall i :: 0 <= i < |vars[1..]| ==> vars[1..][i] == vars[i + 1];
      SendRuns(vars[1..], vs[1..], vm, s, m);
      StraightConcat(first, SendVars(vars[1..], vm), st, m);
      SentTwice(st, JoinBuffer, [vs[0]], vs[1..]);
      assert [vs[0]] + vs[1..] == vs;
    }
  }

  /** After a row is bound, each variable's local holds its column. */
  lemma {:induction false} BoundLocal(locals: map<nat, Slot>, vm: VarMap, base: nat, vars: seq<Var>, row: Tuple, i: nat)
    requires Layout(vm, base) && |vars| == |row| && i < |vars| && Distinct(vars)
    requires forall v :: v in vars ==> v in vm && vm[v] in locals
    ensures vm[vars[i]] in BindLocals(locals, vm, vars, row) &&
            BindLocals(locals, vm, vars, row)[vm[vars[i]]] == Ref(row[i])
    decreases |vars|
  {
    var next := locals[vm[vars[0]] := Ref(row[0])];
    assert vars[0] in vars;
    assert Distinct(vars[1..]);
    if i > 0 {
      BoundLocal(next, vm, base, vars[1..], row[1..], i - 1);
    } else {
      forall v | v in vars[1..] && v in vm ensures vm[v] in next && vm[v] != vm[vars[0]] {
        assert v != vars[0];
      }
      BindLocalsFrame(next, vm, vars[1..], row[1..], vm[vars[0]]);
    }
  }

  /** From the state after a row is bound, the values of these variables are sent in order. */
  lemma {:induction false} SendBound(some: seq<Var>, vars: seq<Var>, row: Tuple, locals: map<nat, Slot>, vm: VarMap,
      base: nat, st: State, m: Machine)
    requires Layout(vm, base) && |vars| == |row| && Distinct(vars) && Among(some, vars) && JoinBuffer in st.host.buffers
    requires forall v :: v in vars ==> v in vm && vm[v] in locals
    requires st.locals == BindLocals(locals, vm, vars, row)
    ensures Straight(SendVars(some, vm), st, m) == Some(Sent(st, JoinBuffer, KeyOf(some, vars, row)))
  {
    var vs := KeyOf(some, vars, row);
    forall i | 0 <= i < |some|
      ensures some[i] in vm && vm[some[i]] in st.locals && st.locals[vm[some[i]]] == Ref(vs[i])
    {
      assert some[i] in some;
      BoundLocal(locals, vm, base, vars, row, Position(some[i], vars));
    }
    SendRuns(some, vs, vm, st, m);
  }

  // ----- Building the table -----

  function Committed(st: State, j: nat, row: Tuple): State
    requires j in st.host.joins
  {
    st.(host := st.host.(joins := st.host.joins[j := st.host.joins[j] + [row]]))
  }

  lemma {:induction false} CommitRuns(st: State, j: nat, keys: nat, row: Tuple, m: Machine)
    requires JoinReady(st.host) && j in st.host.joins && keys <= |row|
    ensures Step(JoinCommit(j, keys), Sent(st, JoinBuffer, row), m) == Some(Committed(st, j, row))
  {
    assert [] + row == row;
    assert st.host.buffers[JoinBuffer := row][JoinBuffer := []] == st.host.buffers;
  }

  /** Everything the build loop relies on. */
  ghost predicate Building(st: State, id: int, rows: seq<Tuple>, vars: seq<Var>, order: seq<Var>, vm: VarMap,
      base: nat, n: nat, iters: nat, j: nat) {
    && Layout(vm, base) && base >= FIRST_VAR && Declared(st, base + n) && iters < n && HostOk(st.host)
    && AtRows(st, base + iters, id, rows) && AllWide(rows, |vars|) && Distinct(vars) && Among(order, vars) &&
       VarSet(vars) <= vm.Keys
    && JoinReady(st.host) && j in st.host.joins
  }

  lemma {:induction false} BuildingParts(st: State, id: int, rows: seq<Tuple>, vars: seq<Var>, order: seq<Var>,
      vm: VarMap, base: nat, n: nat, iters: nat, j: nat)
    requires Building(st, id, rows, vars, order, vm, base, n, iters, j)
    ensures Among(order, vars) && AllWide(rows, |vars|) && j in st.host.joins
  {
  }

  lemma {:induction false} BuildTurn(st: State, id: int, rows: seq<Tuple>, vars: seq<Var>, order: seq<Var>, keys: nat,
      b: set<Var>, vm: VarMap, base: nat, n: nat, iters: nat, j: nat, m: Machine) returns (t: State)
    requires Building(st, id, rows, vars, order, vm, base, n, iters, j) && rows != [] && VarSet(vars) !! b &&
             keys <= |order|
    ensures |rows[0]| == |vars|
    ensures Ends(LoopBody(base + iters, vars, vm, SendVars(order, vm) + [JoinCommit(j, keys)]), st, m, Jump(0, t))
    ensures Building(t, id, rows[1..], vars, order, vm, base, n, iters, j) && Kept(st, t, vm, b, base, iters, j, {id})
    ensures t.host.facts == st.host.facts && t.stack == st.stack
    ensures j in st.host.joins && j in t.host.joins &&
            t.host.joins[j] == st.host.joins[j] + [KeyOf(order, vars, rows[0])]
  {
    assert rows[0] in rows;
    assert forall w :: w in vars ==> w in VarSet(vars);
    var row := rows[0];
    var u := Turned(st, id, vm, vars);
    var moved := KeyOf(order, vars, row);
    TurnKeeps(st, id, vm, base, vars, b, iters + 1, j, n);
    TurnLocal(st, id, vm, base, vars, n, base + iters);
    BuildRow(st, id, rows, vars, order, keys, vm, base, n, iters, j, m);
    t := Committed(u, j, moved);
    LoopTurn(base + iters, id, vars, vm, base, SendVars(order, vm) + [JoinCommit(j, keys)], st, m, t);
    assert AllWide(rows[1..], |vars|);
  }

  /** The code for one build row, from the state in which it is bound. */
  lemma {:induction false} BuildRow(st: State, id: int, rows: seq<Tuple>, vars: seq<Var>, order: seq<Var>, keys: nat,
      vm: VarMap, base: nat, n: nat, iters: nat, j: nat, m: Machine)
    requires Building(st, id, rows, vars, order, vm, base, n, iters, j) && rows != [] && keys <= |order| &&
             |rows[0]| == |vars|
    ensures Ends(SendVars(order, vm) + [JoinCommit(j, keys)], Turned(st, id, vm, vars), m,
                 Done(Committed(Turned(st, id, vm, vars), j, KeyOf(order, vars, rows[0]))))
  {
    assert forall w :: w in vars ==> w in VarSet(vars);
    var u, moved := Turned(st, id, vm, vars), KeyOf(order, vars, rows[0]);
    SendBound(order, vars, rows[0], Advanced(st, id).locals, vm, base, u, m);
    CommitRuns(u, j, keys, moved, m);
    StraightOne(JoinCommit(j, keys), Sent(u, JoinBuffer, moved), m);
    StraightConcat(SendVars(order, vm), [JoinCommit(j, keys)], u, m);
    StraightEnds(SendVars(order, vm) + [JoinCommit(j, keys)], u, m);
  }

  lemma {:induction false} BuildEnds(st: State, id: int, vars: seq<Var>, order: seq<Var>, code: seq<Instr>,
      b: set<Var>, vm: VarMap, base: nat, n: nat, iters: nat, j: nat, m: Machine) returns (s: State)
    requires Building(st, id, [], vars, order, vm, base, n, iters, j)
    ensures Ends([Loop(LoopBody(base + iters, vars, vm, code))], st, m, Jump(0, s))
    ensures Kept(st, s, vm, b, base, iters, j, {id}) && JoinReady(s.host) && s.host == st.host && j in st.host.joins
  {
    s := st.(locals := st.locals[TUPLE := Int(0)]);
    LoopLeaves(base + iters, id, vars, vm, code, st, m);
  }

  /** The build loop puts every row into the table, in the order of the join. */
  lemma {:induction false} BuildRuns(st: State, id: int, rows: seq<Tuple>, vars: seq<Var>, order: seq<Var>, keys: nat,
      b: set<Var>, vm: VarMap, base: nat, n: nat, iters: nat, j: nat, m: Machine) returns (s: State)
    requires Building(st, id, rows, vars, order, vm, base, n, iters, j) && VarSet(vars) !! b && keys <= |order|
    ensures Ends([Loop(LoopBody(base + iters, vars, vm, SendVars(order, vm) + [JoinCommit(j, keys)]))], st, m,
                 Jump(0, s))
    ensures Kept(st, s, vm, b, base, iters, j, {id}) && JoinReady(s.host) && s.host.facts == st.host.facts
    ensures j in s.host.joins && s.host.joins[j] == st.host.joins[j] + Reordered(order, vars, rows)
    decreases |rows|
  {
    BuildingParts(st, id, rows, vars, order, vm, base, n, iters, j);
    ReorderedAppend(st.host.joins[j], order, vars, rows);
    hide Building, Kept, Ends, SendVars, LoopBody, KeyOf, Reordered, Among, AllWide, JoinReady, HostOk;
    var code := SendVars(order, vm) + [JoinCommit(j, keys)];
    if rows == [] {
      s := BuildEnds(st, id, vars, order, code, b, vm, base, n, iters, j, m);
    } else {
      var t := BuildTurn(st, id, rows, vars, order, keys, b, vm, base, n, iters, j, m);
      s := BuildRuns(t, id, rows[1..], vars, order, keys, b, vm, base, n, iters, j, m);
      assert t.(stack := st.stack) == t;
      EndsAgain(LoopBody(base + iters, vars, vm, code), st, m, t, Jump(0, s));
      KeptThen(st, t, s, vm, b, base, iters, j, {id});
    }
  }

  // ----- Probing the table -----

  lemma {:induction false} ProbeOpens(u: State, j: nat, it: nat, key: Tuple, m: Machine)
    requires JoinReady(u.host) && j in u.host.joins && it in u.locals
    ensures Straight([JoinProbe(j), LocalSet(it)], Sent(u, JoinBuffer, key), m) ==
            Some(Opened(u, it, Matches(u.host.joins[j], key)))
  {
    assert [] + key == key;
    assert u.host.buffers[JoinBuffer := key][JoinBuffer := []] == u.host.buffers;
    var rows := Matches(u.host.joins[j], key);
    OpenRuns(u, it, rows, m);
    StraightOne(LocalSet(it), OpenIter(u, rows), m);
    StraightCons(JoinProbe(j), [LocalSet(it)], Sent(u, JoinBuffer, key), OpenIter(u, rows), m);
    assert [JoinProbe(j)] + [LocalSet(it)] == [JoinProbe(j), LocalSet(it)];
  }
}
