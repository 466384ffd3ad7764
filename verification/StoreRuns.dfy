/** Runs of operations on a disk store whose relation names do not continue one another. */
module StoreRuns {
  import opened Datalog
  import opened TableNames
  import opened Tables
  import opened DiskStores

  datatype Operation =
    | Insertion(rel: string, tuple: Tuple)
    | Retraction(rel: string, tuple: Tuple)
    | Clearing(rel: string)
    | Creation(rel: string)
    | Merging

  /** The created relations, and the tuples of each tier. */
  datatype Image = Image(created: set<string>, at: (Tier, string) -> set<Tuple>)

  function Apply(op: Operation, i: Image): Image {
    match op
    case Insertion(r, x) =>
      i.(at := (t, q) =>
               if t == NextDelta && q == r && x !in i.at(Stable, r) + i.at(Delta, r) then i.at(t, q) + {x} else
               i.at(t, q))
    case Retraction(r, x) => i.(at := (t, q) => if q == r then i.at(t, q) - {x} else i.at(t, q))
    case Clearing(r) => i.(at := (t, q) => if q == r then {} else i.at(t, q))
    case Creation(r) => i.(created := i.created + {r})
    case Merging =>
      i.(at := (t, q) =>
        if q !in i.created then i.at(t, q)
        else match t
             case Stable => i.at(Stable, q) + i.at(Delta, q)
             case Delta => i.at(NextDelta, q)
             case NextDelta => {})
  }

  function ApplyAll(ops: seq<Operation>, i: Image): Image {
    if ops == [] then i else Apply(ops[|ops| - 1], ApplyAll(ops[..|ops| - 1], i))
  }

  predicate Over(op: Operation, names: set<string>) {
    !op.Merging? ==> op.rel in names
  }

  ghost predicate Holds(store: DiskStore, i: Image)
    reads store
  {
    store.relations == i.created && forall t, q :: Content(store.tables, t, q) == i.at(t, q)
  }

  /** What every operation keeps. */
  ghost predicate Kept(store: DiskStore, names: set<string>)
    reads store
  {
    store.Valid() && Known(store.tables, names) && store.relations <= names && Apart(names)
  }

  method Perform(store: DiskStore, op: Operation, names: set<string>, ghost i: Image)
    requires Kept(store, names) && Over(op, names) && Holds(store, i)
    modifies store
    ensures Kept(store, names) && Holds(store, Apply(op, i))
  {
    hide Indexed, Separate, Content;
    forall t, r | r in names ensures Separate(store.tables, t, r) { ApartSeparate(store.tables, t, r, names); }
    match op
    case Insertion(r, x) => var _ := store.Insert(r, x);
    case Retraction(r, x) => var _ := store.Retract(r, x);
    case Clearing(r) => store.Clear(r);
    case Creation(r) => store.CreateRelation(r);
    case Merging => store.MergeDeltas();
    assert Holds(store, Apply(op, i));
    assert Known(store.tables, names);
  }

  /** A run of operations leaves rows and index in agreement, and the tuples as computed. */
  method Run(store: DiskStore, ops: seq<Operation>, names: set<string>, ghost i: Image)
    requires Kept(store, names) && (forall op :: op in ops ==> Over(op, names)) && Holds(store, i)
    modifies store
    ensures Kept(store, names) && Holds(store, ApplyAll(ops, i))
  {
    for k := 0 to |ops|
      invariant Kept(store, names) && Holds(store, ApplyAll(ops[..k], i))
    {
      assert ops[..k + 1][..k] == ops[..k] && ops[k] in ops;
      Perform(store, ops[k], names, ApplyAll(ops[..k], i));
    }
    assert ops[..|ops|] == ops;
  }

  /** A new store, a run over names without colons, and two scans: the index scan lists what
      the full scan lists with the key in the column. */
  method Session(ops: seq<Operation>, r: string, col: nat, key: Value) returns (all: seq<Tuple>, keyed: seq<Tuple>)
    requires forall op :: op in ops && !op.Merging? ==> ':' !in op.rel
    ensures var i := ApplyAll(ops, Image({}, (t, q) => {}));
            Lists(all, i.at(Stable, r) + i.at(Delta, r))
    ensures forall x :: multiset(keyed)[x] == if col < |x| && x[col] == key then multiset(all)[x] else 0
  {
    var store := new DiskStore();
    ghost var i: Image := Image({}, (t, q) => {});
    var names := set op | op in ops && !op.Merging? :: op.rel;
    ColonFreeApart(names);
    assert Known(store.tables, names);
    Run(store, ops, names, i);
    all := store.Scan(r);
    keyed := store.ScanIndex(r, col, key);
  }

  // ----- Which tuples a run leaves -----

  ghost predicate Present(i: Image, r: string, x: Tuple) {
    exists t :: x in i.at(t, r)
  }

  /** Whether the tuple is there after the run: the last operation on it decides. */
  predicate Left(ops: seq<Operation>, r: string, x: Tuple, before: bool) {
    if ops == [] then before
    else
      var last := ops[|ops| - 1];
      if last == Insertion(r, x) then true
      else if last == Retraction(r, x) || last == Clearing(r) then false
      else Left(ops[..|ops| - 1], r, x, before)
  }

  /** Merges and operations on other tuples and relations neither lose nor add a tuple. */
  lemma {:induction false} LastDecides(ops: seq<Operation>, i: Image, r: string, x: Tuple)
    ensures Present(ApplyAll(ops, i), r, x) <==> Left(ops, r, x, Present(i, r, x))
    decreases |ops|
  {
    if ops != [] {
      var rest := ops[..|ops| - 1];
      LastDecides(rest, i, r, x);
      OneDecides(ops[|ops| - 1], ApplyAll(rest, i), r, x);
    }
  }

  lemma {:induction false} InSomeTier(i: Image, r: string, x: Tuple)
    ensures Present(i, r, x) <==> x in i.at(Stable, r) || x in i.at(Delta, r) || x in i.at(NextDelta, r)
  {
    if Present(i, r, x) {
      var t :| x in i.at(t, r);
      assert t == Stable || t == Delta || t == NextDelta;
    }
  }

  lemma {:induction false} OneDecides(op: Operation, i: Image, r: string, x: Tuple)
    ensures Present(Apply(op, i), r, x) <==>
            if op == Insertion(r, x) then true else if op == Retraction(r, x) || op == Clearing(r) then false else
            Present(i, r, x)
  {
    var j := Apply(op, i);
    InSomeTier(i, r, x);
    InSomeTier(j, r, x);
  }
}
