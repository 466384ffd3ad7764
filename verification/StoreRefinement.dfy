/** The disk store seen as the three tiers of facts that evaluation works on. */
module StoreRefinement {
  import opened Datalog
  import opened Interp
  import opened TableNames
  import opened Tables
  import D = DiskStores
  import S = SemiNaive

  /** The facts of a tier, for the relations with these names. */
  function FactsOf(tb: Tables, t: Tier, names: set<string>): set<Fact> {
    set r, x | r in names && x in Content(tb, t, r) :: Fact(Rel(r), x)
  }

  function View(tb: Tables, names: set<string>): S.Store {
    S.Store(FactsOf(tb, Stable, names), FactsOf(tb, Delta, names), FactsOf(tb, NextDelta, names))
  }

  /** The plan reads its tables and indexes through the scans of the store. */
  ghost predicate Serves(m: Machine, tb: Tables) {
    && (forall p: Pred :: !p.Rel? ==> m.full(p) == [] && m.delta(p) == [])
    && (forall r: string :: D.Lists(m.full(Rel(r)), Content(tb, Stable, r) + Content(tb, Delta, r)))
    && (forall r: string :: D.Lists(m.delta(Rel(r)), Content(tb, Delta, r)))
    && (forall p: Pred, c: nat, k: Value :: !p.Rel? ==> m.index(p, c, k) == [])
    && (forall r: string, c: nat, k: Value ::
          D.Lists(m.index(Rel(r), c, k), D.WithKey(Content(tb, Stable, r) + Content(tb, Delta, r), c, k)))
  }

  lemma {:induction false} ListsMember(s: seq<Tuple>, all: set<Tuple>, x: Tuple)
    requires D.Lists(s, all)
    ensures x in s <==> x in all
  {
    assert x in s <==> multiset(s)[x] > 0;
  }

  lemma {:induction false} FullShows(m: Machine, tb: Tables, names: set<string>, p: Pred, t: Tuple)
    requires Serves(m, tb) && Known(tb, names)
    ensures t in m.full(p) <==> Fact(p, t) in FactsOf(tb, Stable, names) + FactsOf(tb, Delta, names)
  {
    if p.Rel? {
      assert p == Rel(p.name);
      ListsMember(m.full(Rel(p.name)), Content(tb, Stable, p.name) + Content(tb, Delta, p.name), t);
    }
  }

  lemma {:induction false} DeltaShows(m: Machine, tb: Tables, names: set<string>, p: Pred, t: Tuple)
    requires Serves(m, tb) && Known(tb, names)
    ensures t in m.delta(p) <==> Fact(p, t) in FactsOf(tb, Delta, names)
  {
    if p.Rel? {
      assert p == Rel(p.name);
      ListsMember(m.delta(Rel(p.name)), Content(tb, Delta, p.name), t);
    }
  }

  lemma {:induction false} IndexShows(m: Machine, tb: Tables, p: Pred, c: nat, k: Value, row: Tuple)
    requires Serves(m, tb)
    ensures row in m.index(p, c, k) <==> row in m.full(p) && c < |row| && row[c] == k
  {
    if p.Rel? {
      assert p == Rel(p.name);
      var all := Content(tb, Stable, p.name) + Content(tb, Delta, p.name);
      ListsMember(m.full(Rel(p.name)), all, row);
      ListsMember(m.index(Rel(p.name), c, k), D.WithKey(all, c, k), row);
    }
  }

  /** A machine that reads the store shows exactly the store's visible facts, with sound indexes. */
  lemma {:induction false} StoreShows(m: Machine, tb: Tables, names: set<string>)
    requires Serves(m, tb) && Known(tb, names)
    ensures S.Shows(m, View(tb, names).stable, View(tb, names).delta)
  {
    hide Serves, Known;
    forall p: Pred, t: Tuple { FullShows(m, tb, names, p, t); }
    forall p: Pred, t: Tuple { DeltaShows(m, tb, names, p, t); }
    StoreIndexSound(m, tb);
  }

  lemma {:induction false} StoreIndexSound(m: Machine, tb: Tables)
    requires Serves(m, tb)
    ensures m.IndexSound()
  {
    hide Serves;
    forall r: Pred, c: nat, k: Value, row: Tuple {:trigger row in m.index(r, c, k)}
      ensures (row in m.index(r, c, k) ==> row in m.full(r)) &&
              (row in m.full(r) && c < |row| && row[c] == k ==> row in m.index(r, c, k))
    {
      IndexShows(m, tb, r, c, k, row);
    }
  }

  /** Merging the store's tables is merging its tiers of facts. */
  method MergeStore(store: D.DiskStore)
    requires store.Sound() && Known(store.tables, store.relations)
    modifies store
    ensures store.Sound() && Known(store.tables, store.relations)
    ensures old(store.Valid() && D.Mergeable(store.tables, store.relations)) ==> store.Valid()
    ensures View(store.tables, store.relations) == S.Merge(old(View(store.tables, store.relations)))
  {
    ghost var was := store.tables;
    store.MergeDeltas();
    forall t, r, x | x in Content(store.tables, t, r) ensures r in store.relations {
      assert r in store.relations || x in Content(was, t, r);
    }
    ghost var names, now := store.relations, store.tables;
    assert FactsOf(now, Stable, names) == FactsOf(was, Stable, names) + FactsOf(was, Delta, names);
    assert FactsOf(now, Delta, names) == FactsOf(was, NextDelta, names);
    assert FactsOf(now, NextDelta, names) == {};
  }

  /** Inserting a tuple adds its fact to the next tier exactly when no tier has it. */
  method InsertFact(store: D.DiskStore, r: string, tuple: Tuple) returns (isNew: bool)
    requires store.Valid() && Known(store.tables, store.relations) && r in store.relations
    modifies store
    ensures store.Valid() && store.relations == old(store.relations) && Known(store.tables, store.relations)
    ensures var was := old(View(store.tables, store.relations));
            && (isNew <==> Fact(Rel(r), tuple) !in was.Visible() + was.next)
            && View(store.tables, store.relations) == if isNew then was.(next := was.next + {Fact(Rel(r), tuple)}) else
               was
  {
    ghost var was, names := store.tables, store.relations;
    isNew := store.Insert(r, tuple);
    ghost var now := store.tables;
    forall t ensures Fact(Rel(r), tuple) in FactsOf(was, t, names) <==> tuple in Content(was, t, r) {
    }
    assert FactsOf(now, Stable, names) == FactsOf(was, Stable, names);
    assert FactsOf(now, Delta, names) == FactsOf(was, Delta, names);
    assert FactsOf(now, NextDelta, names) == FactsOf(was, NextDelta, names) + if isNew then {Fact(Rel(r), tuple)} else
           {};
  }
}
