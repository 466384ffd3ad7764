/** The disk-backed store: three tiers per relation, every column indexed. */
module DiskStores {
  import opened Datalog
  import opened TableNames
  import opened Tables

  /** Row ids are used up to the relation's next id only. */
  ghost predicate IdsBelow(tb: Tables, nextIds: map<string, nat>) {
    forall t, r, id :: id in RowsOf(tb, t, r) ==> r in nextIds && id < nextIds[r]
  }

  ghost predicate OnceIn(tb: Tables, r: string) {
    forall t, u, i, j ::
    i in RowsOf(tb, t, r) && j in RowsOf(tb, u, r) && RowsOf(tb, t, r)[i] == RowsOf(tb, u, r)[j] ==>
      t == u && i == j
  }

  /** A tuple is stored once, in one tier. */
  ghost predicate StoredOnce(tb: Tables) {
    forall r :: OnceIn(tb, r)
  }

  /** The tiers of each relation share no tuple, and no tier has one twice. */
  lemma {:induction false} StoredOnceMeans(tb: Tables, r: string, t: Tier, u: Tier)
    requires OnceIn(tb, r) && t != u
    ensures Content(tb, t, r) !! Content(tb, u, r)
  {
    if x :| x in Content(tb, t, r) && x in Content(tb, u, r) {
      var i := IdOf(tb, t, r, x);
      var j := IdOf(tb, u, r, x);
      assert false;
    }
  }

  lemma {:induction false} IdOf(tb: Tables, t: Tier, r: string, x: Tuple) returns (i: nat)
    requires x in Content(tb, t, r)
    ensures i in RowsOf(tb, t, r) && RowsOf(tb, t, r)[i] == x
  {
    i :| i in RowsOf(tb, t, r) && RowsOf(tb, t, r)[i] == x;
  }

  // ----- Steps of a transaction -----

  /** The index entry of one column of a row, if the row has the column. */
  function Cell(tuple: Tuple, c: nat, id: nat): Entries {
    if c < |tuple| then {(tuple[c], id)} else {}
  }

  /** Add the index entries of a row, one column after the other. */
  method IndexRow(tb: Tables, t: Tier, r: string, tuple: Tuple, id: nat) returns (tb': Tables)
    ensures forall u, q :: RowsOf(tb', u, q) == RowsOf(tb, u, q)
    ensures forall u, q, c: nat ::
      EntriesOf(tb', u, q, c) == if u == t && q == r then EntriesOf(tb, t, r, c) + Cell(tuple, c, id) else
      EntriesOf(tb, u, q, c)
  {
    tb' := tb;
    for col := 0 to |tuple|
      invariant forall u, q :: RowsOf(tb', u, q) == RowsOf(tb, u, q)
      invariant forall u, q, c: nat ::
        EntriesOf(tb', u, q, c) == if u == t && q == r && c < col then EntriesOf(tb, t, r, c) + Cell(tuple, c, id) else
        EntriesOf(tb, u, q, c)
    {
      var es := EntriesOf(tb', t, r, col) + {(tuple[col], id)};
      SetEntriesAt(tb', t, r, col, es);
      tb' := SetEntries(tb', t, r, col, es);
    }
  }

  method UnindexRow(tb: Tables, t: Tier, r: string, tuple: Tuple, id: nat) returns (tb': Tables)
    ensures forall u, q :: RowsOf(tb', u, q) == RowsOf(tb, u, q)
    ensures forall u, q, c: nat ::
      EntriesOf(tb', u, q, c) == if u == t && q == r then EntriesOf(tb, t, r, c) - Cell(tuple, c, id) else
      EntriesOf(tb, u, q, c)
  {
    tb' := tb;
    for col := 0 to |tuple|
      invariant forall u, q :: RowsOf(tb', u, q) == RowsOf(tb, u, q)
      invariant forall u, q, c: nat ::
        EntriesOf(tb', u, q, c) == if u == t && q == r && c < col then EntriesOf(tb, t, r, c) - Cell(tuple, c, id) else
        EntriesOf(tb, u, q, c)
    {
      var es := EntriesOf(tb', t, r, col) - {(tuple[col], id)};
      SetEntriesAt(tb', t, r, col, es);
      tb' := SetEntries(tb', t, r, col, es);
    }
  }

  /** Write one row and its index entries. */
  method PutRow(tb: Tables, t: Tier, r: string, id: nat, tuple: Tuple) returns (tb': Tables)
    requires id !in RowsOf(tb, t, r)
    ensures Indexed(tb) ==> Indexed(tb')
    ensures forall u, q ::
            RowsOf(tb', u, q) == if u == t && q == r then RowsOf(tb, t, r)[id := tuple] else RowsOf(tb, u, q)
  {
    var rows := RowsOf(tb, t, r)[id := tuple];
    SetRowsAt(tb, t, r, rows);
    tb' := IndexRow(SetRows(tb, t, r, rows), t, r, tuple, id);
    if Indexed(tb) {
      forall u, q, c: nat, v, i: nat
        ensures (v, i) in EntriesOf(tb', u, q, c) <==> InColumn(RowsOf(tb', u, q), i, c, v)
      {
        assert (v, i) in EntriesOf(tb, u, q, c) <==> InColumn(RowsOf(tb, u, q), i, c, v);
      }
    }
  }

  method RemoveRow(tb: Tables, t: Tier, r: string, id: nat) returns (tb': Tables)
    requires Indexed(tb) && id in RowsOf(tb, t, r)
    ensures Indexed(tb')
    ensures forall u, q :: RowsOf(tb', u, q) == if u == t && q == r then RowsOf(tb, t, r) - {id} else RowsOf(tb, u, q)
  {
    var rows := RowsOf(tb, t, r) - {id};
    SetRowsAt(tb, t, r, rows);
    tb' := UnindexRow(SetRows(tb, t, r, rows), t, r, RowsOf(tb, t, r)[id], id);
    forall u, q, c: nat, v, i: nat ensures (v, i) in EntriesOf(tb', u, q, c) <==> InColumn(RowsOf(tb', u, q), i, c, v) {
      assert (v, i) in EntriesOf(tb, u, q, c) <==> InColumn(RowsOf(tb, u, q), i, c, v);
    }
  }

  /** Look the tuple up through the index on column 0, or by scan when it has no columns. */
  method FindTuple(tb: Tables, t: Tier, r: string, tuple: Tuple) returns (id: Option<nat>)
    requires Indexed(tb)
    ensures id.Some? ==> id.value in RowsOf(tb, t, r) && RowsOf(tb, t, r)[id.value] == tuple
    ensures id.None? ==> tuple !in Content(tb, t, r)
  {
    var rows := RowsOf(tb, t, r);
    var entries := EntriesOf(tb, t, r, 0);
    var rest := if tuple == [] then rows.Keys else set e | e in entries && e.0 == tuple[0] :: e.1;
    ghost var candidates := rest;
    while rest != {}
      invariant rest <= candidates
      invariant forall i :: i in candidates - rest && i in rows ==> rows[i] != tuple
    {
      var i :| i in rest;
      if i in rows && rows[i] == tuple { return Some(i); }
      rest := rest - {i};
    }
    forall i | i in rows && rows[i] == tuple ensures i in candidates {
      if tuple != [] {
        assert InColumn(rows, i, 0, tuple[0]);
        assert (tuple[0], i) in entries;
      }
    }
    id := None;
  }

  // ----- Moving the rows of a tier -----

  /** The copies that `from` describes. */
  function Copies(source: Rows, from: map<nat, nat>): Rows {
    map i | i in from && from[i] in source :: source[from[i]]
  }

  /** In the middle of a promotion: `from` tells for each new row of the destination which row
      of the source it copies. */
  ghost predicate Moving(tb: Tables, tb0: Tables, dst: Tier, r: string, source: Rows, from: map<nat, nat>, lo: nat,
      hi: nat) {
    && (Indexed(tb0) ==> Indexed(tb))
    && (forall u, q :: u != dst || q != r ==> RowsOf(tb, u, q) == RowsOf(tb0, u, q))
    && (forall i :: i in from ==> lo <= i < hi && from[i] in source)
    && (forall i, j :: i in from && j in from && from[i] == from[j] ==> i == j)
    && RowsOf(tb, dst, r) == RowsOf(tb0, dst, r) + Copies(source, from)
  }

  lemma {:induction false} CopiedOne(before: Rows, source: Rows, from: map<nat, nat>, id: nat, s: nat)
    requires s in source && id !in from && forall i :: i in from ==> from[i] in source
    ensures (before + Copies(source, from))[id := source[s]] == before + Copies(source, from[id := s])
  {
  }

  lemma {:induction false} MovedOne(tb: Tables, tb': Tables, tb0: Tables, dst: Tier, r: string, source: Rows,
      from: map<nat, nat>, lo: nat, id: nat, s: nat)
    requires Moving(tb, tb0, dst, r, source, from, lo, id) && lo <= id && s in source && s !in from.Values &&
             (Indexed(tb) ==> Indexed(tb'))
    requires RowsOf(tb', dst, r) == RowsOf(tb, dst, r)[id := source[s]]
    requires forall u, q :: u != dst || q != r ==> RowsOf(tb', u, q) == RowsOf(tb, u, q)
    ensures Moving(tb', tb0, dst, r, source, from[id := s], lo, id + 1) && from[id := s].Values == from.Values + {s}
  {
    assert id !in from;
    CopiedOne(RowsOf(tb0, dst, r), source, from, id, s);
    AddedValue(from, id, s);
    assert forall i :: i in from ==> from[i] in from.Values;
  }

  lemma {:induction false} CopiedAll(before: Rows, source: Rows, from: map<nat, nat>, lo: nat)
    requires from.Values == source.Keys && (forall i :: i in before ==> i < lo) && forall i :: i in from ==> lo <= i
    ensures (before + Copies(source, from)).Values == before.Values + source.Values
  {
    var now := before + Copies(source, from);
    forall x ensures x in now.Values <==> x in before.Values || x in source.Values {
      if x in before.Values {
        var i :| i in before && before[i] == x;
        assert now[i] == x;
      }
      if x in source.Values {
        var s :| s in source && source[s] == x;
        assert s in from.Values;
        var i :| i in from && from[i] == s;
        assert now[i] == x;
      }
    }
  }

  /** All rows copied and the source dropped: the destination has the union. */
  lemma {:induction false} MovedAll(tb: Tables, tb0: Tables, src: Tier, dst: Tier, r: string, from: map<nat, nat>,
      lo: nat, hi: nat)
    requires src != dst && StoredOnce(tb0) && Moving(tb, tb0, dst, r, RowsOf(tb0, src, r), from, lo, hi)
    requires from.Values == RowsOf(tb0, src, r).Keys
    requires forall i :: i in RowsOf(tb0, dst, r) ==> i < lo
    ensures var tb' := DropTier(tb, src, r);
            && StoredOnce(tb')
            && Content(tb', src, r) == {}
            && Content(tb', dst, r) == Content(tb0, dst, r) + Content(tb0, src, r)
            && (forall u, q :: (u != dst && u != src) || q != r ==> RowsOf(tb', u, q) == RowsOf(tb0, u, q))
  {
    DropTierAt(tb, src, r);
    CopiedAll(RowsOf(tb0, dst, r), RowsOf(tb0, src, r), from, lo);
    UnionOnce(DropTier(tb, src, r), tb0, src, dst, r, from, lo);
  }

  lemma {:induction false} MovedIndexed(tb: Tables, tb0: Tables, src: Tier, dst: Tier, r: string)
    requires src != dst && Indexed(tb) && Separate(tb0, src, r)
    requires forall u, q :: u != dst || q != r ==> RowsOf(tb, u, q) == RowsOf(tb0, u, q)
    ensures Indexed(DropTier(tb, src, r))
  {
    forall q, x | Continues(q, r) && x in Content(tb, src, q) ensures x == [] { assert x in Content(tb0, src, q); }
    DropKeepsIndex(tb, src, r);
  }

  lemma {:induction false} UnionOnce(tb': Tables, tb0: Tables, src: Tier, dst: Tier, r: string, from: map<nat, nat>,
      lo: nat)
    requires src != dst && StoredOnce(tb0)
    requires forall i :: i in from ==> lo <= i && from[i] in RowsOf(tb0, src, r)
    requires forall i, j :: i in from && j in from && from[i] == from[j] ==> i == j
    requires forall i :: i in RowsOf(tb0, dst, r) ==> i < lo
    requires RowsOf(tb', src, r) == map[]
    requires RowsOf(tb', dst, r) == RowsOf(tb0, dst, r) + Copies(RowsOf(tb0, src, r), from)
    requires forall u, q :: (u != dst && u != src) || q != r ==> RowsOf(tb', u, q) == RowsOf(tb0, u, q)
    ensures StoredOnce(tb')
  {
    hide RowsOf;
    forall q ensures OnceIn(tb', q) {
      if q != r {
        SameRowsOnce(tb0, tb', q);
      } else {
        forall t, u, i, j | i in RowsOf(tb', t, r) && j in RowsOf(tb', u, r) &&
        RowsOf(tb', t, r)[i] == RowsOf(tb', u, r)[j]
          ensures t == u && i == j
        {
          var a, x := Origin(tb', tb0, src, dst, r, from, lo, t, i);
          var b, y := Origin(tb', tb0, src, dst, r, from, lo, u, j);
          assert OnceIn(tb0, r);
          assert a == b && x == y;
        }
      }
    }
  }

  /** Where a row of the relation was before the promotion. */
  lemma {:induction false} Origin(tb': Tables, tb0: Tables, src: Tier, dst: Tier, r: string, from: map<nat, nat>,
      lo: nat, t: Tier, i: nat) returns (a: Tier, x: nat)
    requires src != dst && i in RowsOf(tb', t, r)
    requires forall i :: i in from ==> lo <= i && from[i] in RowsOf(tb0, src, r)
    requires forall i :: i in RowsOf(tb0, dst, r) ==> i < lo
    requires RowsOf(tb', src, r) == map[]
    requires RowsOf(tb', dst, r) == RowsOf(tb0, dst, r) + Copies(RowsOf(tb0, src, r), from)
    requires forall u, q :: (u != dst && u != src) || q != r ==> RowsOf(tb', u, q) == RowsOf(tb0, u, q)
    ensures x in RowsOf(tb0, a, r) && RowsOf(tb0, a, r)[x] == RowsOf(tb', t, r)[i]
    ensures a == src ==> t == dst && i in from && x == from[i]
    ensures a != src ==> t == a && i == x
  {
    hide RowsOf;
    if t == dst && i in from {
      a, x := src, from[i];
    } else {
      a, x := t, i;
    }
  }

  // ----- Which stores can be merged and cleared without loss of index entries -----

  ghost predicate Mergeable(tb: Tables, names: set<string>) {
    forall r :: r in names ==> Separate(tb, Delta, r) && Separate(tb, NextDelta, r)
  }

  lemma {:induction false} StaysMergeable(before: Tables, now: Tables, r: string, names: set<string>)
    requires Mergeable(before, names)
    requires Content(now, Delta, r) == Content(before, NextDelta, r) && Content(now, NextDelta, r) == {}
    requires forall t, q :: q != r ==> Content(now, t, q) == Content(before, t, q)
    ensures Mergeable(now, names)
  {
    forall p | p in names ensures Separate(now, Delta, p) && Separate(now, NextDelta, p) {
      assert Separate(before, Delta, p) && Separate(before, NextDelta, p);
      forall q, x | Continues(q, p) && x in Content(now, Delta, q) ensures x == [] {
        assert x in Content(before, if q == r then NextDelta else Delta, q);
      }
      forall q, x | Continues(q, p) && x in Content(now, NextDelta, q) ensures x == [] {
        assert x in Content(before, NextDelta, q);
      }
    }
  }

  lemma {:induction false} Cleared(before: Tables, now: Tables, r: string)
    requires now == DropTier(DropTier(DropTier(before, Stable, r), Delta, r), NextDelta, r)
    ensures forall u, q :: RowsOf(now, u, q) == if q == r then map[] else RowsOf(before, u, q)
    ensures forall u, q, c: nat ::
            EntriesOf(now, u, q, c) == if q == r || Continues(q, r) then {} else EntriesOf(before, u, q, c)
  {
    DropTierAt(before, Stable, r);
    DropTierAt(DropTier(before, Stable, r), Delta, r);
    DropTierAt(DropTier(DropTier(before, Stable, r), Delta, r), NextDelta, r);
  }

  lemma {:induction false} ClearedIndexed(before: Tables, now: Tables, r: string)
    requires Indexed(before) && now == DropTier(DropTier(DropTier(before, Stable, r), Delta, r), NextDelta, r)
    ensures Indexed(now) <==> forall t :: Separate(before, t, r)
  {
    Cleared(before, now, r);
    if forall t :: Separate(before, t, r) { ClearedWell(before, now, r); }
    if t :| !Separate(before, t, r) {
      var q, x :| Continues(q, r) && x in Content(before, t, q) && x != [];
      var id := IdOf(before, t, q, x);
      assert q != r by { assert |q| > |r|; }
      assert InColumn(RowsOf(now, t, q), id, 0, x[0]) && (x[0], id) !in EntriesOf(now, t, q, 0);
    }
  }

  lemma {:induction false} ClearedWell(before: Tables, now: Tables, r: string)
    requires Indexed(before) && (forall t :: Separate(before, t, r))
    requires forall u, q :: RowsOf(now, u, q) == if q == r then map[] else RowsOf(before, u, q)
    requires forall u, q, c: nat ::
             EntriesOf(now, u, q, c) == if q == r || Continues(q, r) then {} else EntriesOf(before, u, q, c)
    ensures Indexed(now)
  {
    hide RowsOf, EntriesOf;
    forall u, q, c: nat, v, id: nat
      ensures (v, id) in EntriesOf(now, u, q, c) <==> InColumn(RowsOf(now, u, q), id, c, v)
    {
      assert (v, id) in EntriesOf(before, u, q, c) <==> InColumn(RowsOf(before, u, q), id, c, v);
      assert Separate(before, u, r);
      if Continues(q, r) && id in RowsOf(before, u, q) { assert RowsOf(before, u, q)[id] in Content(before, u, q); }
    }
  }

  // ----- One row more or less -----

  lemma {:induction false} SameRowsOnce(tb: Tables, tb': Tables, r: string)
    requires OnceIn(tb, r) && forall t :: RowsOf(tb', t, r) == RowsOf(tb, t, r)
    ensures OnceIn(tb', r)
  {
    hide RowsOf;
  }

  lemma {:induction false} OnceAdded(tb: Tables, tb': Tables, t: Tier, r: string, id: nat, tuple: Tuple)
    requires OnceIn(tb, r) && id !in RowsOf(tb, t, r)
    requires forall u, i :: i in RowsOf(tb, u, r) ==> RowsOf(tb, u, r)[i] != tuple
    requires forall u :: RowsOf(tb', u, r) == if u == t then RowsOf(tb, t, r)[id := tuple] else RowsOf(tb, u, r)
    ensures OnceIn(tb', r)
  {
    hide RowsOf;
  }

  lemma {:induction false} RowAdded(tb: Tables, tb': Tables, nextIds: map<string, nat>, t: Tier, r: string, id: nat,
      tuple: Tuple)
    requires IdsBelow(tb, nextIds) && StoredOnce(tb) && id == (if r in nextIds then nextIds[r] else 0)
    requires tuple !in Content(tb, Stable, r) && tuple !in Content(tb, Delta, r) && tuple !in Content(tb, NextDelta, r)
    requires forall u, q ::
             RowsOf(tb', u, q) == if u == t && q == r then RowsOf(tb, t, r)[id := tuple] else RowsOf(tb, u, q)
    ensures IdsBelow(tb', nextIds[r := id + 1]) && StoredOnce(tb')
    ensures Content(tb', t, r) == Content(tb, t, r) + {tuple}
  {
    hide RowsOf;
    AddedValue(RowsOf(tb, t, r), id, tuple);
    forall u, i | i in RowsOf(tb, u, r) ensures RowsOf(tb, u, r)[i] != tuple {
      assert RowsOf(tb, u, r)[i] in Content(tb, u, r);
    }
    forall q ensures OnceIn(tb', q) {
      if q == r { OnceAdded(tb, tb', t, r, id, tuple); } else { SameRowsOnce(tb, tb', q); }
    }
  }

  lemma {:induction false} RowRemoved(tb: Tables, tb': Tables, nextIds: map<string, nat>, t: Tier, r: string, id: nat)
    requires IdsBelow(tb, nextIds) && StoredOnce(tb) && id in RowsOf(tb, t, r)
    requires forall u, q :: RowsOf(tb', u, q) == if u == t && q == r then RowsOf(tb, t, r) - {id} else RowsOf(tb, u, q)
    ensures IdsBelow(tb', nextIds) && StoredOnce(tb')
    ensures Content(tb', t, r) == Content(tb, t, r) - {RowsOf(tb, t, r)[id]}
  {
    hide RowsOf;
    var rows, tuple := RowsOf(tb, t, r), RowsOf(tb, t, r)[id];
    assert OnceIn(tb, r);
    forall q ensures OnceIn(tb', q) { assert OnceIn(tb, q); }
    forall x ensures x in (rows - {id}).Values <==> x in rows.Values && x != tuple {
      if x in rows.Values && x != tuple {
        var i :| i in rows && rows[i] == x;
        assert (rows - {id})[i] == x;
      }
    }
  }

  // ----- The store -----

  class DiskStore {
    var tables: Tables
    var relations: set<string>
    var nextIds: map<string, nat>

    /** What holds whatever the names of the relations. */
    ghost predicate Sound()
      reads this
    {
      IdsBelow(tables, nextIds) && StoredOnce(tables)
    }

    ghost predicate Valid()
      reads this
    {
      Indexed(tables) && Sound()
    }

    constructor ()
      ensures Valid() && relations == {} && forall t, r :: Content(tables, t, r) == {}
    {
      tables := Tables(map[], map[]);
      relations := {};
      nextIds := map[];
    }

    method AllocId(r: string) returns (id: nat)
      modifies `nextIds
      ensures id == if r in old(nextIds) then old(nextIds)[r] else 0
      ensures nextIds == old(nextIds)[r := id + 1]
    {
      id := if r in nextIds then nextIds[r] else 0;
      nextIds := nextIds[r := id + 1];
    }

    method TierContains(t: Tier, r: string, tuple: Tuple) returns (b: bool)
      requires Valid()
      ensures b <==> tuple in Content(tables, t, r)
    {
      var id := FindTuple(tables, t, r, tuple);
      b := id.Some?;
    }

    /** A tuple is new when no tier has it, and then goes to the next delta. */
    method Insert(r: string, tuple: Tuple) returns (isNew: bool)
      requires Valid()
      modifies `tables, `nextIds
      ensures Valid()
      ensures isNew <==> forall t :: tuple !in old(Content(tables, t, r))
      ensures forall t, q :: t != NextDelta || q != r ==> Content(tables, t, q) == old(Content(tables, t, q))
      ensures Content(tables, NextDelta, r) == old(Content(tables, NextDelta, r)) + if isNew then {tuple} else {}
    {
      var inStable := TierContains(Stable, r, tuple);
      var inDelta := TierContains(Delta, r, tuple);
      var inNext := TierContains(NextDelta, r, tuple);
      if inStable || inDelta || inNext { return false; }
      var id := AllocId(r);
      var tb := PutRow(tables, NextDelta, r, id, tuple);
      RowAdded(tables, tb, old(nextIds), NextDelta, r, id, tuple);
      tables := tb;
      isNew := true;
    }

    method RetractFromTier(t: Tier, r: string, tuple: Tuple) returns (found: bool)
      requires Valid()
      modifies `tables
      ensures Valid()
      ensures found <==> tuple in old(Content(tables, t, r))
      ensures Content(tables, t, r) == old(Content(tables, t, r)) - {tuple}
      ensures forall u, q :: u != t || q != r ==> Content(tables, u, q) == old(Content(tables, u, q))
    {
      var id := FindTuple(tables, t, r, tuple);
      if id.None? { return false; }
      var tb := RemoveRow(tables, t, r, id.value);
      RowRemoved(tables, tb, nextIds, t, r, id.value);
      tables := tb;
      assert tuple in old(Content(tables, t, r));
      found := true;
    }

    /** Remove the tuple from the first tier that has it: then no tier has it. */
    method Retract(r: string, tuple: Tuple) returns (found: bool)
      requires Valid()
      modifies `tables
      ensures Valid()
      ensures found <==> exists t :: tuple in old(Content(tables, t, r))
      ensures forall t :: Content(tables, t, r) == old(Content(tables, t, r)) - {tuple}
      ensures forall u, q :: q != r ==> Content(tables, u, q) == old(Content(tables, u, q))
    {
      assert OnceIn(tables, r);
      StoredOnceMeans(tables, r, Stable, Delta);
      StoredOnceMeans(tables, r, Stable, NextDelta);
      StoredOnceMeans(tables, r, Delta, NextDelta);
      found := RetractFromTier(Stable, r, tuple);
      if found { return; }
      found := RetractFromTier(Delta, r, tuple);
      if found { return; }
      found := RetractFromTier(NextDelta, r, tuple);
    }

    function NextId(r: string): nat
      reads this
    {
      if r in nextIds then nextIds[r] else 0
    }

    /** Write copies of the rows under new ids. */
    method CopyRows(tb0: Tables, dst: Tier, r: string, source: Rows) returns (tb: Tables, ghost from: map<nat, nat>)
      requires forall i :: i in RowsOf(tb0, dst, r) ==> i < NextId(r)
      modifies `nextIds
      ensures Moving(tb, tb0, dst, r, source, from, old(NextId(r)), NextId(r)) && from.Values == source.Keys
      ensures old(NextId(r)) <= NextId(r) && old(nextIds).Keys <= nextIds.Keys && (source != map[] ==> r in nextIds)
      ensures forall q :: q != r && q in old(nextIds) ==> nextIds[q] == old(nextIds)[q]
    {
      from := map[];
      tb := tb0;
      var rest := source.Keys;
      assert RowsOf(tb, dst, r) == RowsOf(tb0, dst, r) + Copies(source, from);
      while rest != {}
        invariant rest <= source.Keys && from.Values == source.Keys - rest
        invariant Moving(tb, tb0, dst, r, source, from, old(NextId(r)), NextId(r))
        invariant old(NextId(r)) <= NextId(r) && old(nextIds).Keys <= nextIds.Keys
        invariant rest == source.Keys || r in nextIds
        invariant forall q :: q != r && q in old(nextIds) ==> nextIds[q] == old(nextIds)[q]
      {
        var s :| s in rest;
        var id := AllocId(r);
        tb, from := CopyOne(tb, tb0, dst, r, source, from, old(NextId(r)), id, s);
        rest := rest - {s};
      }
    }

    /** Move the rows of one tier to another, under new ids. */
    method Promote(src: Tier, dst: Tier, r: string)
      requires Sound() && src != dst
      modifies `tables, `nextIds
      ensures Sound()
      ensures old(Indexed(tables) && Separate(tables, src, r)) ==> Indexed(tables)
      ensures Content(tables, src, r) == {}
      ensures Content(tables, dst, r) == old(Content(tables, dst, r)) + old(Content(tables, src, r))
      ensures forall u, q :: (u != src && u != dst) || q != r ==> RowsOf(tables, u, q) == old(RowsOf(tables, u, q))
    {
      ghost var tb0, ids := tables, nextIds;
      var tb, from := CopyRows(tables, dst, r, RowsOf(tables, src, r));
      MovedAll(tb, tb0, src, dst, r, from, old(NextId(r)), NextId(r));
      MovedIds(tb, tb0, src, dst, r, from, old(NextId(r)), ids, nextIds);
      if Indexed(tb0) && Separate(tb0, src, r) { MovedIndexed(tb, tb0, src, dst, r); }
      tables := DropTier(tb, src, r);
    }

    /** The next delta becomes the delta and the delta joins the stable tier. */
    method MergeRelation(r: string)
      requires Sound()
      modifies `tables, `nextIds
      ensures Sound()
      ensures old(Indexed(tables) && Mergeable(tables, {r})) ==> Indexed(tables)
      ensures Content(tables, Stable, r) == old(Content(tables, Stable, r)) + old(Content(tables, Delta, r))
      ensures Content(tables, Delta, r) == old(Content(tables, NextDelta, r)) && Content(tables, NextDelta, r) == {}
      ensures forall u, q :: q != r ==> Content(tables, u, q) == old(Content(tables, u, q))
    {
      Promote(Delta, Stable, r);
      assert old(Separate(tables, NextDelta, r)) ==> Separate(tables, NextDelta, r) by {
        assert forall q :: Content(tables, NextDelta, q) == old(Content(tables, NextDelta, q));
      }
      Promote(NextDelta, Delta, r);
    }

    /** Merge every created relation: none loses a tuple, whatever the names. */
    method MergeDeltas()
      requires Sound()
      modifies `tables, `nextIds
      ensures Sound()
      ensures old(Indexed(tables) && Mergeable(tables, relations)) ==> Indexed(tables)
      ensures forall r :: r in relations ==>
        && Content(tables, Stable, r) == old(Content(tables, Stable, r)) + old(Content(tables, Delta, r))
        && Content(tables, Delta, r) == old(Content(tables, NextDelta, r))
        && Content(tables, NextDelta, r) == {}
      ensures forall t, r :: r !in relations ==> Content(tables, t, r) == old(Content(tables, t, r))
    {
      hide Indexed, Separate, Content;
      var rest := relations;
      while rest != {}
        invariant Sound() && rest <= relations
        invariant old(Indexed(tables) && Mergeable(tables, relations)) ==>
                  Indexed(tables) && Mergeable(tables, relations)
        invariant forall r :: r in relations - rest ==>
          && Content(tables, Stable, r) == old(Content(tables, Stable, r)) + old(Content(tables, Delta, r))
          && Content(tables, Delta, r) == old(Content(tables, NextDelta, r))
          && Content(tables, NextDelta, r) == {}
        invariant forall t, r :: r !in relations || r in rest ==> Content(tables, t, r) == old(Content(tables, t, r))
      {
        var r :| r in rest;
        ghost var before := tables;
        MergeRelation(r);
        rest := rest - {r};
        if Mergeable(before, relations) { StaysMergeable(before, tables, r, relations); }
      }
    }

    method CreateRelation(r: string)
      requires Valid()
      modifies this
      ensures Valid() && relations == old(relations) + {r}
      ensures forall t, q :: Content(tables, t, q) == old(Content(tables, t, q))
    {
      if r !in relations {
        relations := relations + {r};
        if r !in nextIds { nextIds := nextIds[r := 0]; }
        if PrimaryName(Stable, r) !in tables.primary {
          SetRowsAt(tables, Stable, r, map[]);
          assert RowsOf(tables, Stable, r) == map[];
          ghost var before := tables;
          tables := SetRows(tables, Stable, r, map[]);
          SameRows(before, tables, nextIds);
        }
      }
    }

    /** Drop the tables of the relation: index and rows of the others agree afterwards exactly
        when no relation that continues the name has a row with a column. */
    method Clear(r: string)
      requires Sound()
      modifies `tables
      ensures Sound()
      ensures old(Indexed(tables)) ==> (Indexed(tables) <==> old(forall t :: Separate(tables, t, r)))
      ensures forall t :: Content(tables, t, r) == {}
      ensures forall t, q :: q != r ==> Content(tables, t, q) == old(Content(tables, t, q))
    {
      ghost var before := tables;
      Drop(Stable, r);
      Drop(Delta, r);
      Drop(NextDelta, r);
      Cleared(before, tables, r);
      if Indexed(before) { ClearedIndexed(before, tables, r); }
    }

    method Drop(t: Tier, r: string)
      requires Sound()
      modifies `tables
      ensures Sound() && tables == DropTier(old(tables), t, r)
    {
      DropTierAt(tables, t, r);
      ghost var before := tables;
      tables := DropTier(tables, t, r);
      FewerRows(before, tables, nextIds);
    }

    /** The visible tuples, each once. */
    method Scan(r: string) returns (out: seq<Tuple>)
      requires Valid()
      ensures Lists(out, Content(tables, Stable, r) + Content(tables, Delta, r))
    {
      assert OnceIn(tables, r);
      StoredOnceMeans(tables, r, Stable, Delta);
      var s := ReadTuples(RowsOf(tables, Stable, r));
      var d := ReadTuples(RowsOf(tables, Delta, r));
      out := s + d;
    }

    method ScanDelta(r: string) returns (out: seq<Tuple>)
      requires Valid()
      ensures Lists(out, Content(tables, Delta, r))
    {
      assert OnceIn(tables, r);
      out := ReadTuples(RowsOf(tables, Delta, r));
    }

    /** Exactly the visible tuples with the key in the column, each once. */
    method ScanIndex(r: string, col: nat, key: Value) returns (out: seq<Tuple>)
      requires Valid()
      ensures Lists(out, WithKey(Content(tables, Stable, r) + Content(tables, Delta, r), col, key))
    {
      assert OnceIn(tables, r);
      StoredOnceMeans(tables, r, Stable, Delta);
      var s := FetchByIndex(RowsOf(tables, Stable, r), EntriesOf(tables, Stable, r, col), col, key);
      var d := FetchByIndex(RowsOf(tables, Delta, r), EntriesOf(tables, Delta, r, col), col, key);
      out := s + d;
    }
  }

  /** The sequence has exactly the elements of the set, each once. */
  ghost predicate Lists(s: seq<Tuple>, all: set<Tuple>) {
    forall x :: multiset(s)[x] == if x in all then 1 else 0
  }

  function WithKey(all: set<Tuple>, col: nat, key: Value): set<Tuple> {
    set x | x in all && col < |x| && x[col] == key
  }

  method ReadTuples(rows: Rows) returns (out: seq<Tuple>)
    requires forall i, j :: i in rows && j in rows && rows[i] == rows[j] ==> i == j
    ensures Lists(out, rows.Values)
  {
    out := [];
    var rest := rows.Keys;
    while rest != {}
      invariant rest <= rows.Keys
      invariant forall x :: multiset(out)[x] == if exists i :: i in rows && i !in rest && rows[i] == x then 1 else 0
    {
      var i :| i in rest;
      out := out + [rows[i]];
      rest := rest - {i};
    }
  }

  method FetchByIndex(rows: Rows, entries: Entries, col: nat, key: Value) returns (out: seq<Tuple>)
    requires forall i, j :: i in rows && j in rows && rows[i] == rows[j] ==> i == j
    requires forall v, i: nat :: (v, i) in entries <==> InColumn(rows, i, col, v)
    ensures Lists(out, WithKey(rows.Values, col, key))
  {
    out := [];
    var rest := set e | e in entries && e.0 == key :: e.1;
    ghost var ids := rest;
    while rest != {}
      invariant rest <= ids
      invariant forall x ::
                multiset(out)[x] == if exists i :: i in rows && i in ids && i !in rest && rows[i] == x then 1 else 0
    {
      var i :| i in rest;
      if i in rows { out := out + [rows[i]]; }
      rest := rest - {i};
    }
    forall i: nat ensures i in ids <==> InColumn(rows, i, col, key) {
      if InColumn(rows, i, col, key) { assert (key, i) in entries; }
    }
  }

  lemma {:induction false} SameRows(tb: Tables, tb': Tables, nextIds: map<string, nat>)
    requires Indexed(tb) && IdsBelow(tb, nextIds) && StoredOnce(tb)
    requires forall u, q :: RowsOf(tb', u, q) == RowsOf(tb, u, q)
    requires forall u, q, c: nat :: EntriesOf(tb', u, q, c) == EntriesOf(tb, u, q, c)
    ensures Indexed(tb') && IdsBelow(tb', nextIds) && StoredOnce(tb')
  {
    forall q ensures OnceIn(tb', q) { SameRowsOnce(tb, tb', q); }
  }

  lemma {:induction false} FewerRows(tb: Tables, tb': Tables, nextIds: map<string, nat>)
    requires IdsBelow(tb, nextIds) && StoredOnce(tb)
    requires forall u, q :: RowsOf(tb', u, q) == RowsOf(tb, u, q) || RowsOf(tb', u, q) == map[]
    ensures IdsBelow(tb', nextIds) && StoredOnce(tb')
  {
    forall q ensures OnceIn(tb', q) { assert OnceIn(tb, q); }
  }

  method CopyOne(tb: Tables, ghost tb0: Tables, dst: Tier, r: string, source: Rows, ghost from: map<nat, nat>,
      ghost lo: nat, id: nat, s: nat)
    returns (tb': Tables, ghost from': map<nat, nat>)
    requires Moving(tb, tb0, dst, r, source, from, lo, id) && lo <= id && s in source && s !in from.Values
    requires forall i :: i in RowsOf(tb0, dst, r) ==> i < lo
    ensures Moving(tb', tb0, dst, r, source, from', lo, id + 1) && from'.Values == from.Values + {s}
  {
    assert id !in RowsOf(tb, dst, r);
    tb' := PutRow(tb, dst, r, id, source[s]);
    MovedOne(tb, tb', tb0, dst, r, source, from, lo, id, s);
    from' := from[id := s];
  }

  lemma {:induction false} MovedIds(tb: Tables, tb0: Tables, src: Tier, dst: Tier, r: string, from: map<nat, nat>,
      lo: nat, ids: map<string, nat>, ids': map<string, nat>)
    requires src != dst && IdsBelow(tb0, ids) && ids.Keys <= ids'.Keys && (from != map[] ==> r in ids')
    requires forall q :: q in ids ==> ids[q] <= ids'[q]
    requires Moving(tb, tb0, dst, r, RowsOf(tb0, src, r), from, lo, if r in ids' then ids'[r] else 0)
    ensures IdsBelow(DropTier(tb, src, r), ids')
  {
    DropTierAt(tb, src, r);
  }

  lemma {:induction false} AddedValue<K, V>(m: map<K, V>, k: K, v: V)
    requires k !in m
    ensures m[k := v].Values == m.Values + {v}
  {
    var more := m[k := v];
    assert more[k] == v;
    forall x | x in m.Values ensures x in more.Values {
      var i :| i in m && m[i] == x;
      assert more[i] == x;
    }
  }
}
