/** The tables of a disk store: rows by id, and index entries by value and row id. */
module Tables {
  import opened Datalog
  import opened TableNames

  type Rows = map<nat, Tuple>
  type Entries = set<(Value, nat)>

  datatype Tables = Tables(primary: map<string, Rows>, index: map<string, Entries>)

  function RowsOf(tb: Tables, t: Tier, r: string): Rows {
    if PrimaryName(t, r) in tb.primary then tb.primary[PrimaryName(t, r)] else map[]
  }

  function EntriesOf(tb: Tables, t: Tier, r: string, c: nat): Entries {
    if IndexName(t, r, c) in tb.index then tb.index[IndexName(t, r, c)] else {}
  }

  function SetRows(tb: Tables, t: Tier, r: string, rows: Rows): Tables {
    tb.(primary := tb.primary[PrimaryName(t, r) := rows])
  }

  function SetEntries(tb: Tables, t: Tier, r: string, c: nat, es: Entries): Tables {
    tb.(index := tb.index[IndexName(t, r, c) := es])
  }

  /** Drop the primary table, and every index table whose name has the relation's prefix. */
  function DropTier(tb: Tables, t: Tier, r: string): Tables {
    Tables(tb.primary - {PrimaryName(t, r)}, map n | n in tb.index && !(IndexPrefix(t, r) <= n) :: tb.index[n])
  }

  lemma {:induction false} SetRowsAt(tb: Tables, t: Tier, r: string, rows: Rows)
    ensures var tb' := SetRows(tb, t, r, rows);
            && (forall u, q :: RowsOf(tb', u, q) == if u == t && q == r then rows else RowsOf(tb, u, q))
            && (forall u, q, c: nat :: EntriesOf(tb', u, q, c) == EntriesOf(tb, u, q, c))
  {
    forall u, q | PrimaryName(u, q) == PrimaryName(t, r) ensures u == t && q == r { PrimaryInjective(u, q, t, r); }
  }

  lemma {:induction false} SetEntriesAt(tb: Tables, t: Tier, r: string, c: nat, es: Entries)
    ensures var tb' := SetEntries(tb, t, r, c, es);
            && (forall u, q :: RowsOf(tb', u, q) == RowsOf(tb, u, q))
            && (forall u, q, d: nat ::
                EntriesOf(tb', u, q, d) == if u == t && q == r && d == c then es else EntriesOf(tb, u, q, d))
  {
    forall u, q, d: nat | IndexName(u, q, d) == IndexName(t, r, c) ensures u == t && q == r && d == c {
      IndexInjective(u, q, d, t, r, c);
    }
  }

  lemma {:induction false} DropTierAt(tb: Tables, t: Tier, r: string)
    ensures var tb' := DropTier(tb, t, r);
            && (forall u, q :: RowsOf(tb', u, q) == if u == t && q == r then map[] else RowsOf(tb, u, q))
            && (forall u, q, c: nat :: EntriesOf(tb', u, q, c) ==
                  if u == t && (q == r || Continues(q, r)) then {} else EntriesOf(tb, u, q, c))
  {
    forall u, q | PrimaryName(u, q) == PrimaryName(t, r) ensures u == t && q == r { PrimaryInjective(u, q, t, r); }
    forall u, q, c: nat ensures IndexPrefix(t, r) <= IndexName(u, q, c) <==> u == t && (q == r || Continues(q, r)) {
      PrefixFinds(t, r, u, q, c);
    }
  }

  // ----- Index and rows agree -----

  predicate InColumn(rows: Rows, id: nat, c: nat, v: Value) {
    id in rows && c < |rows[id]| && rows[id][c] == v
  }

  /** An index entry for exactly each column of each row. */
  ghost predicate Indexed(tb: Tables) {
    forall t, r, c: nat, v, id: nat :: (v, id) in EntriesOf(tb, t, r, c) <==> InColumn(RowsOf(tb, t, r), id, c, v)
  }

  /** The rows of a tier as a set of tuples. */
  function Content(tb: Tables, t: Tier, r: string): set<Tuple> {
    RowsOf(tb, t, r).Values
  }

  /** No relation whose name continues this one has a row with a column in the tier. */
  ghost predicate Separate(tb: Tables, t: Tier, r: string) {
    forall q, x :: Continues(q, r) && x in Content(tb, t, q) ==> x == []
  }

  /** Dropping a relation keeps rows and index in agreement exactly when no other relation's
      index is caught by the name prefix. */
  lemma {:induction false} DropKeepsIndex(tb: Tables, t: Tier, r: string)
    requires Indexed(tb)
    ensures Indexed(DropTier(tb, t, r)) <==> Separate(tb, t, r)
  {
    var tb' := DropTier(tb, t, r);
    DropTierAt(tb, t, r);
    if Separate(tb, t, r) {
      forall u, q, c: nat, v, id: nat
        ensures (v, id) in EntriesOf(tb', u, q, c) <==> InColumn(RowsOf(tb', u, q), id, c, v)
      {
        assert (v, id) in EntriesOf(tb, u, q, c) <==> InColumn(RowsOf(tb, u, q), id, c, v);
        if u == t && Continues(q, r) && id in RowsOf(tb, t, q) { assert RowsOf(tb, t, q)[id] in Content(tb, t, q); }
      }
    }
    if Indexed(tb') {
      forall q, x | Continues(q, r) && x in Content(tb, t, q) ensures x == [] {
        var id :| id in RowsOf(tb, t, q) && RowsOf(tb, t, q)[id] == x;
        if x != [] {
          assert q != r by { assert |q| > |r|; }
          assert InColumn(RowsOf(tb', t, q), id, 0, x[0]);
          assert false;
        }
      }
    }
  }

  /** Only these relations have rows. */
  ghost predicate Known(tb: Tables, names: set<string>) {
    forall t, r, x :: x in Content(tb, t, r) ==> r in names
  }

  /** No name continues another with a colon. */
  predicate Apart(names: set<string>) {
    forall q, r :: q in names && r in names ==> !Continues(q, r)
  }

  lemma {:induction false} ColonFreeApart(names: set<string>)
    requires forall r :: r in names ==> ':' !in r
    ensures Apart(names)
  {
    forall q, r | q in names && r in names ensures !Continues(q, r) {
      if Continues(q, r) { ContinuesColon(q, r); }
    }
  }

  lemma {:induction false} ApartSeparate(tb: Tables, t: Tier, r: string, names: set<string>)
    requires Known(tb, names) && Apart(names) && r in names
    ensures Separate(tb, t, r)
  {
  }

  /** Dropping keeps index and rows in agreement for all tables over these names, if and only
      if no name continues another. */
  lemma {:induction false} NamesSafeIff(names: set<string>)
    ensures (forall tb, t, r {:trigger DropTier(tb, t, r), Known(tb, names)} ::
               Indexed(tb) && Known(tb, names) && r in names ==> Indexed(DropTier(tb, t, r))) <==> Apart(names)
  {
    if Apart(names) {
      forall tb, t, r | Indexed(tb) && Known(tb, names) && r in names ensures Indexed(DropTier(tb, t, r)) {
        ApartSeparate(tb, t, r, names);
        DropKeepsIndex(tb, t, r);
      }
    } else {
      var q, r :| q in names && r in names && Continues(q, r);
      var tb := OneRow(q, Null);
      OneRowAt(q, Null);
      assert Known(tb, names);
      assert [Null] in Content(tb, Delta, q) by { assert RowsOf(tb, Delta, q)[0] == [Null]; }
      DropKeepsIndex(tb, Delta, r);
      assert !Indexed(DropTier(tb, Delta, r));
    }
  }

  lemma {:induction false} OneRowAt(r: string, v: Value)
    ensures Indexed(OneRow(r, v))
    ensures forall t, q :: RowsOf(OneRow(r, v), t, q) == if t == Delta && q == r then map[0 := [v]] else map[]
  {
    var empty: Tables := Tables(map[], map[]);
    var rows, tb := SetRows(empty, Delta, r, map[0 := [v]]), OneRow(r, v);
    SetRowsAt(empty, Delta, r, map[0 := [v]]);
    SetEntriesAt(rows, Delta, r, 0, {(v, 0)});
    forall t, q, c: nat, w, id: nat
      ensures (w, id) in EntriesOf(tb, t, q, c) <==> InColumn(RowsOf(tb, t, q), id, c, w)
    {
      assert EntriesOf(empty, t, q, c) == {} && RowsOf(empty, t, q) == map[];
    }
  }

  function OneRow(r: string, v: Value): Tables {
    SetEntries(SetRows(Tables(map[], map[]), Delta, r, map[0 := [v]]), Delta, r, 0, {(v, 0)})
  }

  /** With a row in `a:b`, dropping `a` loses the index of `a:b`. */
  lemma {:induction false} ColonNameLosesIndex(v: Value)
    ensures Indexed(OneRow("a:b", v)) && !Indexed(DropTier(OneRow("a:b", v), Delta, "a"))
  {
    var tb := OneRow("a:b", v);
    OneRowAt("a:b", v);
    assert Continues("a:b", "a") by { assert "a:b"[..2] == "a" + ":"; }
    assert RowsOf(tb, Delta, "a:b")[0] == [v] && [v] in Content(tb, Delta, "a:b");
    DropKeepsIndex(tb, Delta, "a");
  }
}
