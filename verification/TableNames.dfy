/** The names of the tables of a disk store. */
module TableNames {

  datatype Tier = Stable | Delta | NextDelta

  function TierName(t: Tier): string {
    match t
    case Stable => "stable"
    case Delta => "delta"
    case NextDelta => "next_delta"
  }

  function Digit(d: nat): char
    requires d < 10
  {
    "0123456789"[d]
  }

  function Decimal(n: nat): string {
    if n < 10 then [Digit(n)] else Decimal(n / 10) + [Digit(n % 10)]
  }

  function PrimaryName(t: Tier, rel: string): string {
    TierName(t) + ":" + rel
  }

  function IndexPrefix(t: Tier, rel: string): string {
    "idx_" + TierName(t) + ":" + rel + ":"
  }

  function IndexName(t: Tier, rel: string, col: nat): string {
    IndexPrefix(t, rel) + Decimal(col)
  }

  // ----- Names determine what they name -----

  lemma {:induction false} DecimalDigits(n: nat)
    ensures Decimal(n) != [] && ':' !in Decimal(n)
  {
    if n >= 10 { DecimalDigits(n / 10); }
  }

  lemma {:induction false} DecimalInjective(a: nat, b: nat)
    requires Decimal(a) == Decimal(b)
    ensures a == b
  {
    var s, u := Decimal(a), Decimal(b);
    assert s[|s| - 1] == Digit(a % 10) && u[|u| - 1] == Digit(b % 10);
    if a < 10 || b < 10 {
      if a >= 10 { DecimalDigits(a / 10); }
      if b >= 10 { DecimalDigits(b / 10); }
    } else {
      assert s[..|s| - 1] == Decimal(a / 10) && u[..|u| - 1] == Decimal(b / 10);
      DecimalInjective(a / 10, b / 10);
    }
  }

  lemma {:induction false} TierColon(t: Tier)
    ensures ':' !in TierName(t) && ':' !in "idx_" + TierName(t)
  {
  }

  /** Where two splits of a string at a colon differ, the longer first part and the longer
      second part contain the other split's colon. */
  lemma {:induction false} ColonInside(a: string, b: string, c: string, d: string)
    requires (a + ":") + b == (c + ":") + d && |a| < |c|
    ensures ':' in c && ':' in b
  {
    var s := (a + ":") + b;
    assert s[|a|] == ':' && s[|a|] == c[|a|];
    assert s[|c|] == ':' && s[|c|] == b[|c| - |a| - 1];
  }

  lemma {:induction false} SameSplit(a: string, b: string, c: string, d: string)
    requires (a + ":") + b == (c + ":") + d && |a| == |c|
    ensures a == c && b == d
  {
    var s := (a + ":") + b;
    assert s[..|a|] == a && s[..|a|] == c;
    assert s[|a| + 1..] == b && s[|a| + 1..] == d;
  }

  /** The part before the first colon is unique. */
  lemma {:induction false} FirstColon(a: string, b: string, c: string, d: string)
    requires ':' !in a && ':' !in c && (a + ":") + b == (c + ":") + d
    ensures a == c && b == d
  {
    if |a| < |c| {
      ColonInside(a, b, c, d);
      assert false;
    } else if |c| < |a| {
      ColonInside(c, d, a, b);
      assert false;
    } else {
      SameSplit(a, b, c, d);
    }
  }

  /** The part after the last colon is unique. */
  lemma {:induction false} LastColon(a: string, b: string, c: string, d: string)
    requires ':' !in b && ':' !in d && (a + ":") + b == (c + ":") + d
    ensures a == c && b == d
  {
    if |a| < |c| {
      ColonInside(a, b, c, d);
      assert false;
    } else if |c| < |a| {
      ColonInside(c, d, a, b);
      assert false;
    } else {
      SameSplit(a, b, c, d);
    }
  }

  lemma {:induction false} TierInjective(t: Tier, u: Tier)
    requires TierName(t) == TierName(u)
    ensures t == u
  {
    assert |TierName(Stable)| == 6 && |TierName(Delta)| == 5 && |TierName(NextDelta)| == 10;
  }

  lemma {:induction false} PrimaryInjective(t: Tier, r: string, u: Tier, q: string)
    requires PrimaryName(t, r) == PrimaryName(u, q)
    ensures t == u && r == q
  {
    TierColon(t);
    TierColon(u);
    FirstColon(TierName(t), r, TierName(u), q);
    TierInjective(t, u);
  }

  lemma {:induction false} PrefixSplit(t: Tier, r: string, rest: string)
    ensures IndexPrefix(t, r) + rest == ("idx_" + TierName(t) + ":") + (r + ":" + rest)
    ensures IndexPrefix(t, r) + rest == (("idx_" + TierName(t) + ":" + r) + ":") + rest
  {
  }

  lemma {:induction false} IndexInjective(t: Tier, r: string, c: nat, u: Tier, q: string, d: nat)
    requires IndexName(t, r, c) == IndexName(u, q, d)
    ensures t == u && r == q && c == d
  {
    DecimalDigits(c);
    DecimalDigits(d);
    PrefixSplit(t, r, Decimal(c));
    PrefixSplit(u, q, Decimal(d));
    LastColon("idx_" + TierName(t) + ":" + r, Decimal(c), "idx_" + TierName(u) + ":" + q, Decimal(d));
    DecimalInjective(c, d);
    TierColon(t);
    TierColon(u);
    FirstColon("idx_" + TierName(t), r, "idx_" + TierName(u), q);
    assert ("idx_" + TierName(t))[4..] == TierName(t) && ("idx_" + TierName(u))[4..] == TierName(u);
    TierInjective(t, u);
  }

  // ----- Which tables the drop of a relation finds by prefix -----

  /** The name continues the relation's name with a colon. */
  predicate Continues(q: string, r: string) {
    r + ":" <= q
  }

  lemma {:induction false} ContinuesColon(q: string, r: string)
    requires Continues(q, r)
    ensures ':' in q
  {
    assert q[|r|] == ':';
  }

  /** Dropping the index tables of `r` by prefix finds those of `r` and of every relation whose
      name continues that of `r` with a colon, and no others. */
  lemma {:induction false} PrefixFinds(t: Tier, r: string, u: Tier, q: string, c: nat)
    ensures IndexPrefix(t, r) <= IndexName(u, q, c) <==> t == u && (q == r || Continues(q, r))
  {
    if IndexPrefix(t, r) <= IndexName(u, q, c) { FoundByPrefix(t, r, u, q, c); }
    if t == u && q == r { OwnPrefix(t, r, c); }
    if t == u && Continues(q, r) { ContinuedPrefix(t, r, q, c); }
  }

  lemma {:induction false} OwnPrefix(t: Tier, r: string, c: nat)
    ensures IndexPrefix(t, r) <= IndexName(t, r, c)
  {
  }

  lemma {:induction false} ContinuedPrefix(t: Tier, r: string, q: string, c: nat)
    requires Continues(q, r)
    ensures IndexPrefix(t, r) <= IndexName(t, q, c)
  {
    hide Decimal, TierName;
    var more := q[|r| + 1..];
    assert q == r + ":" + more;
    assert IndexName(t, q, c) == IndexPrefix(t, r) + (more + ":" + Decimal(c));
  }

  lemma {:induction false} FoundByPrefix(t: Tier, r: string, u: Tier, q: string, c: nat)
    requires IndexPrefix(t, r) <= IndexName(u, q, c)
    ensures t == u && (q == r || Continues(q, r))
  {
    hide Decimal, TierName, IndexPrefix, Continues;
    var p, n := IndexPrefix(t, r), IndexName(u, q, c);
    var rest := n[|p|..];
    assert n == p + rest;
    PrefixSplit(u, q, Decimal(c));
    PrefixSplit(t, r, rest);
    DecimalDigits(c);
    TierColon(t);
    TierColon(u);
    FirstColon("idx_" + TierName(t), r + ":" + rest, "idx_" + TierName(u), q + ":" + Decimal(c));
    assert ("idx_" + TierName(t))[4..] == TierName(t) && ("idx_" + TierName(u))[4..] == TierName(u);
    TierInjective(t, u);
    SameOrContinues(r, rest, q, Decimal(c));
  }

  lemma {:induction false} SameOrContinues(r: string, rest: string, q: string, digits: string)
    requires ':' !in digits && r + ":" + rest == q + ":" + digits
    ensures q == r || Continues(q, r)
  {
    var s := r + ":" + rest;
    if |q| < |r| {
      ColonInside(q, digits, r, rest);
      assert false;
    } else if |q| == |r| {
      SameSplit(r, rest, q, digits);
    } else {
      assert s[..|r| + 1] == r + ":";
      assert (q + ":" + digits)[..|q|] == q;
      assert q[..|r| + 1] == r + ":";
    }
  }
}
