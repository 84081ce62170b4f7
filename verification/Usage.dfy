/** Token accounting: tallies, rows grouped by provider, model and effort, and their totals. */
module Usage {
  import opened Common

  datatype Tokens = Tokens(input: nat, cached: nat, cacheWrite: nat, cacheWrite1h: nat,
                           output: nat, reasoning: nat, total: nat)
  {
    function Plus(u: Tokens): Tokens {
      Tokens(input + u.input, cached + u.cached, cacheWrite + u.cacheWrite, cacheWrite1h + u.cacheWrite1h,
             output + u.output, reasoning + u.reasoning, total + u.total)
    }
  }

  const NO_TOKENS := Tokens(0, 0, 0, 0, 0, 0, 0)

  datatype RawTokens = RawTokens(input: nat, cached: nat, output: nat, reasoning: nat, total: nat)

  function Normalize(raw: RawTokens): Tokens {
    var cached := if raw.cached < raw.input then raw.cached else raw.input;
    Tokens(raw.input - cached, cached, 0, 0, raw.output, raw.reasoning,
           if raw.total != 0 then raw.total else raw.input + raw.output)
  }

  // What is shown for a usage: its explicit total, else the sum of its parts.
  function TokenTotal(u: Tokens): nat {
    if u.total > 0 then u.total else u.input + u.cached + u.cacheWrite + u.output
  }

  // A usage with no total has no tokens at all.
  predicate Sound(u: Tokens) {
    u.total == 0 ==> u.input + u.cached + u.cacheWrite + u.output == 0
  }

  /** The shown total of two usages is the sum of both exactly when both are sound or none has a total. */
  lemma TotalsAdd(u: Tokens, v: Tokens)
    ensures TokenTotal(u.Plus(v)) == TokenTotal(u) + TokenTotal(v)
            <==> (Sound(u) && Sound(v)) || (u.total == 0 && v.total == 0)
    ensures Sound(u) && Sound(v) ==> Sound(u.Plus(v))
  {
  }

  /**
   What a transcript reports is stored soundly: its input tokens are split without loss, the cached ones as reported
   unless that is more than all, and the total is the reported one or else the sum of the parts.
   */
  lemma NormalizeSound(raw: RawTokens)
    ensures Sound(Normalize(raw)) && TokenTotal(Normalize(raw)) == Normalize(raw).total
    ensures var u := Normalize(raw);
            && u.input + u.cached == raw.input && u.cached <= raw.cached && (u.cached == raw.cached || u.input == 0)
            && u.cacheWrite == u.cacheWrite1h == 0 && u.output == raw.output && u.reasoning == raw.reasoning
            && (u.total == raw.total || (raw.total == 0 && u.total == u.input + u.cached + u.output))
  {
  }

  // ---------- rows ----------

  datatype Tally = Tally(calls: nat, usage: Tokens)
  {
    function Plus(t: Tally): Tally {
      Tally(calls + t.calls, usage.Plus(t.usage))
    }
  }

  const NOTHING := Tally(0, NO_TOKENS)

  datatype Row = Row(provider: string, model: string, effort: string, tally: Tally)
  {
    function Key(): string {
      provider + "\0" + model + "\0" + effort
    }
  }

  /** Where names are free of NUL, only rows of one provider, model and effort share a key. */
  lemma KeyExact(r: Row, s: Row)
    requires '\0' !in r.provider + r.model && '\0' !in s.provider + s.model
    ensures r.Key() == s.Key() <==> (r.provider, r.model, r.effort) == (s.provider, s.model, s.effort)
  {
    if r.Key() == s.Key() {
      assert r.Key() == r.provider + "\0" + (r.model + "\0" + r.effort);
      assert s.Key() == s.provider + "\0" + (s.model + "\0" + s.effort);
      SplitAt(r.provider, r.model + "\0" + r.effort, s.provider, s.model + "\0" + s.effort);
      SplitAt(r.model, r.effort, s.model, s.effort);
    }
  }

  lemma SplitAt(a: string, b: string, c: string, d: string)
    requires '\0' !in a && '\0' !in c && a + "\0" + b == c + "\0" + d
    ensures a == c && b == d
  {
    var k := a + "\0" + b;
    assert k[|a|] == '\0' && k[|c|] == '\0';
    assert |a| == |c|;
    assert a == k[..|a|] && c == k[..|c|];
    assert b == k[|a| + 1..] && d == k[|c| + 1..];
  }

  function Total(rows: seq<Row>): Tally {
    if rows == [] then NOTHING else Total(rows[..|rows| - 1]).Plus(rows[|rows| - 1].tally)
  }

  // What the rows of one key add up to.
  function At(rows: seq<Row>, key: string): Tally {
    if rows == [] then NOTHING
    else
      var before := At(rows[..|rows| - 1], key);
      if rows[|rows| - 1].Key() == key then before.Plus(rows[|rows| - 1].tally) else before
  }

  function Index(rows: seq<Row>, key: string): (i: nat)
    ensures i <= |rows| && (i < |rows| ==> rows[i].Key() == key)
    ensures forall j | 0 <= j < i :: rows[j].Key() != key
  {
    if rows == [] || rows[0].Key() == key then 0 else 1 + Index(rows[1..], key)
  }

  function Grow(row: Row, t: Tally): (r: Row)
    ensures r.Key() == row.Key()
  {
    row.(tally := row.tally.Plus(t))
  }

  // Adds a row to the one of its key, or appends it.
  function Upsert(rows: seq<Row>, row: Row): seq<Row> {
    var i := Index(rows, row.Key());
    if i == |rows| then rows + [row]
    else rows[i := Grow(rows[i], row.tally)]
  }

  function Into(rows: seq<Row>, more: seq<Row>): seq<Row> {
    if more == [] then rows else Upsert(Into(rows, more[..|more| - 1]), more[|more| - 1])
  }

  function Regroup(rows: seq<Row>): seq<Row> {
    Into([], rows)
  }

  predicate DistinctKeys(rows: seq<Row>) {
    forall i, j | 0 <= i < j < |rows| :: rows[i].Key() != rows[j].Key()
  }

  predicate HasKey(rows: seq<Row>, key: string) {
    Index(rows, key) < |rows|
  }

  lemma HasKeyLast(rows: seq<Row>, key: string)
    requires rows != []
    ensures HasKey(rows, key) <==> HasKey(rows[..|rows| - 1], key) || rows[|rows| - 1].Key() == key
  {
    hide Row.Key;
    assert HasKey(rows[..|rows| - 1], key) ==> rows[Index(rows[..|rows| - 1], key)].Key() == key;
  }

  lemma IndexIs(rows: seq<Row>, i: nat, key: string)
    requires i <= |rows| && (i < |rows| ==> rows[i].Key() == key) && forall j | 0 <= j < i :: rows[j].Key() != key
    ensures Index(rows, key) == i
  {
  }

  // ---------- grouping loses nothing ----------

  lemma {:induction false} TotalUpdate(rows: seq<Row>, i: nat, t: Tally)
    requires i < |rows|
    ensures Total(rows[i := Grow(rows[i], t)]) == Total(rows).Plus(t)
  {
    var n := |rows| - 1;
    var changed := rows[i := Grow(rows[i], t)];
    if i < n {
      assert changed[..n] == rows[..n][i := changed[i]];
      TotalUpdate(rows[..n], i, t);
    } else {
      assert changed[..n] == rows[..n];
    }
  }

  lemma {:induction false} AtUpdate(rows: seq<Row>, i: nat, t: Tally, key: string)
    requires i < |rows|
    ensures At(rows[i := Grow(rows[i], t)], key)
            == if rows[i].Key() == key then At(rows, key).Plus(t) else At(rows, key)
  {
    var n := |rows| - 1;
    var changed := rows[i := Grow(rows[i], t)];
    if i < n {
      assert changed[..n] == rows[..n][i := changed[i]];
      AtUpdate(rows[..n], i, t, key);
    } else {
      assert changed[..n] == rows[..n];
    }
  }

  lemma UpsertConserves(rows: seq<Row>, row: Row, key: string)
    ensures Total(Upsert(rows, row)) == Total(rows).Plus(row.tally)
    ensures At(Upsert(rows, row), key) == if row.Key() == key then At(rows, key).Plus(row.tally) else At(rows, key)
  {
    var i := Index(rows, row.Key());
    if i == |rows| {
      assert (rows + [row])[..|rows|] == rows;
    } else {
      TotalUpdate(rows, i, row.tally);
      AtUpdate(rows, i, row.tally, key);
    }
  }

  lemma UpsertKeys(rows: seq<Row>, row: Row, key: string)
    ensures DistinctKeys(rows) ==> DistinctKeys(Upsert(rows, row))
    ensures HasKey(Upsert(rows, row), key) <==> HasKey(rows, key) || key == row.Key()
  {
    var after := Upsert(rows, row);
    assert forall i | 0 <= i < |rows| :: after[i].Key() == rows[i].Key();
    assert |after| > |rows| ==> after[|rows|] == row;
    var i := Index(rows, row.Key());
    assert after[i].Key() == row.Key();
  }

  /** Grouping rows by key: one row a key, which holds all tallies of that key; the total is kept. */
  lemma {:induction false} RegroupExact(rows: seq<Row>, key: string)
    ensures DistinctKeys(Regroup(rows))
    ensures HasKey(Regroup(rows), key) <==> HasKey(rows, key)
    ensures At(Regroup(rows), key) == At(rows, key)
    ensures Total(Regroup(rows)) == Total(rows)
  {
    if rows != [] {
      hide Row.Key, HasKey, DistinctKeys, Upsert;
      var n := |rows| - 1;
      RegroupExact(rows[..n], key);
      UpsertConserves(Regroup(rows[..n]), rows[n], key);
      UpsertKeys(Regroup(rows[..n]), rows[n], key);
      HasKeyLast(rows, key);
    }
  }

  /** Where keys are distinct, the row of a key is all there is of it. */
  lemma {:induction false} AtDistinct(rows: seq<Row>, i: nat)
    requires DistinctKeys(rows) && i < |rows|
    ensures At(rows, rows[i].Key()) == rows[i].tally
  {
    var n := |rows| - 1;
    if i < n {
      AtDistinct(rows[..n], i);
    } else {
      AtAbsent(rows[..n], rows[i].Key());
      assert NOTHING.Plus(rows[i].tally) == rows[i].tally;
    }
  }

  lemma {:induction false} AtAbsent(rows: seq<Row>, key: string)
    requires forall i | 0 <= i < |rows| :: rows[i].Key() != key
    ensures At(rows, key) == NOTHING
  {
    if rows != [] {
      AtAbsent(rows[..|rows| - 1], key);
    }
  }

  // ---------- grouping twice is grouping once ----------

  lemma UpsertTwice(rows: seq<Row>, r: Row, x: Row)
    requires r.Key() == x.Key()
    ensures Upsert(Upsert(rows, r), x) == Upsert(rows, Grow(r, x.tally))
  {
    hide Row.Key;
    var once := Upsert(rows, r);
    var i := Index(rows, r.Key());
    IndexIs(once, i, x.Key());
  }

  lemma GrowCommutes(r: Row, t: Tally, u: Tally)
    ensures Grow(Grow(r, t), u) == Grow(Grow(r, u), t)
  {
  }

  lemma UpsertCommutes(rows: seq<Row>, x: Row, y: Row)
    requires HasKey(rows, x.Key())
    ensures Upsert(Upsert(rows, y), x) == Upsert(Upsert(rows, x), y)
  {
    hide Row.Key, Grow;
    var i, j := Index(rows, x.Key()), Index(rows, y.Key());
    IndexIs(Upsert(rows, y), i, x.Key());
    IndexIs(Upsert(rows, x), j, y.Key());
    GrowCommutes(rows[i], x.tally, y.tally);
  }

  lemma {:induction false} IntoCommutes(rows: seq<Row>, more: seq<Row>, x: Row)
    requires HasKey(rows, x.Key())
    ensures Upsert(Into(rows, more), x) == Into(Upsert(rows, x), more)
    ensures HasKey(Into(rows, more), x.Key())
  {
    if more != [] {
      var n := |more| - 1;
      IntoCommutes(rows, more[..n], x);
      UpsertKeys(Into(rows, more[..n]), more[n], x.Key());
      UpsertCommutes(Into(rows, more[..n]), x, more[n]);
    }
  }

  lemma {:induction false} IntoSplit(rows: seq<Row>, a: seq<Row>, b: seq<Row>)
    ensures Into(rows, a + b) == Into(Into(rows, a), b)
  {
    if b == [] {
      assert a + b == a;
    } else {
      var n := |b| - 1;
      assert (a + b)[..|a + b| - 1] == a + b[..n];
      IntoSplit(rows, a, b[..n]);
    }
  }

  lemma IntoUpsert(rows: seq<Row>, more: seq<Row>, x: Row)
    ensures Into(rows, Upsert(more, x)) == Upsert(Into(rows, more), x)
  {
    var i := Index(more, x.Key());
    if i == |more| {
      assert (more + [x])[..|more|] == more;
    } else {
      var a, r, b := more[..i], more[i], more[i + 1..];
      var both := Grow(r, x.tally);
      assert more == a + [r] + b && Upsert(more, x) == a + [both] + b;
      IntoSplit(rows, a + [r], b);
      IntoSplit(rows, a + [both], b);
      assert (a + [r])[..i] == a && (a + [both])[..i] == a;
      UpsertTwice(Into(rows, a), r, x);
      UpsertKeys(Into(rows, a), r, x.Key());
      IntoCommutes(Upsert(Into(rows, a), r), b, x);
    }
  }

  lemma {:induction false} IntoRegrouped(rows: seq<Row>, more: seq<Row>)
    ensures Into(rows, Regroup(more)) == Into(rows, more)
  {
    if more != [] {
      var n := |more| - 1;
      IntoRegrouped(rows, more[..n]);
      IntoUpsert(rows, Regroup(more[..n]), more[n]);
    }
  }

  function Concat<T>(lists: seq<seq<T>>): seq<T> {
    if lists == [] then [] else Concat(lists[..|lists| - 1]) + lists[|lists| - 1]
  }

  function RegroupEach(lists: seq<seq<Row>>): (r: seq<seq<Row>>)
    ensures |r| == |lists| && forall i | 0 <= i < |lists| :: r[i] == Regroup(lists[i])
  {
    seq(|lists|, i requires 0 <= i < |lists| => Regroup(lists[i]))
  }

  /** Grouping each list and then the groups gives exactly the grouping of everything at once. */
  lemma {:induction false} TwoLevels(lists: seq<seq<Row>>)
    ensures Regroup(Concat(RegroupEach(lists))) == Regroup(Concat(lists))
  {
    if lists != [] {
      var n := |lists| - 1;
      TwoLevels(lists[..n]);
      assert RegroupEach(lists)[..n] == RegroupEach(lists[..n]);
      IntoSplit([], Concat(RegroupEach(lists[..n])), Regroup(lists[n]));
      IntoSplit([], Concat(lists[..n]), lists[n]);
      IntoRegrouped(Regroup(Concat(lists[..n])), lists[n]);
    }
  }
}
