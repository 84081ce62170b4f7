/** The order of what a repair writes: links sorted and once each, after the items that were there before. */
module DerivedOrder {
  import opened Common
  import opened Frontmatter
  import opened Derived

  // ---------- the order of texts ----------

  // A proper prefix, or smaller at the first character that differs.
  ghost predicate Precedes(a: string, b: string) {
    || a < b
    || exists k: nat :: k < |a| && k < |b| && a[..k] == b[..k] && a[k] < b[k]
  }

  /** The recursive comparison is the order by the first difference. */
  lemma {:induction false} BelowExactly(a: string, b: string)
    ensures Below(a, b) <==> Precedes(a, b)
    decreases |a|
  {
    if a != "" && b != "" && a[0] == b[0] {
      BelowExactly(a[1..], b[1..]);
      StepDown(a, b);
    } else if a != "" && b != "" {
      if a[0] < b[0] {
        assert a[..0] == b[..0];
      } else {
        assert forall k: nat | 0 < k < |a| && k < |b| && a[..k] == b[..k] :: a[..k][0] == b[..k][0];
      }
    }
  }

  lemma StepDown(a: string, b: string)
    requires a != "" && b != "" && a[0] == b[0]
    ensures Precedes(a, b) <==> Precedes(a[1..], b[1..])
  {
    assert a < b <==> a[1..] < b[1..] by {
      assert a == [a[0]] + a[1..] && b == [b[0]] + b[1..];
      if a < b {
        assert b[1..][..|a| - 1] == b[..|a|][1..];
      }
      if a[1..] < b[1..] {
        assert b[..|a|] == [b[0]] + b[1..][..|a| - 1];
      }
    }
    if k: nat :| k < |a| && k < |b| && a[..k] == b[..k] && a[k] < b[k] {
      assert k > 0;
      assert a[1..][..k - 1] == a[..k][1..] && b[1..][..k - 1] == b[..k][1..];
      assert a[1..][k - 1] < b[1..][k - 1];
    }
    if k: nat :| k < |a[1..]| && k < |b[1..]| && a[1..][..k] == b[1..][..k] && a[1..][k] < b[1..][k] {
      assert a[..k + 1] == [a[0]] + a[1..][..k] && b[..k + 1] == [b[0]] + b[1..][..k];
      assert a[k + 1] < b[k + 1];
    }
  }

  lemma {:induction false} BelowTotal(a: string, b: string)
    ensures a == b || Below(a, b) || Below(b, a)
    decreases |a|
  {
    if a != "" && b != "" && a[0] == b[0] {
      BelowTotal(a[1..], b[1..]);
      assert a == [a[0]] + a[1..] && b == [b[0]] + b[1..];
    }
  }

  lemma {:induction false} BelowTrans(a: string, b: string, c: string)
    requires Below(a, b) && Below(b, c)
    ensures Below(a, c)
    decreases |a|
  {
    if a != "" && a[0] == b[0] == c[0] {
      BelowTrans(a[1..], b[1..], c[1..]);
    }
  }

  // ---------- the sorted links ----------

  predicate Ascending(items: seq<string>) {
    forall i, j | 0 <= i < j < |items| :: Below(items[i], items[j])
  }

  lemma {:induction false} InsertSorts(sorted: seq<string>, rel: string)
    requires Ascending(sorted)
    ensures Ascending(Insert(sorted, rel)) && forall x :: x in Insert(sorted, rel) <==> x in sorted || x == rel
    decreases sorted
  {
    if sorted != [] && sorted[0] != rel {
      assert forall x :: x in sorted <==> x == sorted[0] || x in sorted[1..];
      if Below(rel, sorted[0]) {
        forall j | 0 < j < |sorted| ensures Below(rel, sorted[j]) {
          BelowTrans(rel, sorted[0], sorted[j]);
        }
      } else {
        BelowTotal(rel, sorted[0]);
        InsertSorts(sorted[1..], rel);
        var rest := Insert(sorted[1..], rel);
        forall j | 0 <= j < |rest| ensures Below(sorted[0], rest[j]) {
          assert rest[j] in rest;
        }
      }
    }
  }

  /** The links of a section are all that were created, in ascending order, and so none of them twice. */
  lemma {:induction false} SortedExactly(items: seq<string>)
    ensures Ascending(Sorted(items)) && forall x :: x in Sorted(items) <==> x in items
  {
    if items != [] {
      var n := |items| - 1;
      SortedExactly(items[..n]);
      InsertSorts(Sorted(items[..n]), items[n]);
      assert forall x :: x in items <==> x in items[..n] || x == items[n];
    }
  }

  lemma AscendingApart(items: seq<string>)
    requires Ascending(items)
    ensures forall i, j | 0 <= i < j < |items| :: items[i] != items[j] && Precedes(items[i], items[j])
  {
    forall i, j | 0 <= i < j < |items| ensures items[i] != items[j] && Precedes(items[i], items[j]) {
      BelowExactly(items[i], items[j]);
    }
  }

  // ---------- merging keeps the order ----------

  predicate Distinct(items: seq<string>) {
    forall i, j | 0 <= i < j < |items| :: items[i] != items[j]
  }

  // The place of the first occurrence.
  function First(lines: seq<string>, line: string): (k: nat)
    requires line in lines
    ensures k < |lines| && lines[k] == line && forall i | 0 <= i < k :: lines[i] != line
  {
    if lines[0] == line then 0
    else
      assert line in lines[1..];
      1 + First(lines[1..], line)
  }

  lemma FirstIs(lines: seq<string>, line: string, k: nat)
    requires k < |lines| && lines[k] == line && forall i | 0 <= i < k :: lines[i] != line
    ensures line in lines && First(lines, line) == k
  {
  }

  /**
   Merging keeps the items that are there, in their places, and puts every new line after them once, in the order in
   which the lines come.
   */
  lemma {:induction false} AddAllExactly(items: seq<string>, lines: seq<string>)
    requires Distinct(items)
    ensures var all := AddAll(items, lines);
            && items <= all && Distinct(all) && (forall x :: x in all <==> x in items || x in lines)
            && (forall i | |items| <= i < |all| :: all[i] in lines)
            && forall i, j | |items| <= i < j < |all| :: First(lines, all[i]) < First(lines, all[j])
  {
    if lines != [] {
      var n := |lines| - 1;
      AddAllExactly(items, lines[..n]);
      var before, all := AddAll(items, lines[..n]), AddAll(items, lines);
      assert forall x :: x in lines <==> x in lines[..n] || x == lines[n];
      forall i | |items| <= i < |before| ensures First(lines, before[i]) == First(lines[..n], before[i]) < n {
        FirstIs(lines, before[i], First(lines[..n], before[i]));
      }
      if lines[n] !in before {
        FirstIs(lines, lines[n], n);
        assert all == before + [lines[n]];
      }
      hide First;
    }
  }
}
