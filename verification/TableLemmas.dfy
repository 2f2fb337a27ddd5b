/** How lists and tallies react to the writes of a table. */
module TableLemmas {
  import opened Tables

  // ---- lists --------------------------------------------------------------

  lemma {:induction false} MatchingConcat<T>(a: seq<string>, b: seq<string>, rows: map<string, T>, keep: T -> bool)
    ensures Matching(a + b, rows, keep) == Matching(b, rows, keep) + Matching(a, rows, keep)
  {
    if b == [] {
      assert a + b == a;
    } else {
      var ab := a + b;
      assert ab[..|ab| - 1] == a + b[..|b| - 1];
      MatchingConcat(a, b[..|b| - 1], rows, keep);
    }
  }

  /** Rows a filter ignores before and after a write leave its list alone. */
  lemma {:induction false} MatchingSame<T>(order: seq<string>, rows: map<string, T>, rows': map<string, T>,
      keep: T -> bool)
    requires forall id :: id in order ==> (id in rows && keep(rows[id]) <==> id in rows' && keep(rows'[id]))
    requires forall id :: id in order && id in rows && keep(rows[id]) ==> rows'[id] == rows[id]
    ensures Matching(order, rows, keep) == Matching(order, rows', keep)
  {
    if order != [] {
      MatchingSame(order[..|order| - 1], rows, rows', keep);
    }
  }

  lemma {:induction false} MatchingFrom<T>(order: seq<string>, rows: map<string, T>, keep: T -> bool)
    ensures |Matching(order, rows, keep)| <= |order|
    ensures forall x :: x in Matching(order, rows, keep) ==>
      keep(x) && exists id :: id in order && id in rows && rows[id] == x
  {
    if order != [] {
      var init := order[..|order| - 1];
      MatchingFrom(init, rows, keep);
      forall x | x in Matching(order, rows, keep)
        ensures keep(x) && exists id :: id in order && id in rows && rows[id] == x
      {
        if x !in Matching(init, rows, keep) {
          var id := order[|order| - 1];
          assert id in order && id in rows && rows[id] == x;
        } else {
          var id :| id in init && id in rows && rows[id] == x;
          assert id in order;
        }
      }
    }
  }

  lemma {:induction false} PositionOf(order: seq<string>, id: string) returns (i: nat)
    requires NoDup(order) && id in order
    ensures i < |order| && order[i] == id
    ensures Without(order, id) == order[..i] + order[i + 1..]
  {
    if order[0] == id {
      i := 0;
    } else {
      var rest := order[1..];
      assert id in rest;
      var j := PositionOf(rest, id);
      i := j + 1;
      StepBack(order, j);
    }
  }

  lemma StepBack(order: seq<string>, j: nat)
    requires j + 1 < |order|
    ensures [order[0]] + (order[1..][..j] + order[1..][j + 1..]) == order[..j + 1] + order[j + 2..]
  {
    assert order[..j + 1] == [order[0]] + order[1..][..j];
    assert order[j + 2..] == order[1..][j + 1..];
  }

  lemma SplitOrder(order: seq<string>, id: string) returns (a: seq<string>, b: seq<string>)
    requires NoDup(order) && id in order
    ensures order == a + [id] + b && id !in a && id !in b
    ensures Without(order, id) == a + b
  {
    var i := PositionOf(order, id);
    a, b := order[..i], order[i + 1..];
    assert order == a + [id] + b;
  }

  lemma InsertSkips<T>(t: Table<T>, id: string, row: T, keep: T -> bool)
    requires id !in t.order && !keep(row)
    ensures Matching(t.order + [id], t.rows[id := row], keep) == Matching(t.order, t.rows, keep)
  {
    var order := t.order + [id];
    assert order[..|order| - 1] == t.order;
    MatchingSame(t.order, t.rows, t.rows[id := row], keep);
  }

  lemma UpdateSkips<T>(t: Table<T>, id: string, row: T, keep: T -> bool)
    requires id in t.rows && !keep(t.rows[id]) && !keep(row)
    ensures Matching(t.order, t.rows[id := row], keep) == Matching(t.order, t.rows, keep)
  {
    MatchingSame(t.order, t.rows, t.rows[id := row], keep);
  }

  /** A rewrite that a filter judges like the old row leaves the length of its list alone. */
  lemma {:induction false} MatchingLength<T>(order: seq<string>, rows: map<string, T>, rows': map<string, T>,
      keep: T -> bool)
    requires forall id :: id in order ==> (id in rows && keep(rows[id]) <==> id in rows' && keep(rows'[id]))
    ensures |Matching(order, rows, keep)| == |Matching(order, rows', keep)|
  {
    if order != [] {
      MatchingLength(order[..|order| - 1], rows, rows', keep);
    }
  }

  lemma DeleteSkips<T>(t: Table<T>, id: string, keep: T -> bool)
    requires NoDup(t.order) && id in t.order && id in t.rows && !keep(t.rows[id])
    ensures Matching(Without(t.order, id), t.rows - {id}, keep) == Matching(t.order, t.rows, keep)
  {
    var a, b := SplitOrder(t.order, id);
    DeleteSplit(t, id, a, b, keep);
  }

  lemma DeleteSplit<T>(t: Table<T>, id: string, a: seq<string>, b: seq<string>, keep: T -> bool)
    requires t.order == a + [id] + b && id !in a && id !in b
    requires id in t.rows && Without(t.order, id) == a + b
    ensures Matching(t.order, t.rows, keep)
         == Matching(b, t.rows, keep) + (if keep(t.rows[id]) then [t.rows[id]] else []) + Matching(a, t.rows, keep)
    ensures Matching(Without(t.order, id), t.rows - {id}, keep) == Matching(b, t.rows, keep) + Matching(a, t.rows, keep)
  {
    MatchingConcat(a + [id], b, t.rows, keep);
    MatchingConcat(a, [id], t.rows, keep);
    MatchingOne(id, t.rows, keep);
    DeleteRest(a, b, t.rows, id, keep);
    var one := if keep(t.rows[id]) then [t.rows[id]] else [];
    Regrouped(Matching(b, t.rows, keep), one, Matching(a, t.rows, keep));
  }

  lemma Regrouped<T>(a: seq<T>, b: seq<T>, c: seq<T>)
    ensures a + (b + c) == a + b + c
  {
  }

  lemma MatchingOne<T>(id: string, rows: map<string, T>, keep: T -> bool)
    ensures Matching([id], rows, keep) == if id in rows && keep(rows[id]) then [rows[id]] else []
  {
  }

  lemma DeleteRest<T>(a: seq<string>, b: seq<string>, rows: map<string, T>, id: string, keep: T -> bool)
    requires id !in a && id !in b
    ensures Matching(a + b, rows - {id}, keep) == Matching(b, rows, keep) + Matching(a, rows, keep)
  {
    MatchingConcat(a, b, rows - {id}, keep);
    MatchingSame(a, rows, rows - {id}, keep);
    MatchingSame(b, rows, rows - {id}, keep);
  }

  /** A new row the filter accepts is listed first. */
  lemma KeptInsert<T>(t: Table<T>, id: string, row: T, keysOf: T -> Keys, f: DocFilter)
    requires id !in t.order && Accepts(keysOf(row), f)
    ensures Kept(Inserted(t, id, row), keysOf, f) == [row] + Kept(t, keysOf, f)
  {
    var keep, rows' := Accepting(keysOf, f), t.rows[id := row];
    MatchingSame(t.order, t.rows, rows', keep);
    MatchingConcat(t.order, [id], rows', keep);
    MatchingOne(id, rows', keep);
  }

  // ---- sums ---------------------------------------------------------------

  lemma {:induction false} SumConcat<T>(a: seq<T>, b: seq<T>, w: T -> real)
    ensures SumOf(a + b, w) == SumOf(a, w) + SumOf(b, w)
  {
    if b == [] {
      assert a + b == a;
    } else {
      var ab := a + b;
      assert ab[..|ab| - 1] == a + b[..|b| - 1];
      SumConcat(a, b[..|b| - 1], w);
    }
  }

  lemma SumOne<T>(x: T, w: T -> real)
    ensures SumOf([x], w) == w(x)
  {
  }

  lemma {:induction false} SumSame<T>(xs: seq<T>, v: T -> real, w: T -> real)
    requires forall x :: x in xs ==> v(x) == w(x)
    ensures SumOf(xs, v) == SumOf(xs, w)
  {
    if xs != [] {
      SumSame(xs[..|xs| - 1], v, w);
    }
  }

  lemma {:induction false} SumNonNegative<T>(xs: seq<T>, w: T -> real)
    requires forall x :: x in xs ==> w(x) >= 0.0
    ensures SumOf(xs, w) >= 0.0
    ensures forall x :: x in xs ==> SumOf(xs, w) >= w(x)
  {
    if xs != [] {
      SumNonNegative(xs[..|xs| - 1], w);
    }
  }

  // ---- tallies ------------------------------------------------------------

  /** With no more than the limit matching, what the service sums is the whole tally. */
  lemma ListedIsKept<T>(t: Table<T>, keysOf: T -> Keys, f: DocFilter)
    requires f.limit == LIST_LIMIT && f.offset == 0
    requires |Kept(t, keysOf, f)| <= LIST_LIMIT
    ensures Listed(t, keysOf, f) == Kept(t, keysOf, f)
  {
  }

  lemma TallyInsert<T>(t: Table<T>, id: string, row: T, keysOf: T -> Keys, f: DocFilter, w: T -> real)
    requires id !in t.order
    ensures Tally(Inserted(t, id, row), keysOf, f, w) == Tally(t, keysOf, f, w) + Share(row, keysOf, f, w)
  {
    var keep := Accepting(keysOf, f);
    var rows' := t.rows[id := row];
    MatchingSame(t.order, t.rows, rows', keep);
    MatchingConcat(t.order, [id], rows', keep);
    assert [id][..0] == [];
    SumConcat(Matching([id], rows', keep), Matching(t.order, rows', keep), w);
    SumOne(row, w);
  }

  lemma TallyDelete<T>(t: Table<T>, id: string, keysOf: T -> Keys, f: DocFilter, w: T -> real)
    requires NoDup(t.order) && id in t.order && id in t.rows
    ensures Tally(Deleted(t, id), keysOf, f, w) == Tally(t, keysOf, f, w) - Share(t.rows[id], keysOf, f, w)
  {
    var keep := Accepting(keysOf, f);
    var a, b := SplitOrder(t.order, id);
    DeleteSplit(t, id, a, b, keep);
    var mid := if keep(t.rows[id]) then [t.rows[id]] else [];
    SumConcat(Matching(b, t.rows, keep) + mid, Matching(a, t.rows, keep), w);
    SumConcat(Matching(b, t.rows, keep), mid, w);
    SumConcat(Matching(b, t.rows, keep), Matching(a, t.rows, keep), w);
    SumOne(t.rows[id], w);
  }

  lemma TallyUpdate<T>(t: Table<T>, id: string, row: T, keysOf: T -> Keys, f: DocFilter, w: T -> real)
    requires NoDup(t.order) && id in t.order && id in t.rows
    ensures Tally(Updated(t, id, row), keysOf, f, w)
         == Tally(t, keysOf, f, w) - Share(t.rows[id], keysOf, f, w) + Share(row, keysOf, f, w)
  {
    // Compare both tables with the one where the row is gone.
    var t' := Updated(t, id, row);
    assert t'.rows - {id} == t.rows - {id};
    assert Deleted(t', id) == Deleted(t, id);
    TallyDelete(t, id, keysOf, f, w);
    TallyDelete(t', id, keysOf, f, w);
  }

  lemma TallyNonNegative<T>(t: Table<T>, keysOf: T -> Keys, f: DocFilter, w: T -> real)
    requires forall id :: id in t.rows && Accepts(keysOf(t.rows[id]), f) ==> w(t.rows[id]) >= 0.0
    ensures Tally(t, keysOf, f, w) >= 0.0
  {
    MatchingFrom(t.order, t.rows, Accepting(keysOf, f));
    SumNonNegative(Kept(t, keysOf, f), w);
  }

  /** A tally over nothing but zero weights is zero. */
  lemma TallyZero<T>(t: Table<T>, keysOf: T -> Keys, f: DocFilter, w: T -> real)
    requires forall id :: id in t.rows && Accepts(keysOf(t.rows[id]), f) ==> w(t.rows[id]) == 0.0
    ensures Tally(t, keysOf, f, w) == 0.0
  {
    MatchingFrom(t.order, t.rows, Accepting(keysOf, f));
    SumZero(Kept(t, keysOf, f), w);
  }

  lemma {:induction false} SumZero<T>(xs: seq<T>, w: T -> real)
    requires forall x :: x in xs ==> w(x) == 0.0
    ensures SumOf(xs, w) == 0.0
  {
    if xs != [] {
      SumZero(xs[..|xs| - 1], w);
    }
  }

  /** A list is no longer than the table. */
  lemma KeptAtMostRows<T>(t: Table<T>, keysOf: T -> Keys, f: DocFilter)
    ensures |Kept(t, keysOf, f)| <= |t.order|
  {
    MatchingFrom(t.order, t.rows, Accepting(keysOf, f));
  }
}
