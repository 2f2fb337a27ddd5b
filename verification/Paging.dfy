/** Lists: newest first, every matching row once, and nothing lost between pages. */
module Paging {
  import opened TableLemmas
  import opened Tables

  lemma {:induction false} MatchingAgrees<T>(order: seq<string>, rows: map<string, T>, keep: T -> bool,
      keep': T -> bool)
    requires forall id :: id in rows ==> keep(rows[id]) == keep'(rows[id])
    ensures Matching(order, rows, keep) == Matching(order, rows, keep')
  {
    if order != [] {
      MatchingAgrees(order[..|order| - 1], rows, keep, keep');
    }
  }

  /** The filtered rows, and so the total every page reports, do not depend on which page is asked for. */
  lemma SameTotalOnEveryPage<T>(t: Table<T>, keysOf: T -> Keys, f: DocFilter, limit: int, offset: int)
    ensures Kept(t, keysOf, f.(limit := limit, offset := offset)) == Kept(t, keysOf, f)
  {
    MatchingAgrees(t.order, t.rows, Accepting(keysOf, f.(limit := limit, offset := offset)), Accepting(keysOf, f));
  }

  /** The lists asked for at offsets `offset`, `offset + k`, ... up to the reported total, put together. */
  function ListedFrom<T>(t: Table<T>, keysOf: T -> Keys, f: DocFilter, k: int, offset: nat): seq<T>
    requires k > 0
    decreases if offset >= |Kept(t, keysOf, f)| then 0 else |Kept(t, keysOf, f)| - offset
  {
    if offset >= |Kept(t, keysOf, f)| then []
    else Listed(t, keysOf, f.(limit := k, offset := offset)) + ListedFrom(t, keysOf, f, k, offset + k)
  }

  /** Paging through an unchanged table yields the filtered rows newest first, each
      once: no row is lost or repeated at a page boundary, whatever the page size. */
  lemma PagingLossless<T>(t: Table<T>, keysOf: T -> Keys, f: DocFilter, k: int)
    requires k > 0
    ensures ListedFrom(t, keysOf, f, k, 0) == Kept(t, keysOf, f)
  {
    ListedRest(t, keysOf, f, k, 0);
  }

  lemma {:induction false} ListedRest<T>(t: Table<T>, keysOf: T -> Keys, f: DocFilter, k: int, offset: nat)
    requires k > 0 && offset <= |Kept(t, keysOf, f)|
    ensures ListedFrom(t, keysOf, f, k, offset) == Kept(t, keysOf, f)[offset..]
    decreases |Kept(t, keysOf, f)| - offset
  {
    var all := Kept(t, keysOf, f);
    if offset < |all| {
      SameTotalOnEveryPage(t, keysOf, f, k, offset);
      var end := if offset + k > |all| then |all| else offset + k;
      assert Listed(t, keysOf, f.(limit := k, offset := offset)) == all[offset..end];
      if offset + k <= |all| {
        ListedRest(t, keysOf, f, k, offset + k);
      }
      assert all[offset..] == all[offset..end] + all[end..];
    }
  }

  /** A page never has more than `k` rows, and past the end it is empty. */
  lemma PageBounds<T>(all: seq<T>, k: int, offset: nat)
    requires k > 0
    ensures |Page(all, k, offset)| == (if offset >= |all| then 0 else if offset + k > |all| then |all| - offset else k)
  {
  }

  /** Every stored row a filter accepts is listed. */
  lemma {:induction false} KeptComplete<T>(order: seq<string>, rows: map<string, T>, keep: T -> bool)
    ensures forall id :: id in order && id in rows && keep(rows[id]) ==> rows[id] in Matching(order, rows, keep)
  {
    if order != [] {
      KeptComplete(order[..|order| - 1], rows, keep);
      assert order == order[..|order| - 1] + [order[|order| - 1]];
    }
  }

  /** A list asks a row for every column that is not left blank. */
  predicate Matches(k: Keys, f: DocFilter)
  {
    f.status in {"", k.status} && f.outlet in {"", k.outlet} && f.ref in {"", k.ref}
  }

  /** The filtered rows are exactly the stored ones that match. */
  lemma KeptExactly<T>(t: Table<T>, keysOf: T -> Keys, f: DocFilter, x: T)
    ensures x in Kept(t, keysOf, f)
       <==> exists id :: id in t.order && id in t.rows && t.rows[id] == x && Matches(keysOf(x), f)
  {
    var keep := Accepting(keysOf, f);
    assert keep(x) == Matches(keysOf(x), f);
    MatchingFrom(t.order, t.rows, keep);
    KeptComplete(t.order, t.rows, keep);
    if id :| id in t.order && id in t.rows && t.rows[id] == x && Matches(keysOf(x), f) {
      assert keep(t.rows[id]);
    }
  }

  /** A list is the stretch of them the filter asks for, 500 rows unless it says how many. */
  lemma ListedStretch<T>(t: Table<T>, keysOf: T -> Keys, f: DocFilter, k: nat)
    requires f.offset >= 0
    ensures var all, page, size := Kept(t, keysOf, f), Listed(t, keysOf, f), if f.limit <= 0 then 500 else f.limit;
      && (k < |page| <==> k < size && f.offset + k < |all|)
      && (k < |page| ==> page[k] == all[f.offset + k])
  {
  }

  /** Later inserted rows come first, so in particular no row comes twice. */
  lemma {:induction false} KeptNewestFirst<T>(order: seq<string>, rows: map<string, T>, keep: T -> bool,
      idOf: T -> string, i: nat, j: nat, p: nat, q: nat)
    requires NoDup(order) && forall id :: id in rows ==> idOf(rows[id]) == id
    requires i < j < |Matching(order, rows, keep)| && p < |order| && q < |order|
    requires order[p] == idOf(Matching(order, rows, keep)[i]) && order[q] == idOf(Matching(order, rows, keep)[j])
    ensures p > q
  {
    var n := |order| - 1;
    var init := order[..n];
    var older := Matching(init, rows, keep);
    var all := Matching(order, rows, keep);
    MatchingFrom(init, rows, keep);
    var shift := if order[n] in rows && keep(rows[order[n]]) then 1 else 0;
    assert all[j] == older[j - shift] && older[j - shift] in older;
    var idj :| idj in init && idj in rows && rows[idj] == all[j];
    var q' :| 0 <= q' < n && init[q'] == idj;
    assert order[q'] == order[q];
    if i >= shift {
      assert all[i] == older[i - shift] && older[i - shift] in older;
      var idi :| idi in init && idi in rows && rows[idi] == all[i];
      var p' :| 0 <= p' < n && init[p'] == idi;
      assert order[p'] == order[p];
      KeptNewestFirst(init, rows, keep, idOf, i - shift, j - shift, p, q);
    } else {
      assert order[n] == order[p];
    }
  }

  lemma KeptOnce<T>(t: Table<T>, keysOf: T -> Keys, f: DocFilter, idOf: T -> string, prefix: string, i: nat, j: nat)
    requires Valid(t, idOf, prefix) && i < j < |Kept(t, keysOf, f)|
    ensures idOf(Kept(t, keysOf, f)[i]) != idOf(Kept(t, keysOf, f)[j])
  {
    var keep := Accepting(keysOf, f);
    var all := Kept(t, keysOf, f);
    MatchingFrom(t.order, t.rows, keep);
    assert all[i] in all && all[j] in all;
    var a :| a in t.order && a in t.rows && t.rows[a] == all[i];
    var b :| b in t.order && b in t.rows && t.rows[b] == all[j];
    var p :| 0 <= p < |t.order| && t.order[p] == a;
    var q :| 0 <= q < |t.order| && t.order[q] == b;
    KeptNewestFirst(t.order, t.rows, keep, idOf, i, j, p, q);
  }
}
