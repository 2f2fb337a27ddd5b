/** The in-memory document table of internal/store/docs.go, changed in place,
    and what it amounts to: an insertion-ordered map that never reuses an id. */
module DocTables {
  import opened Ids
  import opened TableLemmas
  import opened Tables
  import opened Wrappers

  class DocTable<T> {
    const idOf: T -> string
    const keysOf: T -> Keys
    const prefix: string

    var rows: map<string, T>
    var order: seq<string>
    var counter: nat

    ghost function View(): Table<T>
      reads this
    {
      Table(rows, order, counter)
    }

    ghost predicate Valid()
      reads this
    {
      Tables.Valid(View(), idOf, prefix)
    }

    constructor (idOf: T -> string, keysOf: T -> Keys, prefix: string)
      ensures this.idOf == idOf && this.keysOf == keysOf && this.prefix == prefix
      ensures View() == Table(map[], [], 0) && Valid()
    {
      this.idOf, this.keysOf, this.prefix := idOf, keysOf, prefix;
      rows, order, counter := map[], [], 0;
      new;
      EmptyValid(idOf, prefix);
    }

    /** Walks the order from its newest end, then cuts the page out. A negative
        offset is a fault in the source and is not called. */
    method List(f: DocFilter) returns (page: seq<T>, total: nat)
      requires Valid() && f.offset >= 0
      ensures page == Listed(View(), keysOf, f)
      ensures total == |Kept(View(), keysOf, f)|
    {
      var all: seq<T> := [];
      ghost var keep := Accepting(keysOf, f);
      var i := |order|;
      while i > 0
        invariant 0 <= i <= |order|
        invariant all == Matching(order[i..], rows, keep)
      {
        i := i - 1;
        assert order[i..] == [order[i]] + order[i + 1..];
        MatchingConcat([order[i]], order[i + 1..], rows, keep);
        MatchingOne(order[i], rows, keep);
        assert order[i] in order;
        var row := rows[order[i]];
        if Accepts(keysOf(row), f) {
          all := all + [row];
        }
      }
      assert order[0..] == order;
      page := Page(all, PageSize(f), f.offset);
      total := |all|;
    }

    method Get(id: string) returns (r: Option<T>)
      ensures r == Tables.Get(View(), id)
    {
      if id in rows {
        r := Some(rows[id]);
      } else {
        r := None;
      }
    }

    /** An id that is minted and not stored yet. */
    ghost predicate Insertable(id: string)
      reads this
    {
      id != "" && id !in rows && forall k: nat :: k > counter ==> MintId(prefix, k) != id
    }

    method Insert(row: T)
      requires Valid() && Insertable(idOf(row))
      modifies this
      ensures View() == Inserted(old(View()), idOf(row), row) && Valid()
    {
      assert idOf(row) !in order;
      rows := rows[idOf(row) := row];
      order := order + [idOf(row)];
    }

    method Update(row: T) returns (found: bool)
      requires Valid()
      modifies this
      ensures found == (idOf(row) in old(rows))
      ensures View() == if found then Updated(old(View()), idOf(row), row) else old(View())
      ensures Valid()
    {
      found := idOf(row) in rows;
      if found {
        rows := rows[idOf(row) := row];
        UpdateValid(old(View()), idOf, prefix, row);
      }
    }

    /** Deletes the row and splices its id out of the order. */
    method Delete(id: string) returns (found: bool)
      requires Valid()
      modifies this
      ensures found == (id in old(rows))
      ensures View() == if found then Deleted(old(View()), id) else old(View())
      ensures Valid()
    {
      found := id in rows;
      if found {
        rows := rows - {id};
        var i := 0;
        while i < |order|
          invariant 0 <= i <= |order| && order == old(order)
          invariant id !in order[..i]
          invariant rows == old(rows) - {id}
        {
          if order[i] == id {
            WithoutAt(order, id, i);
            order := order[..i] + order[i + 1..];
            break;
          }
          i := i + 1;
        }
        assert id in old(order);
        DeleteValid(old(View()), idOf, prefix, id);
      }
    }

    /** Mints the next id; the counter only grows. */
    method NextId() returns (id: string)
      requires Valid()
      modifies this
      ensures View() == Minted(old(View())) && Valid()
      ensures id == MintId(prefix, old(counter) + 1) && Insertable(id)
    {
      counter := counter + 1;
      id := MintId(prefix, counter);
      assert MintId(prefix, counter) !in old(View()).rows;
      forall k: nat | k > counter ensures MintId(prefix, k) != id {
        if MintId(prefix, k) == id {
          MintIdInjective(prefix, k, counter);
        }
      }
    }
  }

  lemma {:induction false} WithoutAt(order: seq<string>, id: string, i: nat)
    requires i < |order| && order[i] == id && id !in order[..i]
    ensures Without(order, id) == order[..i] + order[i + 1..]
  {
    if i > 0 {
      var rest := order[1..];
      assert rest[..i - 1] == order[1..i];
      assert order[0] in order[..i];
      assert forall x :: x in rest[..i - 1] ==> x in order[..i];
      WithoutAt(rest, id, i - 1);
      assert order[..i] == [order[0]] + rest[..i - 1];
      assert order[i + 1..] == rest[i..];
      assert [order[0]] + (rest[..i - 1] + rest[i..]) == ([order[0]] + rest[..i - 1]) + rest[i..];
    }
  }

  // ---- an insertion-ordered map --------------------------------------------------

  /** The entries in the order they were inserted. */
  function Entries<T>(t: Table<T>): seq<(string, T)>
    requires forall id :: id in t.order ==> id in t.rows
  {
    seq(|t.order|, i requires 0 <= i < |t.order| => assert t.order[i] in t.order; (t.order[i], t.rows[t.order[i]]))
  }

  lemma InsertAppends<T>(t: Table<T>, idOf: T -> string, prefix: string, id: string, row: T)
    requires Valid(t, idOf, prefix) && id !in t.rows
    ensures Entries(Inserted(t, id, row)) == Entries(t) + [(id, row)]
  {
  }

  lemma UpdateReplacesInPlace<T>(t: Table<T>, idOf: T -> string, prefix: string, id: string, row: T, i: nat)
    requires Valid(t, idOf, prefix) && i < |t.order| && t.order[i] == id
    ensures id in t.rows && Entries(Updated(t, id, row)) == Entries(t)[i := (id, row)]
  {
  }

  /** Where every entry stands after a delete. */
  lemma DeleteShifts<T>(t: Table<T>, idOf: T -> string, prefix: string, id: string, i: nat, k: nat)
    requires Valid(t, idOf, prefix) && i < |t.order| && t.order[i] == id
    requires Without(t.order, id) == t.order[..i] + t.order[i + 1..] && k < |t.order| - 1
    ensures var from := if k < i then k else k + 1;
      && Without(t.order, id)[k] == t.order[from] && t.order[from] in t.rows
      && t.order[from] in Deleted(t, id).rows && Deleted(t, id).rows[t.order[from]] == t.rows[t.order[from]]
  {
    var from := if k < i then k else k + 1;
    SkipAt(t.order, i, k);
    assert t.order[from] in t.order && t.order[from] != id;
  }

  lemma SkipAt<E>(xs: seq<E>, i: nat, k: nat)
    requires i < |xs| && k < |xs| - 1
    ensures (xs[..i] + xs[i + 1..])[k] == xs[if k < i then k else k + 1]
  {
  }

  lemma EntryAt<T>(t: Table<T>, k: nat)
    requires (forall id :: id in t.order ==> id in t.rows) && k < |t.order|
    ensures |Entries(t)| == |t.order| && t.order[k] in t.rows && Entries(t)[k] == (t.order[k], t.rows[t.order[k]])
  {
    assert t.order[k] in t.order;
  }

  lemma SamePlaces<E>(a: seq<E>, b: seq<E>)
    requires |a| == |b| && forall k :: 0 <= k < |a| ==> a[k] == b[k]
    ensures a == b
  {
  }

  lemma DeleteRemovesOne<T>(t: Table<T>, idOf: T -> string, prefix: string, id: string, i: nat)
    requires Valid(t, idOf, prefix) && i < |t.order| && t.order[i] == id
    ensures Valid(Deleted(t, id), idOf, prefix)
    ensures Entries(Deleted(t, id)) == Entries(t)[..i] + Entries(t)[i + 1..]
  {
    DeleteValid(t, idOf, prefix, id);
    WithoutThis(t, idOf, prefix, id, i);
    forall k | 0 <= k < |t.order| - 1
      ensures Entries(Deleted(t, id))[k] == (Entries(t)[..i] + Entries(t)[i + 1..])[k] {
      EntryShifts(t, idOf, prefix, id, i, k);
    }
    SamePlaces(Entries(Deleted(t, id)), Entries(t)[..i] + Entries(t)[i + 1..]);
  }

  lemma WithoutThis<T>(t: Table<T>, idOf: T -> string, prefix: string, id: string, i: nat)
    requires Valid(t, idOf, prefix) && i < |t.order| && t.order[i] == id
    ensures Deleted(t, id).order == t.order[..i] + t.order[i + 1..]
  {
    assert id !in t.order[..i];
    WithoutAt(t.order, id, i);
  }

  lemma EntryShifts<T>(t: Table<T>, idOf: T -> string, prefix: string, id: string, i: nat, k: nat)
    requires Valid(t, idOf, prefix) && Valid(Deleted(t, id), idOf, prefix) && i < |t.order| && t.order[i] == id
    requires Deleted(t, id).order == t.order[..i] + t.order[i + 1..] && k < |t.order| - 1
    ensures |Entries(t)| == |t.order| && |Entries(Deleted(t, id))| == |t.order| - 1
    ensures Entries(Deleted(t, id))[k] == (Entries(t)[..i] + Entries(t)[i + 1..])[k]
  {
    var from := if k < i then k else k + 1;
    DeleteShifts(t, idOf, prefix, id, i, k);
    EntryAt(Deleted(t, id), k);
    EntryAt(t, from);
    SkipAt(Entries(t), i, k);
  }

  // ---- runs -------------------------------------------------------------------------

  datatype TableCall<T> = Create(row: T) | Change(row: T) | Remove(id: string)

  /** A create stores its row under the id it minted; other rows are not creates of this service. */
  function AfterCall<T>(t: Table<T>, c: TableCall<T>, idOf: T -> string, prefix: string): Table<T>
  {
    match c
    case Create(row) =>
      if idOf(row) == MintId(prefix, t.counter + 1) then Inserted(Minted(t), idOf(row), row) else t
    case Change(row) => if idOf(row) in t.rows then Updated(t, idOf(row), row) else t
    case Remove(id) => if id in t.rows then Deleted(t, id) else t
  }

  function AfterCalls<T>(t: Table<T>, calls: seq<TableCall<T>>, idOf: T -> string, prefix: string): Table<T>
  {
    if calls == [] then t
    else AfterCall(AfterCalls(t, calls[..|calls| - 1], idOf, prefix), calls[|calls| - 1], idOf, prefix)
  }

  /** The ids the creates among the calls minted, in order. */
  function MintedBy<T>(t: Table<T>, calls: seq<TableCall<T>>, idOf: T -> string, prefix: string): seq<string>
  {
    if calls == [] then []
    else
      var before := AfterCalls(t, calls[..|calls| - 1], idOf, prefix);
      var last := calls[|calls| - 1];
      MintedBy(t, calls[..|calls| - 1], idOf, prefix)
      + (if last.Create? && idOf(last.row) == MintId(prefix, before.counter + 1) then [idOf(last.row)] else [])
  }

  lemma {:induction false} TableValidOverRuns<T>(t: Table<T>, calls: seq<TableCall<T>>, idOf: T -> string,
      prefix: string)
    requires Valid(t, idOf, prefix)
    ensures Valid(AfterCalls(t, calls, idOf, prefix), idOf, prefix)
    ensures AfterCalls(t, calls, idOf, prefix).counter >= t.counter
  {
    if calls != [] {
      TableValidOverRuns(t, calls[..|calls| - 1], idOf, prefix);
      var before := AfterCalls(t, calls[..|calls| - 1], idOf, prefix);
      match calls[|calls| - 1]
      case Create(row) => if idOf(row) == MintId(prefix, before.counter + 1) { CreateValid(before, idOf, prefix, row); }
      case Change(row) => if idOf(row) in before.rows { UpdateValid(before, idOf, prefix, row); }
      case Remove(id) => DeleteValid(before, idOf, prefix, id);
    }
  }

  /** Minted ids are the counter's values above where it started. */
  lemma {:induction false} MintedInOrder<T>(t: Table<T>, calls: seq<TableCall<T>>, idOf: T -> string, prefix: string)
    ensures AfterCalls(t, calls, idOf, prefix).counter == t.counter + |MintedBy(t, calls, idOf, prefix)|
    ensures forall i :: 0 <= i < |MintedBy(t, calls, idOf, prefix)| ==>
      MintedBy(t, calls, idOf, prefix)[i] == MintId(prefix, t.counter + 1 + i)
  {
    if calls != [] {
      MintedInOrder(t, calls[..|calls| - 1], idOf, prefix);
    }
  }

  /** No id is ever minted twice, whatever was deleted in between. */
  lemma MintedIdsNeverReused<T>(t: Table<T>, calls: seq<TableCall<T>>, idOf: T -> string, prefix: string)
    ensures NoDup(MintedBy(t, calls, idOf, prefix))
  {
    MintedInOrder(t, calls, idOf, prefix);
    var ids := MintedBy(t, calls, idOf, prefix);
    forall i, j | 0 <= i < j < |ids| ensures ids[i] != ids[j] {
      if ids[i] == ids[j] {
        MintIdInjective(prefix, t.counter + 1 + i, t.counter + 1 + j);
      }
    }
  }
}
