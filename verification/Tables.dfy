/** The value of a typed-document table in memory mode, and the reads the
    service makes of it. */
module Tables {
  import opened Ids
  import opened Wrappers

  /** The three columns a list can filter on. */
  datatype Keys = Keys(status: string, outlet: string, ref: string)

  datatype DocFilter = DocFilter(status: string, outlet: string, ref: string, limit: int, offset: int)

  datatype Table<T> = Table(rows: map<string, T>, order: seq<string>, counter: nat)

  const LIST_LIMIT := 5000

  // ---- reads --------------------------------------------------------------

  predicate Accepts(k: Keys, f: DocFilter)
  {
    && (f.status == "" || k.status == f.status)
    && (f.outlet == "" || k.outlet == f.outlet)
    && (f.ref == "" || k.ref == f.ref)
  }

  function Accepting<T>(keysOf: T -> Keys, f: DocFilter): T -> bool
  {
    (row: T) => Accepts(keysOf(row), f)
  }

  /** The kept rows, newest first. */
  function Matching<T>(order: seq<string>, rows: map<string, T>, keep: T -> bool): seq<T>
  {
    if order == [] then []
    else
      var id := order[|order| - 1];
      var older := Matching(order[..|order| - 1], rows, keep);
      if id in rows && keep(rows[id]) then [rows[id]] + older else older
  }

  function Page<T>(all: seq<T>, limit: int, offset: nat): seq<T>
  {
    var start := if offset > |all| then |all| else offset;
    var end := if limit <= 0 || start + limit > |all| then |all| else start + limit;
    all[start..end]
  }

  function PageSize(f: DocFilter): int
  {
    if f.limit <= 0 then 500 else f.limit
  }

  function Kept<T>(t: Table<T>, keysOf: T -> Keys, f: DocFilter): seq<T>
  {
    Matching(t.order, t.rows, Accepting(keysOf, f))
  }

  /** What `list` hands back for a filter. */
  function Listed<T>(t: Table<T>, keysOf: T -> Keys, f: DocFilter): seq<T>
    requires f.offset >= 0
  {
    Page(Kept(t, keysOf, f), PageSize(f), f.offset)
  }

  function ByRef(id: string): DocFilter
  {
    DocFilter("", "", id, LIST_LIMIT, 0)
  }

  function ByOutlet(id: string): DocFilter
  {
    DocFilter("", id, "", LIST_LIMIT, 0)
  }

  const EVERYTHING := DocFilter("", "", "", LIST_LIMIT, 0)

  function SumOf<T>(xs: seq<T>, w: T -> real): real
  {
    if xs == [] then 0.0 else SumOf(xs[..|xs| - 1], w) + w(xs[|xs| - 1])
  }

  /** The uncapped sum over every row a filter matches. */
  function Tally<T>(t: Table<T>, keysOf: T -> Keys, f: DocFilter, w: T -> real): real
  {
    SumOf(Kept(t, keysOf, f), w)
  }

  /** What one row contributes to a tally. */
  function Share<T>(row: T, keysOf: T -> Keys, f: DocFilter, w: T -> real): real
  {
    if Accepts(keysOf(row), f) then w(row) else 0.0
  }

  // ---- writes -------------------------------------------------------------

  function Minted<T>(t: Table<T>): Table<T>
  {
    t.(counter := t.counter + 1)
  }

  function Inserted<T>(t: Table<T>, id: string, row: T): Table<T>
  {
    t.(rows := t.rows[id := row], order := t.order + [id])
  }

  function Updated<T>(t: Table<T>, id: string, row: T): Table<T>
  {
    t.(rows := t.rows[id := row])
  }

  function Without(order: seq<string>, id: string): seq<string>
  {
    if order == [] then []
    else if order[0] == id then order[1..]
    else [order[0]] + Without(order[1..], id)
  }

  function Deleted<T>(t: Table<T>, id: string): Table<T>
  {
    t.(rows := t.rows - {id}, order := Without(t.order, id))
  }

  function Get<T>(t: Table<T>, id: string): Option<T>
  {
    if id in t.rows then Some(t.rows[id]) else None
  }

  // ---- validity -----------------------------------------------------------

  ghost predicate NoDup(order: seq<string>)
  {
    forall i, j :: 0 <= i < j < |order| ==> order[i] != order[j]
  }

  /** Order and map agree, each row sits under its own id, and no id the counter
      has still to mint is in use. */
  ghost predicate Valid<T>(t: Table<T>, idOf: T -> string, prefix: string)
  {
    && NoDup(t.order)
    && (forall id :: id in t.order <==> id in t.rows)
    && (forall id :: id in t.rows ==> idOf(t.rows[id]) == id)
    && "" !in t.rows
    && (forall k: nat :: k > t.counter ==> MintId(prefix, k) !in t.rows)
  }

  lemma EmptyValid<T>(idOf: T -> string, prefix: string)
    ensures Valid(Table(map[], [], 0), idOf, prefix)
  {
  }

  /** A create: mint, then insert under the minted id. */
  lemma CreateValid<T>(t: Table<T>, idOf: T -> string, prefix: string, row: T)
    requires Valid(t, idOf, prefix)
    requires idOf(row) == MintId(prefix, t.counter + 1)
    ensures idOf(row) != "" && idOf(row) !in t.rows && idOf(row) !in t.order
    ensures Valid(Inserted(Minted(t), idOf(row), row), idOf, prefix)
  {
    var id := idOf(row);
    assert id !in t.rows;
    var t' := Inserted(Minted(t), id, row);
    forall k: nat | k > t'.counter ensures MintId(prefix, k) !in t'.rows {
      if MintId(prefix, k) == id {
        MintIdInjective(prefix, k, t.counter + 1);
      }
      assert MintId(prefix, k) !in t.rows;
    }
    forall x ensures x in t'.order <==> x in t'.rows {
    }
  }

  lemma UpdateValid<T>(t: Table<T>, idOf: T -> string, prefix: string, row: T)
    requires Valid(t, idOf, prefix) && idOf(row) in t.rows
    ensures Valid(Updated(t, idOf(row), row), idOf, prefix)
  {
  }

  lemma {:induction false} WithoutDrops(order: seq<string>, id: string)
    requires NoDup(order)
    ensures NoDup(Without(order, id))
    ensures forall x :: x in Without(order, id) <==> x in order && x != id
  {
    if order != [] {
      var rest := order[1..];
      assert NoDup(rest);
      assert order == [order[0]] + rest;
      assert order[0] !in rest;
      if order[0] != id {
        WithoutDrops(rest, id);
      }
    }
  }

  lemma DeleteValid<T>(t: Table<T>, idOf: T -> string, prefix: string, id: string)
    requires Valid(t, idOf, prefix)
    ensures Valid(Deleted(t, id), idOf, prefix)
  {
    WithoutDrops(t.order, id);
  }
}
