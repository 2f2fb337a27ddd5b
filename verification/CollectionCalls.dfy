/** What a collection call does with the form it is given, said on the caller's own
    fields, and what moving a live collection between invoices does to both. */
module CollectionCalls {
  import opened Coherence
  import opened Ids
  import opened Ledger
  import opened Money
  import opened Payments
  import opened TableLemmas
  import opened Tables
  import opened Wrappers

  /** There is an invoice of that id, invoiced, paid or confirmed. */
  predicate TakesPayments(s: State, id: string)
  {
    id != "" && id in s.invoices.rows && s.invoices.rows[id].status in {Invoiced, Paid, Confirmed}
  }

  /** A live payment of more than is owed, what it already counted for set aside. */
  predicate TooMuch(s: State, id: string, amount: real, own: real, status: Status)
    requires TakesPayments(s, id)
  {
    status != Void && amount > s.invoices.rows[id].outstanding + own + 0.009
  }

  predicate Payable(s: State, id: string, amount: real, own: real, status: Status)
  {
    TakesPayments(s, id) && amount > 0.0 && !TooMuch(s, id, amount, own, status)
  }

  /** The invoice is unknown, or nothing is paid on one that takes payments. */
  predicate Senseless(s: State, id: string, amount: real)
  {
    id == "" || id !in s.invoices.rows || (TakesPayments(s, id) && amount <= 0.0)
  }

  /** The form as it is kept: on its invoice's outlet, collected unless another status was
      typed, and a live one with what is left. */
  ghost predicate KeptAs(s: State, c: Collection, id: string, invoiceId: string, amount: real, own: real,
      row: Collection)
    requires TakesPayments(s, invoiceId)
  {
    && row.id == id && row.invoiceId == invoiceId && row.amount == amount
    && row.outletId == s.invoices.rows[invoiceId].outletId
    && row.status == (if c.status == Blank then Collected else c.status)
    && (if row.status == Void then row.remainingOnInvoice == c.remainingOnInvoice
        else RoundsTo(s.invoices.rows[invoiceId].outstanding + own - amount, row.remainingOnInvoice))
  }

  /** The part of its invoice's payments the stored collection already is. */
  function Counted(cur: Collection, invoiceId: string): real
  {
    if cur.status != Void && cur.invoiceId == invoiceId then cur.amount else 0.0
  }

  lemma Checked(s: State, c: Collection, existing: Option<Collection>)
    requires WellFormed(s)
    ensures var r := ValidateCollection(s, c, existing);
      var own := if existing.Some? then Counted(existing.value, c.invoiceId) else 0.0;
      && (r.Success? <==> Payable(s, c.invoiceId, c.amount, own, c.status))
      && (r == Failure(Invalid) <==> Senseless(s, c.invoiceId, c.amount)) && r != Failure(NotFound)
      && (r.Success? ==> KeptAs(s, c, c.id, c.invoiceId, c.amount, own, r.value))
  {
    if c.invoiceId in s.invoices.rows {
      assert InvoiceId(s.invoices.rows[c.invoiceId]) == c.invoiceId;
      var own := if existing.Some? then Counted(existing.value, c.invoiceId) else 0.0;
      var left := s.invoices.rows[c.invoiceId].outstanding + own - c.amount;
      RoundMeans(left, Round2(left));
    }
  }

  /** A collection is accepted exactly if it pays a positive amount on a confirmed invoice
      and, unless void, no more than that invoice owes; it is appended under the next
      number. */
  lemma CreateVerdict(s: State, c: Collection)
    requires WellFormed(s)
    ensures var (t, r), id := CreateCollection(s, c), MintId("COL", s.collects.counter + 1);
      && (r.Success? <==> Payable(s, c.invoiceId, c.amount, 0.0, c.status))
      && (r == Failure(Invalid) <==> Senseless(s, c.invoiceId, c.amount)) && r != Failure(NotFound)
      && (r.Failure? ==> t == s)
      && (r.Success? ==>
            && KeptAs(s, c, id, c.invoiceId, c.amount, 0.0, r.value)
            && t.collects == Table(s.collects.rows[id := r.value], s.collects.order + [id], s.collects.counter + 1)
            && t.rets == s.rets && t.loads == s.loads)
  {
    Checked(s, c, None);
    if CreateCollection(s, c).1.Success? {
      CreateStored(s, c, CreateCollection(s, c).1.value);
    }
  }

  lemma CreateStored(s: State, c: Collection, row: Collection)
    requires WellFormed(s) && CreateCollection(s, c).1 == Success(row)
    ensures ValidateCollection(s, c, None).Success?
    ensures row == ValidateCollection(s, c, None).value.(id := MintId("COL", s.collects.counter + 1))
    ensures var t := CreateCollection(s, c).0;
      && t.collects == Table(s.collects.rows[row.id := row], s.collects.order + [row.id], s.collects.counter + 1)
      && t.rets == s.rets && t.loads == s.loads
  {
    CreatedRow(s, c, row);
    RefreshInvoiceFrame(WithCollection(s, row), row.invoiceId);
  }

  // ---- edits ------------------------------------------------------------------------------------

  /** Where and how much an edit leaves the collection: as typed, or as it was if left blank. */
  function Target(c: Collection, cur: Collection): string
  {
    if c.invoiceId == "" then cur.invoiceId else c.invoiceId
  }

  function Asked(c: Collection, cur: Collection): real
  {
    if c.amount > 0.0 then c.amount else cur.amount
  }

  /** Another amount than that of a recorded live payment was typed. */
  ghost predicate RetypesAmount(c: Collection, cur: Collection)
  {
    cur.status != Void && c.amount > 0.0 && Round2(c.amount) != Round2(cur.amount)
  }

  /** An edit is refused for want of the collection, for another amount than the recorded
      one, or as a create on its target would be; otherwise the collection stands on the
      typed invoice with the typed amount, blanks kept as they were. */
  lemma UpdateVerdict(s: State, id: string, c: Collection)
    requires WellFormed(s)
    ensures var (t, r) := UpdateCollection(s, id, c);
      && (r == Failure(NotFound) <==> id !in s.collects.rows) && (r.Failure? ==> t == s)
      && (id in s.collects.rows ==>
            var cur := s.collects.rows[id];
            var to, amount := Target(c, cur), Asked(c, cur);
            var own := Counted(cur, to);
            && (r.Success? <==> !RetypesAmount(c, cur) && Payable(s, to, amount, own, c.status))
            && (r == Failure(Invalid) <==> !RetypesAmount(c, cur) && Senseless(s, to, amount))
            && (r.Success? ==>
                  && KeptAs(s, c, id, to, amount, own, r.value)
                  && t.collects == s.collects.(rows := s.collects.rows[id := r.value])
                  && t.rets == s.rets && t.loads == s.loads))
  {
    if id in s.collects.rows {
      var cur := s.collects.rows[id];
      assert CollectionId(cur) == id;
      EditChecked(s, c, cur);
      if UpdateCollection(s, id, c).1.Success? {
        EditStored(s, id, c);
      }
    }
  }

  lemma EditChecked(s: State, c: Collection, cur: Collection)
    requires WellFormed(s)
    ensures var r, to, amount := ValidateCollection(s, DefaultedCollection(c, cur), Some(cur)),
                                 Target(c, cur), Asked(c, cur);
      && (r.Success? <==> Payable(s, to, amount, Counted(cur, to), c.status))
      && (r == Failure(Invalid) <==> Senseless(s, to, amount)) && r != Failure(NotFound)
      && (r.Success? ==> KeptAs(s, c, c.id, to, amount, Counted(cur, to), r.value))
  {
    Checked(s, DefaultedCollection(c, cur), Some(cur));
  }

  lemma EditStored(s: State, id: string, c: Collection)
    requires WellFormed(s) && UpdateCollection(s, id, c).1.Success?
    ensures id in s.collects.rows
    ensures var (t, r) := UpdateCollection(s, id, c);
      && t.collects == s.collects.(rows := s.collects.rows[id := r.value]) && t.rets == s.rets && t.loads == s.loads
      && r.value == ValidateCollection(s, DefaultedCollection(c, s.collects.rows[id]), Some(s.collects.rows[id]))
                      .value.(id := id)
  {
    var row := UpdateCollection(s, id, c).1.value;
    UpdatedRow(s, id, c, row);
    RefreshInvoiceFrame(Recollected(s, row), row.invoiceId);
    RefreshInvoiceFrame(RefreshInvoice(Recollected(s, row), row.invoiceId), s.collects.rows[id].invoiceId);
  }

  /** Only a void collection is deleted. */
  lemma DeleteVerdict(s: State, id: string)
    requires WellFormed(s)
    ensures var (t, r) := DeleteCollection(s, id);
      && (r == Failure(NotFound) <==> id !in s.collects.rows)
      && (r == Failure(Conflict) <==> id in s.collects.rows && s.collects.rows[id].status != Void)
      && r != Failure(Invalid) && (r.Failure? ==> t == s)
      && (r.Success? ==> t.collects.rows == s.collects.rows - {id} && t.rets == s.rets && t.loads == s.loads)
  {
    if id in s.collects.rows {
      RefreshInvoiceFrame(s.(collects := Deleted(s.collects, id)), s.collects.rows[id].invoiceId);
    }
  }

  // ---- moving a collection ------------------------------------------------------------------------

  /** The edit names another invoice and leaves a live collection live. */
  ghost predicate Moves(s: State, id: string, c: Collection)
  {
    && WellFormed(s) && Coherent(s) && id in s.collects.rows && UpdateCollection(s, id, c).1.Success?
    && c.invoiceId != "" && c.invoiceId != s.collects.rows[id].invoiceId && s.collects.rows[id].invoiceId != ""
    && s.collects.rows[id].status != Void && c.status != Void
  }

  /** Moving a live collection takes its amount off the live total of the invoice it was
      on and puts what is stored now on that of the invoice the form names. */
  lemma MoveShiftsLive(s: State, id: string, c: Collection)
    requires Moves(s, id, c)
    ensures var t, cur, row := UpdateCollection(s, id, c).0, s.collects.rows[id], UpdateCollection(s, id, c).1.value;
      && Live(t, cur.invoiceId) == Live(s, cur.invoiceId) - cur.amount
      && Live(t, c.invoiceId) == Live(s, c.invoiceId) + row.amount
      && (c.amount <= 0.0 || c.amount == cur.amount ==> row.amount == cur.amount)
      && Round2(row.amount) == Round2(cur.amount)
  {
    var row := UpdateCollection(s, id, c).1.value;
    UpdateVerdict(s, id, c);
    MovedTables(s, id, c, row);
    UpdateCollectionLive(s, row, s.collects.rows[id].invoiceId);
    UpdateCollectionLive(s, row, c.invoiceId);
  }

  lemma MovedTables(s: State, id: string, c: Collection, row: Collection)
    requires Moves(s, id, c) && UpdateCollection(s, id, c).1 == Success(row)
    ensures row.id == id && UpdateCollection(s, id, c).0.collects == Recollected(s, row).collects
    ensures UpdateCollection(s, id, c).0.rets == s.rets
  {
    UpdateVerdict(s, id, c);
    EditStored(s, id, c);
  }

  /** `t` shows an invoice of `s` as owing its amount less the given payments and returns. */
  ghost predicate Shows(s: State, t: State, x: string, live: real, credits: real)
  {
    && x in s.invoices.rows && x in t.invoices.rows
    && t.invoices.rows[x].outstanding == Max(0.0, s.invoices.rows[x].amount - live - credits)
  }

  lemma ShownAfterEdit(s: State, id: string, c: Collection, x: string)
    requires WellFormed(s) && Coherent(s) && UpdateCollection(s, id, c).1.Success? && TakesPayments(s, x)
    requires var t := UpdateCollection(s, id, c).0;
      && InvoiceListsFit(t, x) && IsCents(Live(t, x)) && IsCents(Credits(t, x)) && IsCents(s.invoices.rows[x].amount)
    ensures var t := UpdateCollection(s, id, c).0; Shows(s, t, x, Live(t, x), Credits(t, x))
  {
    EditKeepsBook(s, id, c, x);
    UpdateCollectionCoherent(s, id, c);
    ShownIn(s, UpdateCollection(s, id, c).0, x);
  }

  lemma ShownIn(s: State, t: State, x: string)
    requires WellFormed(t) && Coherent(t) && TakesPayments(t, x) && InvoiceListsFit(t, x)
    requires x in s.invoices.rows && t.invoices.rows[x].amount == s.invoices.rows[x].amount
    requires IsCents(Live(t, x)) && IsCents(Credits(t, x)) && IsCents(s.invoices.rows[x].amount)
    ensures Shows(s, t, x, Live(t, x), Credits(t, x))
  {
    OutstandingExact(t, x);
  }

  lemma EditKeepsBook(s: State, id: string, c: Collection, x: string)
    requires WellFormed(s) && UpdateCollection(s, id, c).1.Success? && TakesPayments(s, x)
    ensures var t := UpdateCollection(s, id, c).0;
      x in t.invoices.rows && t.invoices.rows[x].amount == s.invoices.rows[x].amount && TakesPayments(t, x)
  {
    var row := UpdateCollection(s, id, c).1.value;
    UpdatedRow(s, id, c, row);
    RecollectedConfirmed(s, id, c, row);
    RefreshBothSame(Recollected(s, row), row.invoiceId, s.collects.rows[id].invoiceId, x);
  }

  /** The move is in hundredths, and the service sees all payments of both invoices. */
  ghost predicate MovesInCents(s: State, id: string, c: Collection)
  {
    && Moves(s, id, c) && BookSound(s, s.collects.rows[id].invoiceId) && BookSound(s, c.invoiceId)
    && IsCents(Asked(c, s.collects.rows[id]))
    && var t := UpdateCollection(s, id, c).0;
       InvoiceListsFit(t, c.invoiceId) && InvoiceListsFit(t, s.collects.rows[id].invoiceId)
  }

  lemma MovedAmount(s: State, id: string, c: Collection)
    requires MovesInCents(s, id, c)
    ensures UpdateCollection(s, id, c).1.value.amount == s.collects.rows[id].amount
    ensures s.collects.rows[id].amount > 0.0 && IsCents(s.collects.rows[id].amount)
    ensures TakesPayments(s, c.invoiceId) && TakesPayments(s, s.collects.rows[id].invoiceId)
  {
    UpdateVerdict(s, id, c);
    RoundFixesCents(s.collects.rows[id].amount);
    RoundFixesCents(Asked(c, s.collects.rows[id]));
  }

  lemma MovedTotals(s: State, id: string, c: Collection)
    requires MovesInCents(s, id, c)
    ensures var t, from, to, moved := UpdateCollection(s, id, c).0, s.collects.rows[id].invoiceId, c.invoiceId,
                                      s.collects.rows[id].amount;
      && Live(t, from) == Live(s, from) - moved && Live(t, to) == Live(s, to) + moved
      && IsCents(Live(t, from)) && IsCents(Live(t, to)) && IsCents(Credits(s, from)) && IsCents(Credits(s, to))
  {
    MovedAmount(s, id, c);
    MoveShiftsLive(s, id, c);
    BookInCents(s, s.collects.rows[id].invoiceId);
    BookInCents(s, c.invoiceId);
    CentsAdd(Live(s, s.collects.rows[id].invoiceId), s.collects.rows[id].amount);
    CentsAdd(Live(s, c.invoiceId), s.collects.rows[id].amount);
  }

  lemma MovedCredits(s: State, id: string, c: Collection, x: string)
    requires Moves(s, id, c)
    ensures Credits(UpdateCollection(s, id, c).0, x) == Credits(s, x)
  {
    MovedTables(s, id, c, UpdateCollection(s, id, c).1.value);
    CreditsReadReturns(s, UpdateCollection(s, id, c).0, x);
  }

  lemma MovedShows(s: State, id: string, c: Collection, x: string, live: real)
    requires MovesInCents(s, id, c) && x in {c.invoiceId, s.collects.rows[id].invoiceId}
    requires Live(UpdateCollection(s, id, c).0, x) == live
    ensures Shows(s, UpdateCollection(s, id, c).0, x, live, Credits(s, x))
  {
    MovedAmount(s, id, c);
    MovedTotals(s, id, c);
    MovedCredits(s, id, c, x);
    ShownAfterEdit(s, id, c, x);
  }

  /** Both invoices then show it: the one left owes the amount again, the one entered that
      much less. */
  lemma MoveShowsOnBoth(s: State, id: string, c: Collection)
    requires MovesInCents(s, id, c)
    ensures var t, from, moved := UpdateCollection(s, id, c).0, s.collects.rows[id].invoiceId,
                                  s.collects.rows[id].amount;
      && Shows(s, t, from, Live(s, from) - moved, Credits(s, from))
      && Shows(s, t, c.invoiceId, Live(s, c.invoiceId) + moved, Credits(s, c.invoiceId))
  {
    var from, moved := s.collects.rows[id].invoiceId, s.collects.rows[id].amount;
    MovedTotals(s, id, c);
    MovedShows(s, id, c, from, Live(s, from) - moved);
    MovedShows(s, id, c, c.invoiceId, Live(s, c.invoiceId) + moved);
  }
}
