/** When an invoice reads paid: what a refresh makes of the paid/invoiced status, and
    what collecting a debt in full and voiding that collection does to it. */
module Settling {
  import opened Coherence
  import opened Ids
  import opened Ledger
  import opened Money
  import opened Payments
  import opened TableLemmas
  import opened Tables
  import opened Wrappers

  // ---- a refresh --------------------------------------------------------------------

  /** An invoiced or paid invoice reads paid if nothing is owed and invoiced otherwise;
      any other status stays, and so does every other field but the cached figure. */
  lemma RefreshSettles(s: State, id: string)
    requires id in s.invoices.rows
    ensures id in RefreshInvoice(s, id).invoices.rows
    ensures var was, now := s.invoices.rows[id], RefreshInvoice(s, id).invoices.rows[id];
      && now == was.(outstanding := InvoiceOutstanding(s, was), status := now.status)
      && now.status ==
           if was.status !in {Invoiced, Paid} then was.status
           else if InvoiceOutstanding(s, was) == 0.0 then Paid else Invoiced
  {
    OutstandingIsCents(s, s.invoices.rows[id]);
  }

  /** The same in hundredths, on the amount, the live collections and the credited returns. */
  lemma RefreshPaysWhenCovered(s: State, id: string)
    requires WellFormed(s) && InvoiceListsFit(s, id) && InCents(s, id)
    ensures id in RefreshInvoice(s, id).invoices.rows
    ensures var was, now := s.invoices.rows[id], RefreshInvoice(s, id).invoices.rows[id];
      var left := was.amount - Live(s, id) - Credits(s, id);
      && (was.status in {Invoiced, Paid} ==> now.status == if left <= 0.0 then Paid else Invoiced)
      && (was.status !in {Invoiced, Paid} ==> now.status == was.status)
      && now.outstanding == if was.status in {Invoiced, Paid, Confirmed} && left > 0.0 then left else 0.0
  {
    RefreshSettles(s, id);
    var was := s.invoices.rows[id];
    assert InvoiceId(was) == id;
    if IsConfirmedInvoice(was.status) {
      DerivedExact(s, was);
    }
  }

  // ---- paying in full, and taking it back -----------------------------------------------

  /** A form that asks for a payment of all that is owed. */
  predicate PaysAll(s: State, c: Collection)
  {
    && c.invoiceId != "" && c.invoiceId in s.invoices.rows && s.invoices.rows[c.invoiceId].status == Invoiced
    && c.amount == s.invoices.rows[c.invoiceId].outstanding && c.status in {Blank, Collected}
  }

  /** A form that voids it, with invoice and amount left blank or typed again. */
  predicate TakesBack(c: Collection, v: Collection)
  {
    v.status == Void && v.invoiceId in {"", c.invoiceId} && (v.amount <= 0.0 || v.amount == c.amount)
  }

  /** Room for one more collection in the list, and figures in hundredths. */
  ghost predicate Payable(s: State, id: string)
  {
    && WellFormed(s) && Coherent(s) && InCents(s, id)
    && |Kept(s.collects, CollectionKeys, ByRef(id))| < 5000 && |Kept(s.rets, ReturnKeys, ByRef(id))| <= 5000
  }

  lemma PaidInFull(s: State, c: Collection)
    requires Payable(s, c.invoiceId) && PaysAll(s, c)
    ensures CreateCollection(s, c).1.Success?
    ensures var s1, row := CreateCollection(s, c).0, CreateCollection(s, c).1.value;
      && WellFormed(s1) && row.id in s1.collects.rows && s1.collects.rows[row.id] == row
      && row.invoiceId == c.invoiceId && row.amount == c.amount > 0.0 && row.status == Collected
      && c.invoiceId in s1.invoices.rows && s1.invoices.rows[c.invoiceId].status == Paid
      && s1.invoices.rows[c.invoiceId].outstanding == 0.0
      && s1.invoices.rows[c.invoiceId].amount == s.invoices.rows[c.invoiceId].amount
  {
    var id := c.invoiceId;
    AllThatIsLeft(s, c);
    var row := CreateCollection(s, c).1.value;
    CreatedRow(s, c, row);
    PaidTable(s, c, row);
    RefreshPaysWhenCovered(WithCollection(s, row), id);
    RefreshSame(WithCollection(s, row), id, id);
  }

  /** The books with the payment in them: nothing is left. */
  lemma PaidTable(s: State, c: Collection, row: Collection)
    requires Payable(s, c.invoiceId) && PaysAll(s, c) && row.id == MintId("COL", s.collects.counter + 1)
    requires row.invoiceId == c.invoiceId && row.amount == c.amount && row.status == Collected
    ensures var t, id := WithCollection(s, row), c.invoiceId;
      && WellFormed(t) && InvoiceListsFit(t, id) && InCents(t, id)
      && t.invoices.rows[id].amount - Live(t, id) - Credits(t, id) == 0.0
  {
    InsertedTotals(s, row);
    OneMoreListed(s, row);
    AllThatIsLeft(s, c);
    CentsAdd(Live(s, c.invoiceId), c.amount);
  }

  lemma OneMoreListed(s: State, row: Collection)
    requires Payable(s, row.invoiceId) && row.id == MintId("COL", s.collects.counter + 1)
    ensures InvoiceListsFit(WithCollection(s, row), row.invoiceId)
  {
    CreateValid(s.collects, CollectionId, "COL", row);
    KeptInsert(Minted(s.collects), row.id, row, CollectionKeys, ByRef(row.invoiceId));
  }

  lemma AllThatIsLeft(s: State, c: Collection)
    requires Payable(s, c.invoiceId) && PaysAll(s, c)
    ensures c.amount > 0.0 && IsCents(c.amount)
    ensures c.amount == s.invoices.rows[c.invoiceId].amount - Live(s, c.invoiceId) - Credits(s, c.invoiceId)
  {
    OutstandingExact(s, c.invoiceId);
    OwedInCents(s, c.invoiceId);
    assert InvoiceCoherent(s, c.invoiceId);
  }

  /** One live collection covers what is left of its invoice, which reads paid. */
  ghost predicate PaidUp(s: State, row: Collection)
  {
    && WellFormed(s) && row.id in s.collects.rows && s.collects.rows[row.id] == row
    && row.invoiceId != "" && row.amount > 0.0 && IsCents(row.amount) && row.status == Collected
    && InvoiceListsFit(s, row.invoiceId) && InCents(s, row.invoiceId)
    && s.invoices.rows[row.invoiceId].status == Paid
    && s.invoices.rows[row.invoiceId].amount - Live(s, row.invoiceId) - Credits(s, row.invoiceId) == 0.0
  }

  lemma TakenBack(s: State, row: Collection, v: Collection)
    requires PaidUp(s, row) && TakesBack(row, v)
    ensures UpdateCollection(s, row.id, v).1.Success?
    ensures var t := UpdateCollection(s, row.id, v).0;
      && row.invoiceId in t.invoices.rows && t.invoices.rows[row.invoiceId].status == Invoiced
      && t.invoices.rows[row.invoiceId].outstanding == row.amount
  {
    VoidAccepted(s, row, v);
    var voided := UpdateCollection(s, row.id, v).1.value;
    UpdatedRow(s, row.id, v, voided);
    VoidedTable(s, row, voided);
    RefreshPaysWhenCovered(Recollected(s, voided), row.invoiceId);
  }

  lemma VoidAccepted(s: State, row: Collection, v: Collection)
    requires PaidUp(s, row) && TakesBack(row, v)
    ensures UpdateCollection(s, row.id, v).1.Success?
    ensures var voided := UpdateCollection(s, row.id, v).1.value;
      voided.id == row.id && voided.invoiceId == row.invoiceId && voided.status == Void
  {
  }

  /** The books without it: its amount is owed again. */
  lemma VoidedTable(s: State, row: Collection, voided: Collection)
    requires PaidUp(s, row) && voided.id == row.id && voided.invoiceId == row.invoiceId && voided.status == Void
    ensures var t, id := Recollected(s, voided), row.invoiceId;
      && WellFormed(t) && InvoiceListsFit(t, id) && InCents(t, id)
      && t.invoices.rows[id].amount - Live(t, id) - Credits(t, id) == row.amount
  {
    var t, id := Recollected(s, voided), row.invoiceId;
    UpdateValid(s.collects, CollectionId, "COL", voided);
    UpdateCollectionLive(s, voided, id);
    CreditsReadReturns(s, t, id);
    ListsInvoiceOfCollection(row, id);
    ListsInvoiceOfCollection(voided, id);
    MatchingLength(s.collects.order, s.collects.rows, t.collects.rows, Accepting(CollectionKeys, ByRef(id)));
    CentsAdd(Live(s, id), row.amount);
  }

  /** Collecting all that is owed pays the invoice; voiding that collection reopens it,
      owing what was paid. */
  lemma PaidThenReopened(s: State, c: Collection, v: Collection)
    requires Payable(s, c.invoiceId) && PaysAll(s, c) && TakesBack(c, v)
    ensures var (s1, r1) := CreateCollection(s, c);
      && r1.Success? && c.invoiceId in s1.invoices.rows
      && s1.invoices.rows[c.invoiceId].status == Paid && s1.invoices.rows[c.invoiceId].outstanding == 0.0
      && var (s2, r2) := UpdateCollection(s1, r1.value.id, v);
      && r2.Success? && c.invoiceId in s2.invoices.rows
      && s2.invoices.rows[c.invoiceId].status == Invoiced && s2.invoices.rows[c.invoiceId].outstanding == c.amount
  {
    PaidInFull(s, c);
    var s1, row := CreateCollection(s, c).0, CreateCollection(s, c).1.value;
    PaidState(s, c, row);
    TakenBack(s1, row, v);
  }

  lemma PaidState(s: State, c: Collection, row: Collection)
    requires Payable(s, c.invoiceId) && PaysAll(s, c) && CreateCollection(s, c).1 == Success(row)
    ensures PaidUp(CreateCollection(s, c).0, row)
  {
    PaidInFull(s, c);
    AllThatIsLeft(s, c);
    PaidBooks(s, c, row);
  }

  lemma PaidBooks(s: State, c: Collection, row: Collection)
    requires Payable(s, c.invoiceId) && PaysAll(s, c) && CreateCollection(s, c).1 == Success(row)
    requires row.invoiceId == c.invoiceId && row.amount == c.amount && row.status == Collected
    ensures var t, id := CreateCollection(s, c).0, c.invoiceId;
      && InvoiceListsFit(t, id) && InCents(t, id)
      && t.invoices.rows[id].amount - Live(t, id) - Credits(t, id) == 0.0
  {
    CreatedRow(s, c, row);
    PaidTable(s, c, row);
    RefreshSame(WithCollection(s, row), c.invoiceId, c.invoiceId);
    SameOwed(WithCollection(s, row), CreateCollection(s, c).0, c.invoiceId);
  }
}
