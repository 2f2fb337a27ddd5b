/** What the payment guards mean: no invoice is collected beyond its amount. */
module Payments {
  import opened Coherence
  import opened Ids
  import opened Ledger
  import opened Money
  import opened TableLemmas
  import opened Tables
  import opened Wrappers

  /** Live collections of an invoice: all of them, not just the listed ones. */
  function Live(s: State, invoiceId: string): real
  {
    Tally(s.collects, CollectionKeys, ByRef(invoiceId), LiveAmount)
  }

  function Credits(s: State, invoiceId: string): real
  {
    Tally(s.rets, ReturnKeys, ByRef(invoiceId), CreditedAmount)
  }

  /** The internal lists stop at 5000 rows; within that they see everything. */
  ghost predicate InvoiceListsFit(s: State, invoiceId: string)
  {
    && |Kept(s.collects, CollectionKeys, ByRef(invoiceId))| <= LIST_LIMIT
    && |Kept(s.rets, ReturnKeys, ByRef(invoiceId))| <= LIST_LIMIT
  }

  /** The derived outstanding in the words of its definition. */
  lemma OutstandingMeans(s: State, inv: Invoice)
    requires InvoiceListsFit(s, inv.id)
    ensures InvoiceOutstanding(s, inv)
         == if IsConfirmedInvoice(inv.status)
            then Round2(Max(0.0, inv.amount - Live(s, inv.id) - Credits(s, inv.id))) else 0.0
  {
    ListedIsKept(s.collects, CollectionKeys, ByRef(inv.id));
    ListedIsKept(s.rets, ReturnKeys, ByRef(inv.id));
  }

  lemma {:induction false} SumIsCents<T>(xs: seq<T>, w: T -> real)
    requires forall x :: x in xs ==> IsCents(w(x))
    ensures IsCents(SumOf(xs, w))
  {
    if xs == [] {
      ZeroIsCents();
    } else {
      SumIsCents(xs[..|xs| - 1], w);
      CentsAdd(SumOf(xs[..|xs| - 1], w), w(xs[|xs| - 1]));
    }
  }

  lemma TallyIsCents<T>(t: Table<T>, keysOf: T -> Keys, f: DocFilter, w: T -> real)
    requires forall id :: id in t.rows && Accepts(keysOf(t.rows[id]), f) ==> IsCents(w(t.rows[id]))
    ensures IsCents(Tally(t, keysOf, f, w))
  {
    MatchingFrom(t.order, t.rows, Accepting(keysOf, f));
    SumIsCents(Kept(t, keysOf, f), w);
  }

  /** An outlet's balance is the exact sum over its confirmed invoices. */
  lemma OutletOwesItsInvoices(s: State, o: Outlet)
    requires WellFormed(s) && Coherent(s) && o in s.outlets
    requires |Kept(s.invoices, InvoiceKeys, ByOutlet(o.id))| <= LIST_LIMIT
    ensures o.outstanding == Tally(s.invoices, InvoiceKeys, ByOutlet(o.id), ConfirmedOutstanding)
  {
    assert BalanceCoherent(s, o);
    ListedIsKept(s.invoices, InvoiceKeys, ByOutlet(o.id));
    forall id | id in s.invoices.rows ensures IsCents(ConfirmedOutstanding(s.invoices.rows[id])) {
      assert InvoiceCoherent(s, id);
      OutstandingIsCents(s, s.invoices.rows[id]);
      ZeroIsCents();
    }
    TallyIsCents(s.invoices, InvoiceKeys, ByOutlet(o.id), ConfirmedOutstanding);
    RoundFixesCents(Tally(s.invoices, InvoiceKeys, ByOutlet(o.id), ConfirmedOutstanding));
  }

  /** What is left to pay: amount less live collections less credited returns, not below zero. */
  function Owed(s: State, id: string): real
    requires id in s.invoices.rows
  {
    Max(0.0, s.invoices.rows[id].amount - Live(s, id) - Credits(s, id))
  }

  // ---- one invoice's books ---------------------------------------------------

  predicate Confirmed(s: State, id: string)
  {
    id in s.invoices.rows && IsConfirmedInvoice(s.invoices.rows[id].status)
  }

  ghost predicate PaymentSound(c: Collection)
  {
    c.amount > 0.0 && IsCents(c.amount)
  }

  ghost predicate ReturnSound(r: OutletReturn)
  {
    r.status == Credited ==> r.credit >= 0.0 && IsCents(r.credit)
  }

  /** No live collection names the invoice. */
  ghost predicate NoLive(s: State, id: string)
  {
    forall c :: c in s.collects.rows && s.collects.rows[c].status != Void ==> s.collects.rows[c].invoiceId != id
  }

  /** Payments, returns and amount are in hundredths; live payments add up to at most
      the amount of a confirmed invoice and stand on nothing else. */
  ghost predicate BookSound(s: State, id: string)
  {
    && (forall c :: c in s.collects.rows && s.collects.rows[c].invoiceId == id ==> PaymentSound(s.collects.rows[c]))
    && (forall r :: r in s.rets.rows && s.rets.rows[r].invoiceId == id ==> ReturnSound(s.rets.rows[r]))
    && (id in s.invoices.rows ==> IsCents(s.invoices.rows[id].amount) && s.invoices.rows[id].amount > 0.0)
    && (if Confirmed(s, id) then Live(s, id) <= s.invoices.rows[id].amount else NoLive(s, id))
  }

  /** Every invoice's books are. */
  ghost predicate PaymentsSound(s: State)
  {
    forall id :: BookSound(s, id)
  }

  /** The three figures the guard compares are hundredths. */
  ghost predicate InCents(s: State, id: string)
  {
    && id in s.invoices.rows && IsCents(s.invoices.rows[id].amount)
    && IsCents(Live(s, id)) && IsCents(Credits(s, id))
  }

  lemma BookInCents(s: State, id: string)
    requires BookSound(s, id) && id in s.invoices.rows && id != ""
    ensures InCents(s, id) && Live(s, id) >= 0.0 && Credits(s, id) >= 0.0
  {
    ZeroIsCents();
    TallyIsCents(s.collects, CollectionKeys, ByRef(id), LiveAmount);
    TallyNonNegative(s.collects, CollectionKeys, ByRef(id), LiveAmount);
    TallyIsCents(s.rets, ReturnKeys, ByRef(id), CreditedAmount);
    TallyNonNegative(s.rets, ReturnKeys, ByRef(id), CreditedAmount);
  }

  lemma MaxIsCents(a: real)
    requires IsCents(a)
    ensures IsCents(Max(0.0, a)) && Round2(Max(0.0, a)) == Max(0.0, a)
  {
    ZeroIsCents();
    RoundFixesCents(Max(0.0, a));
  }

  lemma OwedInCents(s: State, id: string)
    requires InCents(s, id)
    ensures IsCents(Owed(s, id)) && Round2(Owed(s, id)) == Owed(s, id)
  {
    var amount := s.invoices.rows[id].amount;
    CentsAdd(amount, Live(s, id));
    CentsAdd(amount - Live(s, id), Credits(s, id));
    MaxIsCents(amount - Live(s, id) - Credits(s, id));
  }

  /** On figures in hundredths the cached outstanding is exact: no rounding is left. */
  lemma OutstandingExact(s: State, id: string)
    requires WellFormed(s) && Coherent(s) && InvoiceListsFit(s, id) && InCents(s, id) && Confirmed(s, id)
    ensures s.invoices.rows[id].outstanding == Owed(s, id)
  {
    CachedIsDerived(s, id);
    DerivedExact(s, s.invoices.rows[id]);
  }

  lemma DerivedExact(s: State, inv: Invoice)
    requires InvoiceListsFit(s, inv.id) && InCents(s, inv.id) && inv == s.invoices.rows[inv.id]
    requires IsConfirmedInvoice(inv.status)
    ensures InvoiceOutstanding(s, inv) == Owed(s, inv.id)
  {
    OutstandingMeans(s, inv);
    OwedInCents(s, inv.id);
  }

  lemma CachedIsDerived(s: State, id: string)
    requires WellFormed(s) && Coherent(s) && id in s.invoices.rows
    ensures s.invoices.rows[id].id == id
    ensures s.invoices.rows[id].outstanding == InvoiceOutstanding(s, s.invoices.rows[id])
  {
    assert InvoiceId(s.invoices.rows[id]) == id;
    assert InvoiceCoherent(s, id);
  }

  /** The invoice's amount and confirmation, and all payments and returns, are as they were. */
  ghost predicate SameBook(s: State, t: State, id: string)
  {
    && t.collects == s.collects && t.rets == s.rets && (id in t.invoices.rows <==> id in s.invoices.rows)
    && (id in s.invoices.rows ==>
          && t.invoices.rows[id].amount == s.invoices.rows[id].amount
          && IsConfirmedInvoice(t.invoices.rows[id].status) == IsConfirmedInvoice(s.invoices.rows[id].status))
  }

  lemma SameBookSound(s: State, t: State, id: string)
    requires BookSound(s, id) && SameBook(s, t, id)
    ensures BookSound(t, id)
  {
  }

  lemma SameOwed(s: State, t: State, id: string)
    requires SameBook(s, t, id)
    ensures id in s.invoices.rows ==> Owed(t, id) == Owed(s, id)
    ensures Live(t, id) == Live(s, id) && Credits(t, id) == Credits(s, id)
  {
  }

  lemma RefreshSame(s: State, x: string, id: string)
    requires WellFormed(s)
    ensures WellFormed(RefreshInvoice(s, x)) && SameBook(s, RefreshInvoice(s, x), id)
  {
    RefreshInvoiceFrame(s, x);
    RefreshInvoiceWellFormed(s, x);
  }

  lemma RefreshBook(s: State, x: string, id: string)
    requires WellFormed(s) && BookSound(s, id)
    ensures WellFormed(RefreshInvoice(s, x)) && BookSound(RefreshInvoice(s, x), id)
  {
    RefreshSame(s, x, id);
    SameBookSound(s, RefreshInvoice(s, x), id);
  }

  // ---- the payment guard -------------------------------------------------------

  /** The part of the asked-for amount that the stored collection already took. */
  function OwnShare(existing: Option<Collection>, invoiceId: string): real
  {
    if existing.Some? && existing.value.status != Void && existing.value.invoiceId == invoiceId
    then existing.value.amount else 0.0
  }

  /** Between amounts in cents the 0.009 of the guard allows nothing extra. */
  lemma ToleranceIsIdle(free: real, asked: real)
    requires IsCents(free) && IsCents(asked) && asked <= free + 0.009
    ensures asked <= free && Round2(free - asked) == free - asked
  {
    CentsAdd(free, asked);
    CentsGap(free - asked);
    RoundFixesCents(free - asked);
  }

  /** What the guard compares: the asked amount with what the cached outstanding leaves. */
  ghost predicate PassedGuard(s: State, invoiceId: string, own: real, asked: real, remaining: real)
  {
    && invoiceId in s.invoices.rows
    && asked <= s.invoices.rows[invoiceId].outstanding + own + 0.009
    && remaining == Round2(s.invoices.rows[invoiceId].outstanding + own - asked)
  }

  lemma AcceptedShape(s: State, c: Collection, existing: Option<Collection>, d: Collection)
    requires WellFormed(s) && ValidateCollection(s, c, existing) == Success(d)
    ensures c.invoiceId != "" && Confirmed(s, c.invoiceId)
    ensures d.amount == c.amount > 0.0 && d.invoiceId == c.invoiceId
    ensures d.status == if c.status == Blank then Collected else c.status
    ensures d.status != Void ==>
      PassedGuard(s, c.invoiceId, OwnShare(existing, c.invoiceId), d.amount, d.remainingOnInvoice)
  {
  }

  /** A live collection that passed fits in what is left of its invoice, whatever the
      books of other invoices are like. */
  lemma AcceptedFits(s: State, id: string, own: real, asked: real, remaining: real)
    requires WellFormed(s) && Coherent(s) && InvoiceListsFit(s, id) && InCents(s, id) && Confirmed(s, id)
    requires IsCents(asked) && IsCents(own) && PassedGuard(s, id, own, asked, remaining)
    ensures asked <= Owed(s, id) + own && remaining == Owed(s, id) + own - asked
  {
    OutstandingExact(s, id);
    OwedInCents(s, id);
    GuardFits(s, id, own, asked, remaining);
  }

  lemma GuardFits(s: State, id: string, own: real, asked: real, remaining: real)
    requires PassedGuard(s, id, own, asked, remaining)
    requires IsCents(s.invoices.rows[id].outstanding) && IsCents(own) && IsCents(asked)
    ensures asked <= s.invoices.rows[id].outstanding + own
    ensures remaining == s.invoices.rows[id].outstanding + own - asked
  {
    PaidOutOf(s.invoices.rows[id].outstanding, own, asked, remaining);
  }

  lemma PaidOutOf(owed: real, own: real, asked: real, remaining: real)
    requires IsCents(owed) && IsCents(own) && IsCents(asked) && asked <= owed + own + 0.009
    requires remaining == Round2(owed + own - asked)
    ensures asked <= owed + own && remaining == owed + own - asked
  {
    CentsAdd(owed, own);
    ToleranceIsIdle(owed + own, asked);
  }

  /** Paying into what is left: the new total is within the amount, or where it was. */
  lemma LeftAfterPaying(amount: real, live: real, credits: real, own: real, paid: real)
    requires paid > 0.0 && (own == 0.0 || own == paid) && paid <= Max(0.0, amount - live - credits) + own
    ensures Max(0.0, amount - live - credits) + own - paid == Max(0.0, amount - (live - own + paid) - credits)
    ensures live - own + paid + credits <= Max(amount, live + credits)
    ensures own == 0.0 ==> live + paid + credits <= amount
  {
  }

  // ---- new collections -------------------------------------------------------------

  lemma ShareOfCollection(c: Collection, invoiceId: string)
    requires invoiceId != ""
    ensures Share(c, CollectionKeys, ByRef(invoiceId), LiveAmount)
         == if c.invoiceId == invoiceId && c.status != Void then c.amount else 0.0
  {
  }

  lemma InsertCollectionLive(s: State, row: Collection, invoiceId: string)
    requires WellFormed(s) && row.id == MintId("COL", s.collects.counter + 1) && invoiceId != ""
    ensures Live(WithCollection(s, row), invoiceId)
         == Live(s, invoiceId) + OwnShare(Some(row), invoiceId)
  {
    CreateValid(s.collects, CollectionId, "COL", row);
    TallyInsert(Minted(s.collects), row.id, row, CollectionKeys, ByRef(invoiceId), LiveAmount);
    ShareOfCollection(row, invoiceId);
  }

  lemma CreatedRow(s: State, c: Collection, row: Collection)
    requires CreateCollection(s, c).1 == Success(row)
    ensures ValidateCollection(s, c, None) == Success(row.(id := c.id))
    ensures row.id == MintId("COL", s.collects.counter + 1) && row.invoiceId == c.invoiceId
    ensures CreateCollection(s, c).0 == RefreshInvoice(WithCollection(s, row), c.invoiceId)
  {
  }

  lemma CreditsReadReturns(s: State, t: State, id: string)
    requires t.rets == s.rets
    ensures Credits(t, id) == Credits(s, id)
  {
  }

  /** The collection call is about this one invoice, and its figures are hundredths. */
  ghost predicate Collects(s: State, c: Collection, row: Collection)
  {
    && WellFormed(s) && Coherent(s) && InvoiceListsFit(s, c.invoiceId) && InCents(s, c.invoiceId) && IsCents(c.amount)
    && CreateCollection(s, c).1 == Success(row) && row.status != Void
  }

  lemma CollectedBook(s: State, c: Collection, row: Collection)
    requires Collects(s, c, row)
    ensures var t, id := WithCollection(s, row), c.invoiceId;
      && WellFormed(t) && InCents(t, id) && Confirmed(t, id)
      && Live(t, id) + Credits(t, id) <= t.invoices.rows[id].amount
      && row.remainingOnInvoice == Owed(t, id)
  {
    CollectedFits(s, c, row);
    CollectedTotals(s, c, row);
    PaidInto(s, WithCollection(s, row), c.invoiceId, c.amount, 0.0);
    CentsAdd(Live(s, c.invoiceId), c.amount);
  }

  /** `t` has `paid` in the place of `own` on the invoice, out of what was left there. */
  lemma PaidInto(s: State, t: State, id: string, paid: real, own: real)
    requires id in s.invoices.rows && t.invoices == s.invoices && Credits(t, id) == Credits(s, id)
    requires Live(t, id) == Live(s, id) - own + paid && paid > 0.0 && (own == 0.0 || own == paid)
    requires paid <= Owed(s, id) + own
    ensures Owed(t, id) == Owed(s, id) + own - paid
    ensures Live(t, id) + Credits(t, id) <= Max(s.invoices.rows[id].amount, Live(s, id) + Credits(s, id))
    ensures own == 0.0 ==> Live(t, id) + Credits(t, id) <= s.invoices.rows[id].amount
  {
    LeftAfterPaying(s.invoices.rows[id].amount, Live(s, id), Credits(s, id), own, paid);
  }

  lemma CollectedFits(s: State, c: Collection, row: Collection)
    requires Collects(s, c, row)
    ensures Confirmed(s, c.invoiceId) && c.invoiceId != "" && row.invoiceId == c.invoiceId
    ensures row.amount == c.amount > 0.0
    ensures c.amount <= Owed(s, c.invoiceId) && row.remainingOnInvoice == Owed(s, c.invoiceId) - c.amount
  {
    CollectedPassed(s, c, row);
    ZeroIsCents();
    AcceptedFits(s, c.invoiceId, 0.0, row.amount, row.remainingOnInvoice);
  }

  lemma CollectedPassed(s: State, c: Collection, row: Collection)
    requires WellFormed(s) && CreateCollection(s, c).1 == Success(row) && row.status != Void
    ensures Confirmed(s, c.invoiceId) && c.invoiceId != "" && row.invoiceId == c.invoiceId
    ensures row.amount == c.amount > 0.0 && PassedGuard(s, c.invoiceId, 0.0, row.amount, row.remainingOnInvoice)
  {
    CreatedRow(s, c, row);
    AcceptedShape(s, c, None, row.(id := c.id));
  }

  lemma CollectedTotals(s: State, c: Collection, row: Collection)
    requires Collects(s, c, row)
    ensures var t, id := WithCollection(s, row), c.invoiceId;
      && WellFormed(t) && t.invoices == s.invoices
      && Live(t, id) == Live(s, id) + c.amount && Credits(t, id) == Credits(s, id)
  {
    CollectedFits(s, c, row);
    CreatedRow(s, c, row);
    InsertedTotals(s, row);
  }

  lemma InsertedTotals(s: State, row: Collection)
    requires WellFormed(s) && row.id == MintId("COL", s.collects.counter + 1)
    requires row.invoiceId != "" && row.status != Void
    ensures var t, id := WithCollection(s, row), row.invoiceId;
      && WellFormed(t) && t.invoices == s.invoices
      && Live(t, id) == Live(s, id) + row.amount && Credits(t, id) == Credits(s, id)
  {
    InsertCollectionLive(s, row, row.invoiceId);
    CreditsReadReturns(s, WithCollection(s, row), row.invoiceId);
    CreateValid(s.collects, CollectionId, "COL", row);
  }

  /** From coherent caches, an accepted live collection leaves collections plus credited
      returns within the amount, and what it says is still owed is what the invoice
      then says. Nothing is asked of any other invoice. */
  lemma CreateCollectionSound(s: State, c: Collection, row: Collection)
    requires Collects(s, c, row)
    ensures var s' := CreateCollection(s, c).0;
      && c.invoiceId in s'.invoices.rows
      && Live(s', c.invoiceId) + Credits(s', c.invoiceId) <= s'.invoices.rows[c.invoiceId].amount
      && row.remainingOnInvoice == Owed(s', c.invoiceId)
      && (InvoiceListsFit(s', c.invoiceId) ==> row.remainingOnInvoice == s'.invoices.rows[c.invoiceId].outstanding)
  {
    CreatedRow(s, c, row);
    CollectedBook(s, c, row);
    CreateCollectionCoherent(s, c);
    RefreshShowsOwed(WithCollection(s, row), c.invoiceId, c.invoiceId);
  }

  /** What a refresh leaves to read off an invoice. */
  lemma RefreshShowsOwed(t: State, x: string, id: string)
    requires WellFormed(t) && InCents(t, id) && Confirmed(t, id) && Coherent(RefreshInvoice(t, x))
    ensures var s' := RefreshInvoice(t, x);
      && WellFormed(s') && SameBook(t, s', id) && InCents(s', id) && Confirmed(s', id) && Owed(s', id) == Owed(t, id)
      && Live(s', id) == Live(t, id) && Credits(s', id) == Credits(t, id)
      && (InvoiceListsFit(s', id) ==> s'.invoices.rows[id].outstanding == Owed(t, id))
  {
    RefreshSame(t, x, id);
    SameOwed(t, RefreshInvoice(t, x), id);
    if InvoiceListsFit(RefreshInvoice(t, x), id) {
      OutstandingExact(RefreshInvoice(t, x), id);
    }
  }

  // ---- edited collections ------------------------------------------------------------

  lemma UpdateCollectionLive(s: State, row: Collection, invoiceId: string)
    requires WellFormed(s) && row.id in s.collects.rows && invoiceId != ""
    ensures Live(Recollected(s, row), invoiceId)
         == Live(s, invoiceId) - OwnShare(Some(s.collects.rows[row.id]), invoiceId) + OwnShare(Some(row), invoiceId)
  {
    TallyUpdate(s.collects, row.id, row, CollectionKeys, ByRef(invoiceId), LiveAmount);
    ShareOfCollection(row, invoiceId);
    ShareOfCollection(s.collects.rows[row.id], invoiceId);
  }

  function Recollected(s: State, row: Collection): State
  {
    s.(collects := Updated(s.collects, row.id, row))
  }

  lemma UpdatedRow(s: State, id: string, c: Collection, row: Collection)
    requires WellFormed(s) && UpdateCollection(s, id, c).1 == Success(row)
    ensures id in s.collects.rows && row.id == id
    ensures var cur := s.collects.rows[id];
      var asked := DefaultedCollection(c, cur);
      && ValidateCollection(s, asked, Some(cur)) == Success(row.(id := c.id)) && row.invoiceId == asked.invoiceId
      && (cur.status != Void && c.amount > 0.0 ==> Round2(c.amount) == Round2(cur.amount))
      && UpdateCollection(s, id, c).0 == RefreshBoth(Recollected(s, row), row.invoiceId, cur.invoiceId)
  {
    assert CollectionId(s.collects.rows[id]) == id;
  }

  /** The edit leaves a live collection on one invoice, and that invoice's figures, the
      amount asked for and what the collection already held there are hundredths. */
  ghost predicate Recollects(s: State, id: string, c: Collection, row: Collection)
  {
    && WellFormed(s) && Coherent(s) && InvoiceListsFit(s, row.invoiceId) && InCents(s, row.invoiceId)
    && UpdateCollection(s, id, c).1 == Success(row) && row.status != Void && id in s.collects.rows
    && IsCents(row.amount) && IsCents(OwnShare(Some(s.collects.rows[id]), row.invoiceId))
  }

  /** A recorded live payment keeps its amount through every accepted update. */
  lemma RecordedAmountKept(s: State, id: string, c: Collection, row: Collection)
    requires Recollects(s, id, c, row)
    ensures row.amount == DefaultedCollection(c, s.collects.rows[id]).amount > 0.0
    ensures var own := OwnShare(Some(s.collects.rows[id]), row.invoiceId); own == 0.0 || own == row.amount
  {
    UpdatedRow(s, id, c, row);
    var cur := s.collects.rows[id];
    AcceptedShape(s, DefaultedCollection(c, cur), Some(cur), row.(id := c.id));
    if cur.status != Void && cur.invoiceId == row.invoiceId {
      RoundFixesCents(cur.amount);
      RoundFixesCents(row.amount);
    }
  }

  lemma RecollectedFits(s: State, id: string, c: Collection, row: Collection)
    requires Recollects(s, id, c, row)
    ensures var left := Owed(s, row.invoiceId) + OwnShare(Some(s.collects.rows[id]), row.invoiceId);
      row.amount <= left && row.remainingOnInvoice == left - row.amount
  {
    RecollectedPassed(s, id, c, row);
    var own := OwnShare(Some(s.collects.rows[id]), row.invoiceId);
    AcceptedFits(s, row.invoiceId, own, row.amount, row.remainingOnInvoice);
  }

  lemma RecollectedPassed(s: State, id: string, c: Collection, row: Collection)
    requires WellFormed(s) && UpdateCollection(s, id, c).1 == Success(row) && row.status != Void
    ensures id in s.collects.rows && Confirmed(s, row.invoiceId)
    ensures var own := OwnShare(Some(s.collects.rows[id]), row.invoiceId);
      PassedGuard(s, row.invoiceId, own, row.amount, row.remainingOnInvoice)
  {
    UpdatedRow(s, id, c, row);
    AcceptedShape(s, DefaultedCollection(c, s.collects.rows[id]), Some(s.collects.rows[id]), row.(id := c.id));
  }

  lemma RecollectedBook(s: State, id: string, c: Collection, row: Collection)
    requires Recollects(s, id, c, row)
    ensures var t, inv := Recollected(s, row), row.invoiceId;
      && InCents(t, inv) && Credits(t, inv) == Credits(s, inv)
      && Live(t, inv) + Credits(t, inv) <= Max(s.invoices.rows[inv].amount, Live(s, inv) + Credits(s, inv))
      && row.remainingOnInvoice == Owed(t, inv)
  {
    var inv, own := row.invoiceId, OwnShare(Some(s.collects.rows[id]), row.invoiceId);
    UpdatedRow(s, id, c, row);
    RecordedAmountKept(s, id, c, row);
    RecollectedFits(s, id, c, row);
    assert inv != "" by {
      AcceptedShape(s, DefaultedCollection(c, s.collects.rows[id]), Some(s.collects.rows[id]), row.(id := c.id));
    }
    UpdateCollectionLive(s, row, inv);
    CreditsReadReturns(s, Recollected(s, row), inv);
    PaidInto(s, Recollected(s, row), inv, row.amount, own);
    CentsAdd(Live(s, inv), own);
    CentsAdd(Live(s, inv) - own, row.amount);
  }

  lemma RecollectedConfirmed(s: State, id: string, c: Collection, row: Collection)
    requires WellFormed(s) && UpdateCollection(s, id, c).1 == Success(row)
    ensures WellFormed(Recollected(s, row)) && Confirmed(Recollected(s, row), row.invoiceId)
  {
    UpdatedRow(s, id, c, row);
    AcceptedShape(s, DefaultedCollection(c, s.collects.rows[id]), Some(s.collects.rows[id]), row.(id := c.id));
    UpdateValid(s.collects, CollectionId, "COL", row);
  }

  lemma RefreshBothSame(t: State, x: string, from: string, id: string)
    requires WellFormed(t)
    ensures WellFormed(RefreshBoth(t, x, from)) && SameBook(t, RefreshBoth(t, x, from), id)
  {
    RefreshSame(t, x, id);
    RefreshSame(RefreshInvoice(t, x), from, id);
  }

  /** The same through edits, voids, un-voids and moves: an accepted edit that leaves the
      collection live leaves collections plus credited returns within the amount, or no
      further beyond it than they were, and reports what the invoice then says is owed. */
  lemma UpdateCollectionSound(s: State, id: string, c: Collection, row: Collection)
    requires Recollects(s, id, c, row)
    ensures var s', inv := UpdateCollection(s, id, c).0, row.invoiceId;
      && inv in s'.invoices.rows && s'.invoices.rows[inv].amount == s.invoices.rows[inv].amount
      && Live(s', inv) + Credits(s', inv) <= Max(s.invoices.rows[inv].amount, Live(s, inv) + Credits(s, inv))
      && row.remainingOnInvoice == Owed(s', inv)
      && (InvoiceListsFit(s', inv) ==> row.remainingOnInvoice == s'.invoices.rows[inv].outstanding)
  {
    UpdatedRow(s, id, c, row);
    RecollectedBook(s, id, c, row);
    RecollectedConfirmed(s, id, c, row);
    UpdateCollectionCoherent(s, id, c);
    RecollectedShows(Recollected(s, row), row.invoiceId, s.collects.rows[id].invoiceId);
  }

  lemma RecollectedShows(t: State, inv: string, from: string)
    requires WellFormed(t) && InCents(t, inv) && Confirmed(t, inv) && Coherent(RefreshBoth(t, inv, from))
    ensures var s' := RefreshBoth(t, inv, from);
      && SameBook(t, s', inv) && Owed(s', inv) == Owed(t, inv)
      && Live(s', inv) == Live(t, inv) && Credits(s', inv) == Credits(t, inv)
      && (InvoiceListsFit(s', inv) ==> s'.invoices.rows[inv].outstanding == Owed(t, inv))
  {
    RefreshBothSame(t, inv, from, inv);
    SameOwed(t, RefreshBoth(t, inv, from), inv);
    if InvoiceListsFit(RefreshBoth(t, inv, from), inv) {
      OutstandingExact(RefreshBoth(t, inv, from), inv);
    }
  }

  // ---- the books through collection calls --------------------------------------------

  /** One collection row is written, and what it adds to the invoice fits. */
  lemma PutCollectionBook(s: State, t: State, row: Collection, id: string)
    requires BookSound(s, id) && t == s.(collects := t.collects)
    requires forall c :: c in t.collects.rows ==>
      t.collects.rows[c] == row || (c in s.collects.rows && t.collects.rows[c] == s.collects.rows[c])
    requires row.invoiceId == id ==> PaymentSound(row) && (row.status != Void ==> Confirmed(s, id))
    requires Confirmed(s, id) ==> Live(t, id) <= s.invoices.rows[id].amount
    ensures BookSound(t, id)
  {
  }

  /** The create is accepted, and in hundredths if it is on the invoice. */
  ghost predicate Creates(s: State, c: Collection, row: Collection, id: string)
  {
    && WellFormed(s) && Coherent(s) && BookSound(s, id) && CreateCollection(s, c).1 == Success(row)
    && (c.invoiceId == id ==> IsCents(c.amount) && InvoiceListsFit(s, id))
  }

  lemma CreateCollectionBook(s: State, c: Collection, id: string)
    requires WellFormed(s) && Coherent(s) && BookSound(s, id)
    requires c.invoiceId == id && CreateCollection(s, c).1.Success? ==> IsCents(c.amount) && InvoiceListsFit(s, id)
    ensures BookSound(CreateCollection(s, c).0, id)
  {
    if CreateCollection(s, c).1.Success? {
      var row := CreateCollection(s, c).1.value;
      CreatedRow(s, c, row);
      CreatedBook(s, c, row, id);
      RefreshBook(WithCollection(s, row), c.invoiceId, id);
    }
  }

  lemma CreatedBook(s: State, c: Collection, row: Collection, id: string)
    requires Creates(s, c, row, id)
    ensures WellFormed(WithCollection(s, row)) && BookSound(WithCollection(s, row), id)
  {
    CreatedPayment(s, c, row);
    CreatedLive(s, c, row, id);
    CreateValid(s.collects, CollectionId, "COL", row);
    PutCollectionBook(s, WithCollection(s, row), row, id);
  }

  lemma CreatedPayment(s: State, c: Collection, row: Collection)
    requires WellFormed(s) && CreateCollection(s, c).1 == Success(row)
    ensures row.id == MintId("COL", s.collects.counter + 1) && row.invoiceId == c.invoiceId != ""
    ensures row.amount == c.amount > 0.0 && Confirmed(s, c.invoiceId)
  {
    CreatedRow(s, c, row);
    AcceptedShape(s, c, None, row.(id := c.id));
  }

  lemma CreatedLive(s: State, c: Collection, row: Collection, id: string)
    requires Creates(s, c, row, id)
    ensures Confirmed(s, id) ==> Live(WithCollection(s, row), id) <= s.invoices.rows[id].amount
  {
    CreatedPayment(s, c, row);
    if Confirmed(s, id) {
      InsertCollectionLive(s, row, id);
      if c.invoiceId == id && row.status != Void {
        CreatedWithin(s, c, row);
      }
    }
  }

  lemma CreatedWithin(s: State, c: Collection, row: Collection)
    requires Creates(s, c, row, c.invoiceId) && row.status != Void && Confirmed(s, c.invoiceId) && c.invoiceId != ""
    ensures Live(s, c.invoiceId) + c.amount <= s.invoices.rows[c.invoiceId].amount
  {
    BookInCents(s, c.invoiceId);
    CollectedFits(s, c, row);
    StaysWithinBook(s, c.invoiceId, 0.0, c.amount);
  }

  /** Paying out of what is left on sound books keeps them within the amount. */
  lemma StaysWithinBook(s: State, id: string, own: real, paid: real)
    requires BookSound(s, id) && Confirmed(s, id) && id != "" && (own == 0.0 || own == paid) && paid > 0.0
    requires paid <= Owed(s, id) + own
    ensures Live(s, id) - own + paid <= s.invoices.rows[id].amount
  {
    BookInCents(s, id);
    StaysWithin(s.invoices.rows[id].amount, Live(s, id), Credits(s, id), own, paid);
  }

  lemma UpdateCollectionBook(s: State, x: string, c: Collection, id: string)
    requires WellFormed(s) && Coherent(s) && BookSound(s, id)
    requires x in s.collects.rows && UpdateCollection(s, x, c).1.Success? ==>
      var asked := DefaultedCollection(c, s.collects.rows[x]);
      asked.invoiceId == id ==> IsCents(asked.amount) && InvoiceListsFit(s, id)
    ensures BookSound(UpdateCollection(s, x, c).0, id)
  {
    if UpdateCollection(s, x, c).1.Success? {
      var row := UpdateCollection(s, x, c).1.value;
      UpdatedRow(s, x, c, row);
      RecollectedRow(s, x, c, row);
      RecollectedConfirmed(s, x, c, row);
      RecollectedBookSound(s, x, c, row, id);
      RefreshBothSame(Recollected(s, row), row.invoiceId, s.collects.rows[x].invoiceId, id);
      SameBookSound(Recollected(s, row), UpdateCollection(s, x, c).0, id);
    }
  }

  /** The edit is accepted, and in hundredths if it leaves the collection on the invoice. */
  ghost predicate Rewrites(s: State, x: string, c: Collection, row: Collection, id: string)
  {
    && WellFormed(s) && Coherent(s) && BookSound(s, id)
    && UpdateCollection(s, x, c).1 == Success(row) && x in s.collects.rows
    && (row.invoiceId == id ==> IsCents(row.amount) && InvoiceListsFit(s, id))
  }

  lemma RecollectedBookSound(s: State, x: string, c: Collection, row: Collection, id: string)
    requires Rewrites(s, x, c, row, id)
    ensures BookSound(Recollected(s, row), id)
  {
    RecollectedRow(s, x, c, row);
    RecollectedLive(s, x, c, row, id);
    RewrittenBook(s, row, id);
  }

  lemma RewrittenBook(s: State, row: Collection, id: string)
    requires BookSound(s, id) && row.amount > 0.0 && Confirmed(s, row.invoiceId)
    requires row.invoiceId == id ==> IsCents(row.amount)
    requires Confirmed(s, id) ==> Live(Recollected(s, row), id) <= s.invoices.rows[id].amount
    ensures BookSound(Recollected(s, row), id)
  {
    PutCollectionBook(s, Recollected(s, row), row, id);
  }

  lemma RecollectedLive(s: State, x: string, c: Collection, row: Collection, id: string)
    requires Rewrites(s, x, c, row, id)
    ensures Confirmed(s, id) ==> Live(Recollected(s, row), id) <= s.invoices.rows[id].amount
  {
    RecollectedRow(s, x, c, row);
    if Confirmed(s, id) {
      UpdateCollectionLive(s, row, id);
      if row.invoiceId == id && row.status != Void {
        RecollectedWithin(s, x, c, row);
      }
    }
  }

  lemma RecollectedRow(s: State, x: string, c: Collection, row: Collection)
    requires WellFormed(s) && UpdateCollection(s, x, c).1 == Success(row) && x in s.collects.rows
    ensures row.id == x && row.amount == DefaultedCollection(c, s.collects.rows[x]).amount > 0.0
    ensures row.invoiceId != "" && Confirmed(s, row.invoiceId)
  {
    UpdatedRow(s, x, c, row);
    AcceptedShape(s, DefaultedCollection(c, s.collects.rows[x]), Some(s.collects.rows[x]), row.(id := c.id));
  }

  lemma RecollectedWithin(s: State, x: string, c: Collection, row: Collection)
    requires WellFormed(s) && Coherent(s) && BookSound(s, row.invoiceId) && Confirmed(s, row.invoiceId)
    requires UpdateCollection(s, x, c).1 == Success(row) && x in s.collects.rows && row.status != Void
    requires IsCents(row.amount) && InvoiceListsFit(s, row.invoiceId) && row.invoiceId != ""
    ensures Live(s, row.invoiceId) - OwnShare(Some(s.collects.rows[x]), row.invoiceId) + row.amount
         <= s.invoices.rows[row.invoiceId].amount
  {
    SoundRecollects(s, x, c, row);
    RecordedAmountKept(s, x, c, row);
    RecollectedFits(s, x, c, row);
    StaysWithinBook(s, row.invoiceId, OwnShare(Some(s.collects.rows[x]), row.invoiceId), row.amount);
  }

  lemma SoundRecollects(s: State, x: string, c: Collection, row: Collection)
    requires WellFormed(s) && Coherent(s) && BookSound(s, row.invoiceId) && Confirmed(s, row.invoiceId)
    requires UpdateCollection(s, x, c).1 == Success(row) && x in s.collects.rows && row.status != Void
    requires IsCents(row.amount) && InvoiceListsFit(s, row.invoiceId) && row.invoiceId != ""
    ensures Recollects(s, x, c, row)
  {
    BookInCents(s, row.invoiceId);
    ZeroIsCents();
  }

  lemma StaysWithin(amount: real, live: real, credits: real, own: real, paid: real)
    requires credits >= 0.0 && live <= amount && (own == 0.0 || own == paid) && paid > 0.0
    requires paid <= Max(0.0, amount - live - credits) + own
    ensures live - own + paid <= amount
  {
  }

  /** Only voided collections are deleted. */
  lemma DeleteCollectionBook(s: State, x: string, id: string)
    requires WellFormed(s) && BookSound(s, id)
    ensures BookSound(DeleteCollection(s, x).0, id)
  {
    if DeleteCollection(s, x).1.Success? {
      var t, cur := s.(collects := Deleted(s.collects, x)), s.collects.rows[x];
      DeleteValid(s.collects, CollectionId, "COL", x);
      if id != "" {
        TallyDelete(s.collects, x, CollectionKeys, ByRef(id), LiveAmount);
        ShareOfCollection(cur, id);
      }
      PutCollectionBook(s, t, cur, id);
      RefreshBook(t, cur.invoiceId, id);
    }
  }

  // ---- the books through return calls ----------------------------------------------------

  lemma ProRataSound(inv: Invoice, quantity: real)
    requires inv.quantity > 0.0 && inv.amount > 0.0 && quantity > 0.0
    ensures ProRata(inv, quantity) >= 0.0 && IsCents(ProRata(inv, quantity))
  {
  }

  /** An accepted return keeps its credit, or takes the invoice's price for what comes back. */
  lemma ValidReturnCredit(s: State, r: OutletReturn, d: OutletReturn)
    requires ValidateReturn(s, r) == Success(d)
    ensures d.invoiceId == r.invoiceId && d.status == if r.status == Blank then Received else r.status
    ensures || d.credit == r.credit
            || (&& r.invoiceId in s.invoices.rows && s.invoices.rows[r.invoiceId].quantity > 0.0 && r.quantity > 0.0
                && d.credit == ProRata(s.invoices.rows[r.invoiceId], r.quantity))
  {
  }

  lemma ValidReturnSound(s: State, r: OutletReturn, d: OutletReturn)
    requires BookSound(s, r.invoiceId) && ReturnSound(r) && ValidateReturn(s, r) == Success(d)
    ensures ReturnSound(d)
  {
    ValidReturnCredit(s, r, d);
    if d.credit != r.credit {
      ProRataSound(s.invoices.rows[r.invoiceId], r.quantity);
    }
  }

  lemma PutReturnBook(s: State, t: State, row: OutletReturn, id: string)
    requires BookSound(s, id) && t == s.(rets := t.rets) && (row.invoiceId == id ==> ReturnSound(row))
    requires forall r :: r in t.rets.rows ==>
      t.rets.rows[r] == row || (r in s.rets.rows && t.rets.rows[r] == s.rets.rows[r])
    ensures BookSound(t, id)
  {
  }

  lemma RefreshNamedBook(s: State, x: string, id: string)
    requires WellFormed(s) && BookSound(s, id)
    ensures WellFormed(RefreshNamed(s, x)) && BookSound(RefreshNamed(s, x), id)
  {
    if x != "" {
      RefreshBook(s, x, id);
    }
  }

  lemma CreateReturnBook(s: State, r: OutletReturn, id: string)
    requires WellFormed(s) && BookSound(s, id)
    requires r.invoiceId == id && CreateReturn(s, r).1.Success? ==> ReturnSound(r)
    ensures BookSound(CreateReturn(s, r).0, id)
  {
    if CreateReturn(s, r).1.Success? {
      var row := CreateReturn(s, r).1.value;
      var d := ValidateReturn(s, r).value;
      ValidReturnCredit(s, r, d);
      if r.invoiceId == id {
        ValidReturnSound(s, r, d);
      }
      var t := s.(rets := Inserted(Minted(s.rets), row.id, row));
      CreateValid(s.rets, ReturnId, "RET", row);
      PutReturnBook(s, t, row, id);
      RefreshNamedBook(t, row.invoiceId, id);
    }
  }

  lemma UpdateReturnBook(s: State, x: string, r: OutletReturn, id: string)
    requires WellFormed(s) && BookSound(s, id)
    requires r.invoiceId == id && UpdateReturn(s, x, r).1.Success? ==> ReturnSound(r)
    ensures BookSound(UpdateReturn(s, x, r).0, id)
  {
    if UpdateReturn(s, x, r).1.Success? {
      var row := UpdateReturn(s, x, r).1.value;
      var d := ValidateReturn(s, r).value;
      assert ReturnId(s.rets.rows[x]) == x;
      ValidReturnCredit(s, r, d);
      if r.invoiceId == id {
        ValidReturnSound(s, r, d);
      }
      var t := s.(rets := Updated(s.rets, x, row));
      UpdateValid(s.rets, ReturnId, "RET", row);
      PutReturnBook(s, t, row, id);
      RefreshNamedBook(t, row.invoiceId, id);
      RefreshNamedBook(RefreshNamed(t, row.invoiceId), s.rets.rows[x].invoiceId, id);
    }
  }

  lemma DeleteReturnBook(s: State, x: string, id: string)
    requires WellFormed(s) && BookSound(s, id)
    ensures BookSound(DeleteReturn(s, x).0, id)
  {
    if DeleteReturn(s, x).1.Success? {
      var t := s.(rets := Deleted(s.rets, x));
      DeleteValid(s.rets, ReturnId, "RET", x);
      PutReturnBook(s, t, s.rets.rows[x], id);
      RefreshNamedBook(t, s.rets.rows[x].invoiceId, id);
    }
  }

  // ---- the books through invoice calls ------------------------------------------------------

  lemma NoLiveNothingPaid(s: State, id: string)
    requires NoLive(s, id) && id != ""
    ensures Live(s, id) == 0.0
  {
    forall c | c in s.collects.rows && Accepts(CollectionKeys(s.collects.rows[c]), ByRef(id))
      ensures LiveAmount(s.collects.rows[c]) == 0.0
    {
    }
    TallyZero(s.collects, CollectionKeys, ByRef(id), LiveAmount);
  }

  /** The form asks for a confirmed invoice; a blank status means invoiced. */
  predicate FormConfirms(i: InvoiceInput)
  {
    IsConfirmedInvoice(if i.doc.status == Blank then Invoiced else i.doc.status)
  }

  /** What the caller must not do: take an invoice with live payments out of the
      confirmed set. The guard of the source stops only the void of an invoice
      whose newest collection is live. */
  ghost predicate KeepsPaidConfirmed(s: State, id: string, i: InvoiceInput)
  {
    FormConfirms(i) || NoLive(s, id)
  }

  lemma ValidAmountIsCents(s: State, i: InvoiceInput, existing: Option<Invoice>)
    requires ValidateInvoice(s, i, existing).Success? && IsCents(i.doc.amount)
    ensures IsCents(ValidateInvoice(s, i, existing).value.amount) && ValidateInvoice(s, i, existing).value.amount > 0.0
    ensures existing.Some? && IsConfirmedInvoice(existing.value.status) ==>
      ValidateInvoice(s, i, existing).value.amount == Round2(existing.value.amount)
  {
    RoundNear(i.doc.quantity * i.doc.unitPrice);
  }

  /** The stored row of another invoice is written. */
  lemma OtherInvoiceBook(s: State, t: State, id: string)
    requires BookSound(s, id) && t.collects == s.collects && t.rets == s.rets
    requires id in t.invoices.rows <==> id in s.invoices.rows
    requires id in s.invoices.rows ==> t.invoices.rows[id] == s.invoices.rows[id]
    ensures BookSound(t, id)
  {
    SameBookSound(s, t, id);
  }

  lemma CreateInvoiceBook(s: State, i: InvoiceInput, id: string)
    requires WellFormed(s) && BookSound(s, id)
    requires var r := CreateInvoice(s, i).1; r.Success? && r.value.id == id ==> IsCents(i.doc.amount)
    ensures BookSound(CreateInvoice(s, i).0, id)
  {
    if ValidateInvoice(s, i, None).Success? {
      var d := ValidateInvoice(s, i, None).value;
      CreatedInvoice(s, i, d);
      ValidInvoiceShape(s, i, None);
      AddInvoiceFrame(s, NewInvoice(s, d));
      CreateValid(s.invoices, InvoiceId, "SINV", NewInvoice(s, d));
      CreatedId(s, i, d);
      if id == NewInvoice(s, d).id {
        ValidAmountIsCents(s, i, None);
        NewInvoiceBook(s, AddInvoice(s, NewInvoice(s, d)), id);
      } else {
        OtherInvoiceBook(s, AddInvoice(s, NewInvoice(s, d)), id);
      }
    }
  }

  lemma CreatedId(s: State, i: InvoiceInput, d: Invoice)
    requires ValidateInvoice(s, i, None) == Success(d)
    ensures CreateInvoice(s, i).1.Success? && CreateInvoice(s, i).1.value.id == NewInvoice(s, d).id
  {
  }

  /** Nothing is paid on an invoice that was not there. */
  lemma NewInvoiceBook(s: State, t: State, id: string)
    requires BookSound(s, id) && id !in s.invoices.rows && id != "" && t.collects == s.collects && t.rets == s.rets
    requires id in t.invoices.rows && IsCents(t.invoices.rows[id].amount) && t.invoices.rows[id].amount > 0.0
    ensures BookSound(t, id)
  {
    NoLiveNothingPaid(t, id);
  }

  /** The invoice's own row is written: a confirmed one keeps its amount. */
  lemma OwnInvoiceBook(s: State, t: State, id: string)
    requires BookSound(s, id) && t.collects == s.collects && t.rets == s.rets && id != ""
    requires id in s.invoices.rows && id in t.invoices.rows
    requires IsCents(t.invoices.rows[id].amount) && t.invoices.rows[id].amount > 0.0
    requires Confirmed(s, id) ==> t.invoices.rows[id].amount == Round2(s.invoices.rows[id].amount)
    ensures BookSound(t, id) <==> Confirmed(t, id) || NoLive(s, id)
  {
    RoundFixesCents(s.invoices.rows[id].amount);
    if NoLive(s, id) {
      NoLiveNothingPaid(t, id);
    }
  }

  lemma UpdatedInvoiceRow(s: State, id: string, i: InvoiceInput)
    requires WellFormed(s) && UpdateInvoice(s, id, i).1.Success?
    ensures id in s.invoices.rows && id != ""
    ensures var t, d := UpdateInvoice(s, id, i).0, ValidateInvoice(s, i, Some(s.invoices.rows[id])).value;
      && t.collects == s.collects && t.rets == s.rets
      && t.invoices == Updated(s.invoices, id, Settled(d.(id := id), InvoiceOutstanding(s, d.(id := id))))
      && t.invoices.rows[id].amount == d.amount
      && (Confirmed(t, id) <==> FormConfirms(i))
  {
    var cur := s.invoices.rows[id];
    assert InvoiceId(cur) == id;
    ValidInvoiceShape(s, i, Some(cur));
    var row := ValidateInvoice(s, i, Some(cur)).value.(id := id);
    ReplaceInvoiceFrame(s, cur, row);
  }

  /** An accepted update keeps the invoice's books exactly when it does not take an
      invoice with live collections out of the confirmed set, and keeps all others. */
  lemma UpdateInvoiceSoundIff(s: State, id: string, i: InvoiceInput)
    requires WellFormed(s) && BookSound(s, id) && IsCents(i.doc.amount)
    requires UpdateInvoice(s, id, i).1.Success?
    ensures BookSound(UpdateInvoice(s, id, i).0, id) <==> KeepsPaidConfirmed(s, id, i)
    ensures forall x :: x != id && BookSound(s, x) ==> BookSound(UpdateInvoice(s, id, i).0, x)
  {
    UpdatedInvoiceRow(s, id, i);
    ValidAmountIsCents(s, i, Some(s.invoices.rows[id]));
    OwnInvoiceBook(s, UpdateInvoice(s, id, i).0, id);
    forall x | x != id && BookSound(s, x) ensures BookSound(UpdateInvoice(s, id, i).0, x) {
      UpdateOtherBook(s, id, i, x);
    }
  }

  lemma UpdateOtherBook(s: State, id: string, i: InvoiceInput, x: string)
    requires WellFormed(s) && BookSound(s, x) && x != id && UpdateInvoice(s, id, i).1.Success?
    ensures BookSound(UpdateInvoice(s, id, i).0, x)
  {
    UpdatedInvoiceRow(s, id, i);
    OtherInvoiceBook(s, UpdateInvoice(s, id, i).0, x);
  }

  lemma UpdateInvoiceBook(s: State, x: string, i: InvoiceInput, id: string)
    requires WellFormed(s) && BookSound(s, id)
    requires x == id && UpdateInvoice(s, x, i).1.Success? ==> IsCents(i.doc.amount) && KeepsPaidConfirmed(s, id, i)
    ensures BookSound(UpdateInvoice(s, x, i).0, id)
  {
    if UpdateInvoice(s, x, i).1.Success? {
      if x == id {
        UpdateInvoiceSoundIff(s, id, i);
      } else {
        UpdateOtherBook(s, x, i, id);
      }
    }
  }

  /** Only unconfirmed invoices are deleted. */
  lemma DeleteInvoiceBook(s: State, x: string, id: string)
    requires WellFormed(s) && BookSound(s, id)
    ensures BookSound(DeleteInvoice(s, x).0, id)
  {
    if DeleteInvoice(s, x).1.Success? {
      RefreshOutletFrame(s.(invoices := Deleted(s.invoices, x)), s.invoices.rows[x].outletId);
      if x != id {
        OtherInvoiceBook(s, DeleteInvoice(s, x).0, id);
      }
    }
  }

  // ---- runs ------------------------------------------------------------------------

  /** What an accepted call on the invoice must meet: figures in cents, credits not
      negative, at most 5000 collections and returns to sum, a paid invoice left
      confirmed. Refused calls and calls on other invoices are free. */
  ghost predicate BookOrderly(s: State, op: Op, id: string)
  {
    match op
    case OpCreateInvoice(i) =>
      CreateInvoice(s, i).1.Success? && CreateInvoice(s, i).1.value.id == id ==> IsCents(i.doc.amount)
    case OpUpdateInvoice(x, i) =>
      x == id && UpdateInvoice(s, x, i).1.Success? ==> IsCents(i.doc.amount) && KeepsPaidConfirmed(s, id, i)
    case OpCreateCollection(c) =>
      c.invoiceId == id && CreateCollection(s, c).1.Success? ==> IsCents(c.amount) && InvoiceListsFit(s, id)
    case OpUpdateCollection(x, c) =>
      x in s.collects.rows && UpdateCollection(s, x, c).1.Success? ==>
        var asked := DefaultedCollection(c, s.collects.rows[x]);
        asked.invoiceId == id ==> IsCents(asked.amount) && InvoiceListsFit(s, id)
    case OpCreateReturn(r) => r.invoiceId == id && CreateReturn(s, r).1.Success? ==> ReturnSound(r)
    case OpUpdateReturn(x, r) => r.invoiceId == id && UpdateReturn(s, x, r).1.Success? ==> ReturnSound(r)
    case _ => true
  }

  ghost predicate BookOrderlyRun(s: State, ops: seq<Op>, id: string)
    decreases |ops|
  {
    ops == [] || (BookOrderly(s, ops[0], id) && BookOrderlyRun(Step(s, ops[0]), ops[1..], id))
  }

  ghost predicate OrderlyRun(s: State, ops: seq<Op>)
  {
    forall id :: BookOrderlyRun(s, ops, id)
  }

  lemma OtherCallsBooks(s: State, op: Op)
    requires !OnBooks(op)
    ensures Step(s, op).collects == s.collects && Step(s, op).rets == s.rets && Step(s, op).invoices == s.invoices
  {
    if op.OpCreateOutlet? || op.OpPatchOutlet? || op.OpDeleteOutlet? {
      OutletCallsBooks(s, op);
    }
  }

  lemma OutletCallsBooks(s: State, op: Op)
    requires op.OpCreateOutlet? || op.OpPatchOutlet? || op.OpDeleteOutlet?
    ensures Step(s, op).collects == s.collects && Step(s, op).rets == s.rets && Step(s, op).invoices == s.invoices
  {
  }

  lemma InvoiceStepBook(s: State, op: Op, id: string)
    requires WellFormed(s) && BookSound(s, id) && BookOrderly(s, op, id)
    requires op.OpCreateInvoice? || op.OpUpdateInvoice? || op.OpDeleteInvoice?
    ensures BookSound(Step(s, op), id)
  {
    match op
    case OpCreateInvoice(i) => CreateInvoiceBook(s, i, id);
    case OpUpdateInvoice(x, i) => UpdateInvoiceBook(s, x, i, id);
    case OpDeleteInvoice(x) => DeleteInvoiceBook(s, x, id);
  }

  lemma CollectionStepBook(s: State, op: Op, id: string)
    requires WellFormed(s) && Coherent(s) && BookSound(s, id) && BookOrderly(s, op, id)
    requires op.OpCreateCollection? || op.OpUpdateCollection? || op.OpDeleteCollection?
    ensures BookSound(Step(s, op), id)
  {
    match op
    case OpCreateCollection(c) => CreateCollectionBook(s, c, id);
    case OpUpdateCollection(x, c) => UpdateCollectionBook(s, x, c, id);
    case OpDeleteCollection(x) => DeleteCollectionBook(s, x, id);
  }

  lemma StepBook(s: State, op: Op, id: string)
    requires WellFormed(s) && Coherent(s) && BookSound(s, id) && BookOrderly(s, op, id)
    ensures BookSound(Step(s, op), id)
  {
    match op
    case OpCreateInvoice(_) => InvoiceStepBook(s, op, id);
    case OpUpdateInvoice(_, _) => InvoiceStepBook(s, op, id);
    case OpDeleteInvoice(_) => InvoiceStepBook(s, op, id);
    case OpCreateCollection(_) => CollectionStepBook(s, op, id);
    case OpUpdateCollection(_, _) => CollectionStepBook(s, op, id);
    case OpDeleteCollection(_) => CollectionStepBook(s, op, id);
    case OpCreateReturn(r) => CreateReturnBook(s, r, id);
    case OpUpdateReturn(x, r) => UpdateReturnBook(s, x, r, id);
    case OpDeleteReturn(x) => DeleteReturnBook(s, x, id);
    case _ => OtherCallsBooks(s, op); OtherInvoiceBook(s, Step(s, op), id);
  }

  /** Over every run whose accepted calls on one invoice are orderly, whatever happens to
      the others, its live collections stay within its amount and stand on it only
      while it is confirmed. */
  lemma {:induction false} NeverOverCollectedOn(s: State, ops: seq<Op>, id: string)
    requires WellFormed(s) && Coherent(s) && BookSound(s, id) && BookOrderlyRun(s, ops, id)
    ensures BookSound(Run(s, ops), id)
    decreases |ops|
  {
    if ops != [] {
      StepBook(s, ops[0], id);
      StepCoherent(s, ops[0]);
      NeverOverCollectedOn(Step(s, ops[0]), ops[1..], id);
    }
  }

  /** So over every orderly run, all of them do. */
  lemma NeverOverCollected(s: State, ops: seq<Op>)
    requires WellFormed(s) && Coherent(s) && PaymentsSound(s) && OrderlyRun(s, ops)
    ensures PaymentsSound(Run(s, ops))
  {
    forall id ensures BookSound(Run(s, ops), id) {
      NeverOverCollectedOn(s, ops, id);
    }
  }

  // ---- where the guarantee ends ------------------------------------------------------

  /** Voiding an invoice keeps the books exactly when the guard sees a collection, and
      refuses, or there is none to see: it fails on older payments behind a voided one. */
  lemma VoidGuardExact(s: State, id: string, i: InvoiceInput)
    requires WellFormed(s) && BookSound(s, id) && IsCents(i.doc.amount) && i.doc.status == Void
    requires id in s.invoices.rows && ValidateInvoice(s, i, Some(s.invoices.rows[id])).Success?
    ensures BookSound(UpdateInvoice(s, id, i).0, id) <==> HasCollections(s, id) || NoLive(s, id)
  {
    ValidInvoiceShape(s, i, Some(s.invoices.rows[id]));
    if !HasCollections(s, id) {
      UpdateInvoiceSoundIff(s, id, i);
    }
  }

  /** Below one cent the tolerance of the guard is all there is: any confirmed
      invoice, settled or not, takes a collection of up to 0.009, any number of times. */
  lemma CrumbsAlwaysAccepted(s: State, c: Collection)
    requires WellFormed(s) && Coherent(s)
    requires c.invoiceId in s.invoices.rows && IsConfirmedInvoice(s.invoices.rows[c.invoiceId].status)
    requires 0.0 < c.amount <= 0.009
    ensures CreateCollection(s, c).1.Success?
  {
    assert InvoiceCoherent(s, c.invoiceId);
    OutstandingIsCents(s, s.invoices.rows[c.invoiceId]);
  }

  /** Whatever the figures, one accepted collection oversteps by at most 0.014:
      half a cent of rounding and the tolerance. */
  lemma OvershootBounded(s: State, c: Collection)
    requires WellFormed(s) && Coherent(s) && InvoiceListsFit(s, c.invoiceId)
    requires CreateCollection(s, c).1.Success? && c.status != Void
    ensures c.invoiceId in s.invoices.rows
    ensures var paid := Live(s, c.invoiceId) + Credits(s, c.invoiceId);
      paid + c.amount <= Max(s.invoices.rows[c.invoiceId].amount, paid) + 0.014
  {
    var row := CreateCollection(s, c).1.value;
    CreatedRow(s, c, row);
    AcceptedShape(s, c, None, row.(id := c.id));
    var inv := s.invoices.rows[c.invoiceId];
    assert InvoiceId(inv) == c.invoiceId;
    assert InvoiceCoherent(s, c.invoiceId);
    OutstandingMeans(s, inv);
    RoundNear(Max(0.0, inv.amount - Live(s, inv.id) - Credits(s, inv.id)));
  }
}
