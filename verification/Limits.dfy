/** Where the guarantees end: runs from the empty store in which one fails. */
module Limits {
  import opened Coherence
  import opened Credit
  import opened Healing
  import opened Ids
  import opened Ledger
  import opened Money
  import opened Payments
  import opened Reachable
  import opened Schemes
  import opened Stock
  import opened TableLemmas
  import opened Tables
  import opened Wrappers

  // ---- the shop the runs take place in -------------------------------------------

  const SHOP := Outlet("A", "", "", 0.0, "", "", "", false, 0.0)
  const CREDIT_SHOP := Outlet("B", "", "", 100.0, "", "", "", true, 0.0)
  const EMPTY := Fresh([SHOP, CREDIT_SHOP], {}, {})

  lemma ShortIdsAreNeverMinted(prefix: string, counter: nat, id: string)
    requires |id| <= |prefix|
    ensures NotYetMinted(prefix, counter, id)
  {
    forall k: nat | k > counter ensures MintId(prefix, k) != id {
      assert |MintId(prefix, k)| > |prefix|;
    }
  }

  lemma EmptyIsIdle()
    ensures Idle(EMPTY)
  {
    EmptyIsClean();
  }

  lemma EmptyIsClean()
    ensures CleanFixture([SHOP, CREDIT_SHOP])
    ensures WellFormed(EMPTY) && Coherent(EMPTY)
    ensures FindOutlet(EMPTY.outlets, "A") == Some(SHOP) && FindOutlet(EMPTY.outlets, "B") == Some(CREDIT_SHOP)
  {
    ShortIdsAreNeverMinted("OUT", 2849, "A");
    ShortIdsAreNeverMinted("OUT", 2849, "B");
    FreshCoherent([SHOP, CREDIT_SHOP], {}, {});
    assert [SHOP, CREDIT_SHOP][1..] == [CREDIT_SHOP];
  }

  lemma OutletsStay(s: State, t: State, id: string)
    requires SameBut(s, t) && FindOutlet(s.outlets, id).Some?
    ensures FindOutlet(t.outlets, id).Some?
  {
    var o := FindOutlet(s.outlets, id).value;
    var i :| 0 <= i < |s.outlets| && s.outlets[i] == o;
    assert t.outlets[i].(outstanding := 0.0) == s.outlets[i].(outstanding := 0.0);
    assert t.outlets[i] in t.outlets && t.outlets[i].id == id;
  }

  // ---- invoices no guard has anything against -----------------------------------------

  function CashInvoice(outletId: string, amount: real, status: Status): Invoice
  {
    Invoice("", outletId, "", 0.0, 0.0, amount, "cash", "", 0.0, false, "", "", 0.0, status)
  }

  function Typed(d: Invoice): InvoiceInput
  {
    InvoiceInput(d, "", false)
  }

  lemma CashInvoiceValid(s: State, d: Invoice, existing: Option<Invoice>)
    requires d == CashInvoice(d.outletId, d.amount, d.status)
    requires d.outletId != "" && FindOutlet(s.outlets, d.outletId).Some? && d.amount > 0.0 && d.status != Blank
    requires existing.Some? && IsConfirmedInvoice(existing.value.status) ==> Round2(existing.value.amount) == d.amount
    ensures ValidateInvoice(s, Typed(d), existing) == Success(d)
  {
    assert PricedInvoice(s, d, existing) == Success(d);
    assert IsCashTerms(d.terms);
  }

  // ---- one invoice and its collections ---------------------------------------------------

  /** The invoice is there with these terms. */
  ghost predicate HasTerms(s: State, id: string, amount: real, outletId: string, confirmed: bool)
  {
    && id in s.invoices.rows && s.invoices.rows[id].amount == amount && s.invoices.rows[id].outletId == outletId
    && IsConfirmedInvoice(s.invoices.rows[id].status) == confirmed
  }

  /** What the books say of one invoice, and that the service's lists have room. */
  ghost predicate Entry(s: State, id: string, amount: real, live: real, confirmed: bool, room: nat)
  {
    && FindOutlet(s.outlets, "A").Some? && |s.collects.order| + room <= LIST_LIMIT && s.rets.order == []
    && HasTerms(s, id, amount, "A", confirmed) && Live(s, id) == live
  }

  /** The invoice `id` of that amount, collected by `live`, with nothing sent back, and
      room for `room` more collections in what the service lists. */
  ghost predicate Book(s: State, id: string, amount: real, live: real, confirmed: bool, room: nat)
  {
    WellFormed(s) && Coherent(s) && Entry(s, id, amount, live, confirmed, room)
  }

  /** A store with no collections or returns yet. */
  ghost predicate Idle(s: State)
  {
    WellFormed(s) && Coherent(s) && FindOutlet(s.outlets, "A").Some? && s.collects.order == [] && s.rets.order == []
  }

  function NextInvoice(s: State): string
  {
    MintId("SINV", s.invoices.counter + 1)
  }

  function Invoicing(amount: real): Op
  {
    OpCreateInvoice(Typed(CashInvoice("A", amount, Invoiced)))
  }

  function Editing(id: string, amount: real, status: Status): Op
  {
    OpUpdateInvoice(id, Typed(CashInvoice("A", amount, status)))
  }

  function Paying(id: string, amount: real, status: Status): Op
  {
    OpCreateCollection(Payment(id, amount, status))
  }

  lemma InvoiceStored(s: State, d: Invoice)
    requires d == CashInvoice(d.outletId, d.amount, Invoiced) && d.outletId != "" && d.amount > 0.0
    requires FindOutlet(s.outlets, d.outletId).Some?
    ensures Step(s, OpCreateInvoice(Typed(d))) == AddInvoice(s, NewInvoice(s, d))
  {
    CashInvoiceValid(s, d, None);
    CreatedInvoice(s, Typed(d), d);
  }

  lemma AddedTerms(s: State, row: Invoice)
    requires Valid(s.schemes, SchemeId, "SCH")
    ensures SameBut(s, AddInvoice(s, row))
    ensures HasTerms(AddInvoice(s, row), row.id, row.amount, row.outletId, IsConfirmedInvoice(row.status))
  {
    AddInvoiceFrame(s, row);
    SettledTwice(row, InvoiceOutstanding(s, row));
  }

  lemma BookOpens(s: State, amount: real)
    requires Idle(s) && amount > 0.0
    ensures Book(Step(s, Invoicing(amount)), NextInvoice(s), amount, 0.0, true, LIST_LIMIT)
  {
    var d := CashInvoice("A", amount, Invoiced);
    InvoiceStored(s, d);
    StepCoherent(s, Invoicing(amount));
    AddedTerms(s, NewInvoice(s, d));
    OpenedBook(s, AddInvoice(s, NewInvoice(s, d)), NextInvoice(s), amount);
  }

  lemma OpenedBook(s: State, t: State, id: string, amount: real)
    requires Idle(s) && WellFormed(t) && Coherent(t) && SameBut(s, t) && HasTerms(t, id, amount, "A", true)
    ensures Book(t, id, amount, 0.0, true, LIST_LIMIT)
  {
    OutletsStay(s, t, "A");
  }

  /** What a confirmed invoice of a book still owes. */
  lemma BookOwes(s: State, id: string, amount: real, live: real, room: nat)
    requires Book(s, id, amount, live, true, room) && IsCents(amount) && IsCents(live) && live <= amount
    ensures s.invoices.rows[id].outstanding == amount - live
  {
    var inv := s.invoices.rows[id];
    assert inv.outstanding == InvoiceOutstanding(s, inv) && inv.id == id by {
      assert InvoiceCoherent(s, id) && InvoiceId(inv) == id;
    }
    EntryOwes(s, id, amount, live, room);
  }

  lemma EntryOwes(s: State, id: string, amount: real, live: real, room: nat)
    requires Entry(s, id, amount, live, true, room) && IsCents(amount) && IsCents(live) && live <= amount
    requires s.invoices.rows[id].id == id
    ensures InvoiceOutstanding(s, s.invoices.rows[id]) == amount - live
  {
    BookListsFit(s, id);
    OutstandingMeans(s, s.invoices.rows[id]);
    LeftExact(amount, live, Credits(s, id));
  }

  lemma LeftExact(amount: real, live: real, credits: real)
    requires IsCents(amount) && IsCents(live) && live <= amount && credits == 0.0
    ensures Round2(Max(0.0, amount - live - credits)) == amount - live
  {
    CentsAdd(amount, live);
    RoundFixesCents(amount - live);
  }

  lemma BookListsFit(s: State, id: string)
    requires |s.collects.order| <= LIST_LIMIT && s.rets.order == []
    ensures InvoiceListsFit(s, id) && Credits(s, id) == 0.0
  {
    KeptAtMostRows(s.collects, CollectionKeys, ByRef(id));
  }

  function Payment(id: string, amount: real, status: Status): Collection
  {
    Collection("", "", id, amount, 0.0, status)
  }

  lemma PaymentAccepted(s: State, id: string, paid: real, status: Status)
    requires id in s.invoices.rows && id != "" && IsConfirmedInvoice(s.invoices.rows[id].status)
    requires paid > 0.0 && status != Blank && (status != Void ==> paid <= s.invoices.rows[id].outstanding)
    ensures CreateCollection(s, Payment(id, paid, status)).1.Success?
  {
    assert ValidateCollection(s, Payment(id, paid, status), None).Success?;
  }

  /** The row such a payment is stored as, and the state the call leaves. */
  lemma PaymentStored(s: State, id: string, paid: real, status: Status) returns (row: Collection)
    requires WellFormed(s) && id in s.invoices.rows && IsConfirmedInvoice(s.invoices.rows[id].status)
    requires paid > 0.0 && status != Blank && (status != Void ==> paid <= s.invoices.rows[id].outstanding)
    ensures row.invoiceId == id && row.amount == paid && row.status == status && id != ""
    ensures row.id == MintId("COL", s.collects.counter + 1)
    ensures Step(s, Paying(id, paid, status)) == RefreshInvoice(WithCollection(s, row), id)
  {
    PaymentAccepted(s, id, paid, status);
    row := CollectionStored(s, Payment(id, paid, status));
  }

  lemma CollectionStored(s: State, c: Collection) returns (row: Collection)
    requires WellFormed(s) && CreateCollection(s, c).1.Success? && c.status != Blank
    ensures row.invoiceId == c.invoiceId && row.amount == c.amount && row.status == c.status
    ensures row.id == MintId("COL", s.collects.counter + 1)
    ensures Step(s, OpCreateCollection(c)) == RefreshInvoice(WithCollection(s, row), c.invoiceId)
  {
    row := CreateCollection(s, c).1.value;
    CreatedRow(s, c, row);
    AcceptedShape(s, c, None, row.(id := c.id));
  }

  lemma BookAccepts(s: State, id: string, amount: real, live: real, room: nat, paid: real, status: Status)
    requires Book(s, id, amount, live, true, room) && room > 0 && paid > 0.0 && status != Blank
    requires status != Void ==> paid <= s.invoices.rows[id].outstanding
    ensures var t := Step(s, Paying(id, paid, status));
      && Book(t, id, amount, if status == Void then live else live + paid, true, room - 1)
      && (status == Void ==> !HasCollections(t, id))
  {
    var row := PaymentStored(s, id, paid, status);
    StepCoherent(s, Paying(id, paid, status));
    var mid := WithCollection(s, row);
    RefreshedTerms(mid, id);
    OutletsStay(mid, RefreshInvoice(mid, id), "A");
    CollectedEntry(s, RefreshInvoice(mid, id), id, amount, live, room, row);
  }

  /** A refresh leaves an invoice's terms alone. */
  lemma RefreshedTerms(mid: State, id: string)
    requires Valid(mid.schemes, SchemeId, "SCH") && id in mid.invoices.rows
    ensures var t, inv := RefreshInvoice(mid, id), mid.invoices.rows[id];
      SameBut(mid, t) && HasTerms(t, id, inv.amount, inv.outletId, IsConfirmedInvoice(inv.status))
  {
    RefreshInvoiceFrame(mid, id);
    SettledTwice(mid.invoices.rows[id], InvoiceOutstanding(mid, mid.invoices.rows[id]));
  }

  /** `t` is what storing that row and refreshing its invoice left. */
  ghost predicate Collecting(s: State, t: State, id: string, amount: real, live: real, room: nat, row: Collection)
  {
    && WellFormed(s) && Entry(s, id, amount, live, true, room) && room > 0 && id != ""
    && row.invoiceId == id && row.id == MintId("COL", s.collects.counter + 1)
    && HasTerms(t, id, amount, "A", true) && FindOutlet(t.outlets, "A").Some?
    && t.collects == WithCollection(s, row).collects && t.rets == s.rets
  }

  lemma CollectedEntry(s: State, t: State, id: string, amount: real, live: real, room: nat, row: Collection)
    requires Collecting(s, t, id, amount, live, room, row)
    ensures Entry(t, id, amount, if row.status == Void then live else live + row.amount, true, room - 1)
    ensures row.status == Void ==> !HasCollections(t, id)
  {
    CollectedLive(s, t, id, amount, live, room, row);
    CollectedGuard(s, t, id, amount, live, room, row);
  }

  lemma CollectedLive(s: State, t: State, id: string, amount: real, live: real, room: nat, row: Collection)
    requires Collecting(s, t, id, amount, live, room, row)
    ensures Live(t, id) == if row.status == Void then live else live + row.amount
    ensures |t.collects.order| == |s.collects.order| + 1
  {
    InsertCollectionLive(s, row, id);
    LiveReadsCollections(WithCollection(s, row), t, id);
  }

  lemma CollectedGuard(s: State, t: State, id: string, amount: real, live: real, room: nat, row: Collection)
    requires Collecting(s, t, id, amount, live, room, row)
    ensures row.status == Void ==> !HasCollections(t, id)
  {
    if row.status == Void {
      NewestIsVoid(s, row, id);
      SameGuard(WithCollection(s, row), t, id);
    }
  }

  lemma LiveReadsCollections(s: State, t: State, id: string)
    requires t.collects == s.collects
    ensures Live(t, id) == Live(s, id)
  {
  }

  lemma NewestIsVoid(s: State, row: Collection, id: string)
    requires Valid(s.collects, CollectionId, "COL") && row.id == MintId("COL", s.collects.counter + 1)
    requires row.invoiceId == id && row.status == Void
    ensures !HasCollections(WithCollection(s, row), id)
  {
    CreateValid(s.collects, CollectionId, "COL", row);
    KeptInsert(Minted(s.collects), row.id, row, CollectionKeys, ByRef(id).(limit := 1));
  }

  lemma SameGuard(s: State, t: State, id: string)
    requires t.collects == s.collects
    ensures HasCollections(t, id) == HasCollections(s, id)
  {
  }

  /** An edit that passes the checks and the void guard replaces the row. */
  lemma ValidEdit(s: State, id: string, i: InvoiceInput, d: Invoice)
    requires Valid(s.invoices, InvoiceId, "SINV") && id in s.invoices.rows
    requires ValidateInvoice(s, i, Some(s.invoices.rows[id])) == Success(d)
    requires d.status == Void ==> !HasCollections(s, id)
    ensures Step(s, OpUpdateInvoice(id, i)) == ReplaceInvoice(s, s.invoices.rows[id], d.(id := id))
  {
    assert InvoiceId(s.invoices.rows[id]) == id;
  }

  lemma EditAccepted(s: State, id: string, next: real, status: Status)
    requires WellFormed(s) && FindOutlet(s.outlets, "A").Some? && id in s.invoices.rows
    requires next > 0.0 && status != Blank && (status == Void ==> !HasCollections(s, id))
    requires IsConfirmedInvoice(s.invoices.rows[id].status) ==> Round2(s.invoices.rows[id].amount) == next
    ensures Step(s, Editing(id, next, status))
         == ReplaceInvoice(s, s.invoices.rows[id], CashInvoice("A", next, status).(id := id))
  {
    CashInvoiceValid(s, CashInvoice("A", next, status), Some(s.invoices.rows[id]));
    ValidEdit(s, id, Typed(CashInvoice("A", next, status)), CashInvoice("A", next, status));
  }

  lemma BookEdits(s: State, id: string, amount: real, live: real, confirmed: bool, room: nat, next: real,
      status: Status)
    requires Book(s, id, amount, live, confirmed, room)
    requires next > 0.0 && (confirmed ==> next == Round2(amount))
    requires status != Blank && (status == Void ==> !HasCollections(s, id))
    ensures var t := Step(s, Editing(id, next, status));
      && Book(t, id, next, live, IsConfirmedInvoice(status), room)
      && (status == Void ==> t.invoices.rows[id].status == Void)
  {
    EditAccepted(s, id, next, status);
    StepCoherent(s, Editing(id, next, status));
    var row := CashInvoice("A", next, status).(id := id);
    EditedTerms(s, s.invoices.rows[id], row);
    OutletsStay(s, ReplaceInvoice(s, s.invoices.rows[id], row), "A");
    EditedEntry(s, ReplaceInvoice(s, s.invoices.rows[id], row), id, amount, live, confirmed, room, row);
  }

  lemma EditedTerms(s: State, cur: Invoice, row: Invoice)
    requires Valid(s.schemes, SchemeId, "SCH") && row.id in s.invoices.rows
    ensures var t := ReplaceInvoice(s, cur, row);
      && SameBut(s, t) && HasTerms(t, row.id, row.amount, row.outletId, IsConfirmedInvoice(row.status))
      && (row.status == Void ==> t.invoices.rows[row.id].status == Void)
  {
    ReplaceInvoiceFrame(s, cur, row);
    SettledTwice(row, InvoiceOutstanding(s, row));
  }

  lemma EditedEntry(s: State, t: State, id: string, amount: real, live: real, confirmed: bool, room: nat, row: Invoice)
    requires Entry(s, id, amount, live, confirmed, room)
    requires HasTerms(t, id, row.amount, "A", IsConfirmedInvoice(row.status)) && FindOutlet(t.outlets, "A").Some?
    requires t.collects == s.collects && t.rets == s.rets
    ensures Entry(t, id, row.amount, live, IsConfirmedInvoice(row.status), room)
  {
    LiveReadsCollections(s, t, id);
  }

  lemma RunCons(s: State, op: Op, rest: seq<Op>)
    ensures Run(s, [op] + rest) == Run(Step(s, op), rest)
  {
    assert ([op] + rest)[1..] == rest;
  }

  lemma RunTwo(s: State, a: Op, b: Op)
    ensures Run(s, [a, b]) == Step(Step(s, a), b)
  {
    RunCons(s, a, [b]);
    RunCons(Step(s, a), b, []);
    assert [a] + [b] == [a, b] && [b] + [] == [b];
  }

  lemma HeadFirst(a: seq<Op>, b: seq<Op>)
    requires a != []
    ensures a + b == [a[0]] + (a[1..] + b)
  {
  }

  lemma {:induction false} RunSplit(s: State, a: seq<Op>, b: seq<Op>)
    ensures Run(s, a + b) == Run(Run(s, a), b)
    decreases |a|
  {
    if a == [] {
      assert a + b == b;
    } else {
      HeadFirst(a, b);
      RunCons(s, a[0], a[1..] + b);
      RunSplit(Step(s, a[0]), a[1..], b);
    }
  }

  // ---- the void guard ------------------------------------------------------------------------

  /** Invoice an amount and collect it. */
  function PaidUp(id: string, amount: real): seq<Op>
  {
    [Invoicing(amount), Paying(id, amount, Collected)]
  }

  lemma PaidUpBook(s: State, id: string, amount: real)
    requires Idle(s) && id == NextInvoice(s) && amount > 0.0 && IsCents(amount)
    ensures Book(Run(s, PaidUp(id, amount)), id, amount, amount, true, LIST_LIMIT - 1)
  {
    BookOpens(s, amount);
    CollectAll(Step(s, Invoicing(amount)), id, amount);
    RunTwo(s, Invoicing(amount), Paying(id, amount, Collected));
  }

  lemma CollectAll(s: State, id: string, amount: real)
    requires Book(s, id, amount, 0.0, true, LIST_LIMIT) && amount > 0.0 && IsCents(amount)
    ensures Book(Step(s, Paying(id, amount, Collected)), id, amount, amount, true, LIST_LIMIT - 1)
  {
    assert amount <= s.invoices.rows[id].outstanding by {
      ZeroIsCents();
      BookOwes(s, id, amount, 0.0, LIST_LIMIT);
    }
    BookAccepts(s, id, amount, 0.0, LIST_LIMIT, amount, Collected);
  }

  /** A paid invoice leaves the confirmed set with its amount as it was. */
  lemma OffTheBooks(s: State, id: string, amount: real, room: nat, status: Status)
    requires Book(s, id, amount, amount, true, room) && amount > 0.0 && Round2(amount) == amount
    requires status != Blank && !IsConfirmedInvoice(status) && (status == Void ==> !HasCollections(s, id))
    ensures var t := Step(s, Editing(id, amount, status));
      Book(t, id, amount, amount, false, room) && (status == Void ==> t.invoices.rows[id].status == Void)
  {
    BookEdits(s, id, amount, amount, true, room, amount, status);
  }

  lemma VoidUnseen(s: State, id: string, amount: real)
    requires Book(s, id, amount, amount, true, LIST_LIMIT - 2) && amount > 0.0 && Round2(amount) == amount
    requires !HasCollections(s, id)
    ensures var t := Step(s, Editing(id, amount, Void));
      Book(t, id, amount, amount, false, LIST_LIMIT - 2) && t.invoices.rows[id].status == Void
  {
    OffTheBooks(s, id, amount, LIST_LIMIT - 2, Void);
  }

  /** Record a voided collection on the invoice, then void the invoice itself. */
  function VoidBoth(id: string, amount: real): seq<Op>
  {
    [Paying(id, amount, Void), Editing(id, amount, Void)]
  }

  lemma VoidBothBook(s: State, id: string, amount: real)
    requires Book(s, id, amount, amount, true, LIST_LIMIT - 1) && amount > 0.0 && Round2(amount) == amount
    ensures var t := Run(s, VoidBoth(id, amount));
      Book(t, id, amount, amount, false, LIST_LIMIT - 2) && t.invoices.rows[id].status == Void
  {
    BookAccepts(s, id, amount, amount, LIST_LIMIT - 1, amount, Void);
    VoidUnseen(Step(s, Paying(id, amount, Void)), id, amount);
    RunTwo(s, Paying(id, amount, Void), Editing(id, amount, Void));
  }

  lemma VoidButPaid(s: State, id: string)
    requires id in s.invoices.rows && !IsConfirmedInvoice(s.invoices.rows[id].status) && id != "" && Live(s, id) != 0.0
    ensures !BookSound(s, id)
  {
    if NoLive(s, id) {
      NoLiveNothingPaid(s, id);
      assert false;
    }
  }

  lemma PaidVoidFrom(s: State, id: string, amount: real)
    requires Idle(s) && id == NextInvoice(s) && amount > 0.0 && IsCents(amount)
    ensures var t := Run(s, PaidUp(id, amount) + VoidBoth(id, amount));
      && id in t.invoices.rows && t.invoices.rows[id].status == Void && Live(t, id) == amount && !BookSound(t, id)
  {
    RoundFixesCents(amount);
    PaidUpBook(s, id, amount);
    VoidBothBook(Run(s, PaidUp(id, amount)), id, amount);
    RunSplit(s, PaidUp(id, amount), VoidBoth(id, amount));
    VoidButPaid(Run(s, PaidUp(id, amount) + VoidBoth(id, amount)), id);
  }

  /** From the empty store, invoice, collect, record a voided collection, void: the guard
      sees the voided collection only, and an invoice is voided on which its whole
      amount stands paid. */
  lemma PaidInvoiceIsVoided(amount: real)
    requires amount > 0.0 && IsCents(amount)
    ensures var id := NextInvoice(EMPTY);
      var t := Run(EMPTY, PaidUp(id, amount) + VoidBoth(id, amount));
      && id in t.invoices.rows && t.invoices.rows[id].status == Void && Live(t, id) == amount && !BookSound(t, id)
  {
    EmptyIsIdle();
    PaidVoidFrom(EMPTY, NextInvoice(EMPTY), amount);
  }

  /** Back to draft, then confirmed again over another amount. */
  function DraftDetour(id: string, amount: real, lower: real): seq<Op>
  {
    [Editing(id, amount, Draft), Editing(id, lower, Invoiced)]
  }

  lemma DraftDetourBook(s: State, id: string, amount: real, lower: real)
    requires Book(s, id, amount, amount, true, LIST_LIMIT - 1) && amount > 0.0 && Round2(amount) == amount
    requires lower > 0.0
    ensures Book(Run(s, DraftDetour(id, amount, lower)), id, lower, amount, true, LIST_LIMIT - 1)
  {
    OffTheBooks(s, id, amount, LIST_LIMIT - 1, Draft);
    BackOnTheBooks(Step(s, Editing(id, amount, Draft)), id, amount, lower);
    RunTwo(s, Editing(id, amount, Draft), Editing(id, lower, Invoiced));
  }

  lemma BackOnTheBooks(s: State, id: string, amount: real, lower: real)
    requires Book(s, id, amount, amount, false, LIST_LIMIT - 1) && lower > 0.0
    ensures Book(Step(s, Editing(id, lower, Invoiced)), id, lower, amount, true, LIST_LIMIT - 1)
  {
    BookEdits(s, id, amount, amount, false, LIST_LIMIT - 1, lower, Invoiced);
  }

  /** From the empty store, invoice, collect, back to draft, confirm again over less: a
      confirmed invoice ends collected beyond its amount, by as much as one likes. */
  lemma DraftDetourOverCollects(amount: real, lower: real)
    requires 0.0 < lower < amount && IsCents(amount)
    ensures var id := NextInvoice(EMPTY);
      var t := Run(EMPTY, PaidUp(id, amount) + DraftDetour(id, amount, lower));
      && id in t.invoices.rows && IsConfirmedInvoice(t.invoices.rows[id].status)
      && t.invoices.rows[id].amount == lower && Live(t, id) == amount
  {
    var id := NextInvoice(EMPTY);
    EmptyIsIdle();
    RoundFixesCents(amount);
    PaidUpBook(EMPTY, id, amount);
    DraftDetourBook(Run(EMPTY, PaidUp(id, amount)), id, amount, lower);
    RunSplit(EMPTY, PaidUp(id, amount), DraftDetour(id, amount, lower));
  }

  // ---- the credit gate --------------------------------------------------------------------------

  function Moving(id: string, amount: real): Op
  {
    OpUpdateInvoice(id, Typed(OnCredit(amount)))
  }

  /** The invoice at the credit shop, payable in 30 days. */
  function OnCredit(amount: real): Invoice
  {
    CashInvoice("B", amount, Invoiced).(terms := "30")
  }

  lemma {:induction false} ContainsIsLonger(s: string, sub: string)
    ensures Contains(s, sub) ==> |sub| <= |s|
  {
    if s != "" {
      ContainsIsLonger(s[1..], sub);
    }
  }

  lemma ThirtyDaysIsCredit()
    ensures !IsCashTerms("30")
  {
    ContainsIsLonger("30", "cash");
    ContainsIsLonger("30", "cod");
    ContainsIsLonger("30", "immediate");
  }

  /** Nothing is owed at the credit shop, and the unpaid invoice `id` is all there is elsewhere. */
  ghost predicate Unmoved(s: State, id: string, amount: real)
  {
    && WellFormed(s) && Coherent(s) && HasTerms(s, id, amount, "A", true) && s.invoices.rows.Keys == {id}
    && s.invoices.rows[id].outstanding == amount && s.collects.order == [] && s.rets.order == []
    && FindOutlet(s.outlets, "B").Some? && FindOutlet(s.outlets, "B").value.kycApproved
    && FindOutlet(s.outlets, "B").value.creditLimit == 100.0
  }

  lemma MoveValid(s: State, id: string, amount: real)
    requires Unmoved(s, id, amount) && amount > 0.0 && Round2(amount) == amount
    ensures OutletOutstanding(s, "B") == 0.0
    ensures ValidateInvoice(s, Typed(OnCredit(amount)), Some(s.invoices.rows[id])) == Success(OnCredit(amount))
  {
    NewOutletOwesNothing(s, "B");
    ThirtyDaysIsCredit();
    var d, cur, o := OnCredit(amount), s.invoices.rows[id], FindOutlet(s.outlets, "B").value;
    RoundNear(OutletOutstanding(s, "B") - amount + amount - 100.0);
    assert PricedInvoice(s, d, Some(cur)) == Success(d);
    assert OverLimit(s, d, o, Some(cur)) <= 0.0;
    assert CreditCheck(s, Typed(d), o, Some(cur)) == Success(d);
  }

  lemma NothingPaid(s: State, id: string)
    requires s.collects.order == [] && s.rets.order == []
    ensures PaidOn(s, id) == 0.0
  {
  }

  lemma MoveOwes(s: State, id: string, amount: real)
    requires Unmoved(s, id, amount) && amount > 100.0 && IsCents(amount) && Round2(amount) == amount
    ensures UpdateInvoice(s, id, Typed(OnCredit(amount))).1.Success?
    ensures var t := UpdateInvoice(s, id, Typed(OnCredit(amount))).0;
      Owes(t, "B") == amount && !GateHolds(t, FindOutlet(s.outlets, "B").value, OnCredit(amount), false)
  {
    MoveValid(s, id, amount);
    OnCreditIsCredit(amount);
    MovedHereOwes(s, id, amount, OnCredit(amount));
  }

  predicate CreditHere(d: Invoice, amount: real)
  {
    d.outletId == "B" && d.amount == amount && IsConfirmedInvoice(d.status) && !IsCashTerms(d.terms)
  }

  lemma OnCreditIsCredit(amount: real)
    ensures CreditHere(OnCredit(amount), amount)
  {
    ThirtyDaysIsCredit();
  }

  lemma MovedHereOwes(s: State, id: string, amount: real, d: Invoice)
    requires Unmoved(s, id, amount) && amount > 100.0 && IsCents(amount) && OutletOutstanding(s, "B") == 0.0
    requires ValidateInvoice(s, Typed(d), Some(s.invoices.rows[id])) == Success(d)
    requires CreditHere(d, amount)
    ensures UpdateInvoice(s, id, Typed(d)).1.Success?
    ensures var t := UpdateInvoice(s, id, Typed(d)).0;
      Owes(t, "B") == amount && !GateHolds(t, FindOutlet(s.outlets, "B").value, d, false)
  {
    OneInvoiceFits(s, id, "B");
    NothingPaid(s, id);
    HundredIsCents();
    MovedInvoiceGateIff(s, id, Typed(d), d);
  }

  lemma HundredIsCents()
    ensures IsCents(100.0)
  {
    assert Cents(10000) == 100.0;
  }

  lemma MoveReplaces(s: State, id: string, amount: real)
    requires Unmoved(s, id, amount) && amount > 0.0 && Round2(amount) == amount
    ensures Step(s, Moving(id, amount)) == ReplaceInvoice(s, s.invoices.rows[id], OnCredit(amount).(id := id))
  {
    MoveValid(s, id, amount);
    ValidEdit(s, id, Typed(OnCredit(amount)), OnCredit(amount));
  }

  lemma MoveStored(s: State, id: string, amount: real)
    requires Unmoved(s, id, amount) && amount > 0.0 && Round2(amount) == amount
    ensures HasTerms(Step(s, Moving(id, amount)), id, amount, "B", true)
  {
    MoveReplaces(s, id, amount);
    EditedTerms(s, s.invoices.rows[id], OnCredit(amount).(id := id));
  }

  lemma TwoRowsDiffer(order: seq<string>, id: string)
    requires NoDup(order) && |order| > 1
    ensures exists x :: x in order && x != id
  {
    if order[0] != id {
      assert order[0] in order;
    } else {
      assert order[1] in order;
    }
  }

  lemma OneInvoiceFits(s: State, id: string, outletId: string)
    requires WellFormed(s) && s.invoices.rows.Keys == {id}
    ensures OutletListFits(s, outletId)
  {
    KeptAtMostRows(s.invoices, InvoiceKeys, ByOutlet(outletId));
    if |s.invoices.order| > 1 {
      TwoRowsDiffer(s.invoices.order, id);
      assert false;
    }
  }

  lemma EmptyUnmoved(amount: real)
    requires amount > 0.0 && Round2(amount) == amount
    ensures Unmoved(Step(EMPTY, Invoicing(amount)), NextInvoice(EMPTY), amount)
  {
    EmptyIsClean();
    UnmovedFrom(EMPTY, amount);
  }

  lemma UnmovedFrom(s: State, amount: real)
    requires Idle(s) && s.invoices.rows == map[] && amount > 0.0 && Round2(amount) == amount
    requires FindOutlet(s.outlets, "B") == Some(CREDIT_SHOP)
    ensures Unmoved(Step(s, Invoicing(amount)), NextInvoice(s), amount)
  {
    var d := CashInvoice("A", amount, Invoiced);
    InvoiceStored(s, d);
    StepCoherent(s, Invoicing(amount));
    OutletsKeepLimitsAdded(s, NewInvoice(s, d));
    FirstInvoice(s, NewInvoice(s, d));
  }

  lemma OutletsKeepLimitsAdded(s: State, row: Invoice)
    requires Valid(s.schemes, SchemeId, "SCH") && FindOutlet(s.outlets, "B") == Some(CREDIT_SHOP)
    ensures var o := FindOutlet(AddInvoice(s, row).outlets, "B");
      o.Some? && o.value.kycApproved && o.value.creditLimit == 100.0
  {
    AddInvoiceFrame(s, row);
    OutletsKeepLimits(s, AddInvoice(s, row), "B");
  }

  lemma FirstInvoice(s: State, row: Invoice)
    requires Idle(s) && s.invoices.rows == map[] && row.amount > 0.0 && Round2(row.amount) == row.amount
    requires row.status == Invoiced
    ensures var t := AddInvoice(s, row);
      && HasTerms(t, row.id, row.amount, row.outletId, true) && t.invoices.rows.Keys == {row.id}
      && t.invoices.rows[row.id].outstanding == row.amount && t.collects == s.collects && t.rets == s.rets
  {
    AddInvoiceFrame(s, row);
    AddedTerms(s, row);
    NothingPaid(s, row.id);
  }

  lemma {:induction false} FirstOfThatId(a: seq<Outlet>, b: seq<Outlet>, id: string)
    requires |a| == |b| && forall i :: 0 <= i < |a| ==> b[i].(outstanding := 0.0) == a[i].(outstanding := 0.0)
    requires FindOutlet(a, id).Some?
    ensures FindOutlet(b, id).Some?
    ensures FindOutlet(b, id).value.(outstanding := 0.0) == FindOutlet(a, id).value.(outstanding := 0.0)
  {
    assert b[0].(outstanding := 0.0) == a[0].(outstanding := 0.0);
    if a[0].id != id {
      FirstOfThatId(a[1..], b[1..], id);
    }
  }

  lemma OutletsKeepLimits(s: State, t: State, id: string)
    requires SameBut(s, t) && FindOutlet(s.outlets, id).Some?
    ensures FindOutlet(t.outlets, id).Some?
    ensures FindOutlet(t.outlets, id).value.(outstanding := 0.0) == FindOutlet(s.outlets, id).value.(outstanding := 0.0)
  {
    FirstOfThatId(s.outlets, t.outlets, id);
  }

  /** Moving the invoice is accepted and leaves the credit shop owing all of it. */
  ghost predicate MovePasses(s: State, t: State, id: string, amount: real)
  {
    && UpdateInvoice(s, id, Typed(OnCredit(amount))).1.Success? && HasTerms(t, id, amount, "B", true)
    && Owes(t, "B") == amount
  }

  lemma MoveIsUpdate(s: State, id: string, amount: real)
    ensures Step(s, Moving(id, amount)) == UpdateInvoice(s, id, Typed(OnCredit(amount))).0
  {
  }

  lemma MovedNext(s: State, id: string, amount: real)
    requires Unmoved(s, id, amount) && amount > 100.0 && IsCents(amount) && Round2(amount) == amount
    ensures MovePasses(s, Step(s, Moving(id, amount)), id, amount)
  {
    MoveOwes(s, id, amount);
    MoveStored(s, id, amount);
    MoveIsUpdate(s, id, amount);
  }

  /** From the empty store: an unpaid cash invoice of any size, moved on credit to a shop
      with a limit of 100, is accepted without an override and leaves that shop owing it all. */
  lemma MovePassesLimit(amount: real)
    requires amount > 100.0 && IsCents(amount)
    ensures var id := NextInvoice(EMPTY);
      var s, t := Step(EMPTY, Invoicing(amount)), Run(EMPTY, [Invoicing(amount), Moving(id, amount)]);
      MovePasses(s, t, id, amount) && amount > CREDIT_SHOP.creditLimit && !IsCashTerms(OnCredit(amount).terms)
  {
    RoundFixesCents(amount);
    EmptyUnmoved(amount);
    MovedNext(Step(EMPTY, Invoicing(amount)), NextInvoice(EMPTY), amount);
    ThirtyDaysIsCredit();
    RunTwo(EMPTY, Invoicing(amount), Moving(NextInvoice(EMPTY), amount));
  }

  // ---- the van ------------------------------------------------------------------------------------

  /** What is free on a load, in a store with room for `room` more invoices and returns. */
  ghost predicate Van(s: State, v: string, free: real, room: nat)
  {
    && WellFormed(s) && Countables(s, v) && FindOutlet(s.outlets, "A").Some?
    && v in s.loads.rows && v != "" && Free(s, v) == free
    && |s.invoices.order| + room <= LIST_LIMIT && |s.rets.order| + room <= LIST_LIMIT
  }

  lemma VanListsFit(s: State, v: string, free: real, room: nat)
    requires Van(s, v, free, room)
    ensures LoadListsFit(s, v)
  {
    KeptAtMostRows(s.invoices, InvoiceKeys, ByRef(v));
    KeptAtMostRows(s.rets, ReturnKeys, EVERYTHING);
  }

  function Loading(quantity: real): Op
  {
    OpCreateLoad(VanLoad("", "V", quantity, "", "", [], Loaded))
  }

  function Selling(v: string, quantity: real): Op
  {
    OpCreateInvoice(Typed(Sale(v, quantity)))
  }

  function Sale(v: string, quantity: real): Invoice
  {
    CashInvoice("A", 1.0, Invoiced).(vanLoadId := v, quantity := quantity)
  }

  function SendingBack(v: string, quantity: real): Op
  {
    OpCreateReturn(Sendback(v, quantity))
  }

  function Sendback(v: string, quantity: real): OutletReturn
  {
    OutletReturn("", "A", "", v, quantity, "other", Unset, 1.0, Received)
  }

  /** A store with nothing invoiced or sent back yet. */
  ghost predicate Unsold(s: State)
  {
    && WellFormed(s) && FindOutlet(s.outlets, "A").Some? && s.invoices.order == [] && s.rets.order == []
  }

  lemma VanLoads(s: State, quantity: real)
    requires Unsold(s)
    requires quantity > 0.0 && IsCents(quantity)
    ensures Van(Step(s, Loading(quantity)), MintId("VAN", s.loads.counter + 1), quantity, LIST_LIMIT)
  {
    LoadingStores(s, quantity);
    LoadedVan(s, VanLoad(MintId("VAN", s.loads.counter + 1), "V", quantity, "", "", [], Loaded));
  }

  lemma LoadingStores(s: State, quantity: real)
    requires quantity > 0.0 && IsCents(quantity)
    ensures var row := VanLoad(MintId("VAN", s.loads.counter + 1), "V", quantity, "", "", [], Loaded);
      Step(s, Loading(quantity)) == s.(loads := Inserted(Minted(s.loads), row.id, row))
  {
    var load := VanLoad("", "V", quantity, "", "", [], Loaded);
    RoundFixesCents(quantity);
    assert NormaliseVanLoad(load) == Success(load);
  }

  lemma LoadedVan(s: State, row: VanLoad)
    requires Unsold(s) && row.id == MintId("VAN", s.loads.counter + 1) && Stock.Countable(row.quantity)
    ensures Van(s.(loads := Inserted(Minted(s.loads), row.id, row)), row.id, row.quantity, LIST_LIMIT)
  {
    CreateValid(s.loads, LoadId, "VAN", row);
  }

  lemma SaleValid(s: State, v: string, quantity: real, free: real, room: nat)
    requires Van(s, v, free, room) && 0.0 < quantity <= free
    ensures ValidateInvoice(s, Typed(Sale(v, quantity)), None) == Success(Sale(v, quantity))
  {
    var d := Sale(v, quantity);
    VanListsFit(s, v, free, room);
    OnHandIsFree(s, v);
    assert PricedInvoice(s, d, None) == Success(d);
    assert StockCheck(s, d, None).Success?;
    assert IsCashTerms(d.terms);
  }

  lemma SellingKeepsReturns(s: State, v: string, quantity: real, free: real, room: nat)
    requires Van(s, v, free, room) && 0.0 < quantity <= free
    ensures Step(s, Selling(v, quantity)).rets == s.rets
  {
    SaleValid(s, v, quantity, free, room);
    CreatedInvoice(s, Typed(Sale(v, quantity)), Sale(v, quantity));
    AddInvoiceFrame(s, NewInvoice(s, Sale(v, quantity)));
  }

  lemma VanSells(s: State, v: string, quantity: real, free: real, room: nat)
    requires Van(s, v, free, room) && room > 0 && 0.0 < quantity <= free && IsCents(quantity)
    ensures Van(Step(s, Selling(v, quantity)), v, free - quantity, room - 1)
    ensures Step(s, Selling(v, quantity)).rets == s.rets
  {
    var d := Sale(v, quantity);
    SaleValid(s, v, quantity, free, room);
    CreatedInvoice(s, Typed(d), d);
    SellingKeepsReturns(s, v, quantity, free, room);
    SoldFromVan(s, v, quantity, free, room, NewInvoice(s, d));
  }

  /** The row of an invoice that sells `quantity` from a load the store knows. */
  ghost predicate Sellable(s: State, v: string, quantity: real, free: real, room: nat, row: Invoice)
  {
    Van(s, v, free, room) && room > 0 && Countable(quantity) && row == NewInvoice(s, Sale(v, quantity))
  }

  lemma SoldFromVan(s: State, v: string, quantity: real, free: real, room: nat, row: Invoice)
    requires Sellable(s, v, quantity, free, room, row)
    ensures Van(AddInvoice(s, row), v, free - quantity, room - 1) && AddInvoice(s, row).rets == s.rets
  {
    SoldWellFormed(s, v, quantity, free, room, row);
    SoldCounts(s, v, quantity, free, room, row);
  }

  lemma SoldWellFormed(s: State, v: string, quantity: real, free: real, room: nat, row: Invoice)
    requires Sellable(s, v, quantity, free, room, row)
    ensures WellFormed(AddInvoice(s, row)) && FindOutlet(AddInvoice(s, row).outlets, "A").Some?
  {
    AddInvoiceFrame(s, row);
    OutletsStay(s, AddInvoice(s, row), "A");
    AddInvoiceWellFormed(s, row);
  }

  lemma SoldCounts(s: State, v: string, quantity: real, free: real, room: nat, row: Invoice)
    requires Sellable(s, v, quantity, free, room, row)
    ensures var t := AddInvoice(s, row);
      && Countables(t, v) && v in t.loads.rows && v != "" && Free(t, v) == free - quantity && t.rets == s.rets
      && |t.invoices.order| == |s.invoices.order| + 1 && room > 0
      && |t.invoices.order| + room - 1 <= LIST_LIMIT && |t.rets.order| + room - 1 <= LIST_LIMIT
  {
    AddInvoiceFrame(s, row);
    InsertedSold(s, row, v);
  }

  lemma AddInvoiceWellFormed(s: State, row: Invoice)
    requires WellFormed(s) && row.id == MintId("SINV", s.invoices.counter + 1)
    requires FindOutlet(s.outlets, row.outletId).Some?
    ensures WellFormed(AddInvoice(s, row))
  {
    CreateValid(s.invoices, InvoiceId, "SINV", row);
    NewOutletNamed(s, row);
    RefreshInvoiceWellFormed(s.(invoices := Inserted(Minted(s.invoices), row.id, row)), row.id);
  }

  lemma SendbackStored(s: State, v: string, quantity: real) returns (row: OutletReturn)
    requires FindOutlet(s.outlets, "A").Some? && quantity > 0.0
    ensures row == Sendback(v, quantity).(id := MintId("RET", s.rets.counter + 1), disposition := StockReceipt)
    ensures Step(s, SendingBack(v, quantity)) == s.(rets := Inserted(Minted(s.rets), row.id, row))
  {
    row := Sendback(v, quantity).(id := MintId("RET", s.rets.counter + 1), disposition := StockReceipt);
    assert ValidateReturn(s, Sendback(v, quantity)) == Success(row.(id := ""));
  }

  /** The load's return `id` of that quantity, not credited and on no invoice. */
  ghost predicate Returned(s: State, id: string, v: string, quantity: real)
  {
    && id in s.rets.rows && s.rets.rows[id].status == Received && s.rets.rows[id].invoiceId == ""
    && s.rets.rows[id].vanLoadId == v && s.rets.rows[id].quantity == quantity
  }

  lemma VanTakesBack(s: State, v: string, ret: string, quantity: real, free: real, room: nat)
    requires Van(s, v, free, room) && room > 0 && quantity > 0.0
    requires IsCents(quantity) && ret == MintId("RET", s.rets.counter + 1)
    ensures var t := Step(s, SendingBack(v, quantity));
      Van(t, v, free + quantity, room - 1) && Returned(t, ret, v, quantity)
  {
    var row := SendbackStored(s, v, quantity);
    PutBack(s, v, free, room, row);
  }

  /** The row of a return that brings its goods back to a load the store knows. */
  ghost predicate Returnable(s: State, v: string, free: real, room: nat, row: OutletReturn)
  {
    && Van(s, v, free, room) && room > 0 && Countable(row.quantity) && row.id == MintId("RET", s.rets.counter + 1)
    && row.vanLoadId == v && row.status == Received && row.invoiceId == ""
  }

  function WithReturn(s: State, row: OutletReturn): State
  {
    s.(rets := Inserted(Minted(s.rets), row.id, row))
  }

  lemma PutBack(s: State, v: string, free: real, room: nat, row: OutletReturn)
    requires Returnable(s, v, free, room, row)
    ensures Van(WithReturn(s, row), v, free + row.quantity, room - 1)
    ensures Returned(WithReturn(s, row), row.id, v, row.quantity)
  {
    PutBackCounts(s, v, free, room, row);
    PutBackKeeps(s, v, free, room, row);
  }

  lemma PutBackCounts(s: State, v: string, free: real, room: nat, row: OutletReturn)
    requires Returnable(s, v, free, room, row)
    ensures Countables(WithReturn(s, row), v) && Free(WithReturn(s, row), v) == free + row.quantity
  {
    BackAfterInsert(s, row, v);
  }

  lemma PutBackKeeps(s: State, v: string, free: real, room: nat, row: OutletReturn)
    requires Returnable(s, v, free, room, row)
    ensures var t := WithReturn(s, row);
      && WellFormed(t) && FindOutlet(t.outlets, "A").Some? && v in t.loads.rows && v != "" && room > 0
      && |t.invoices.order| + room - 1 <= LIST_LIMIT && |t.rets.order| + room - 1 <= LIST_LIMIT
      && Returned(t, row.id, v, row.quantity)
  {
    CreateValid(s.rets, ReturnId, "RET", row);
  }

  lemma VanLosesReturn(s: State, v: string, id: string, quantity: real, free: real, room: nat)
    requires Van(s, v, free, room) && Returned(s, id, v, quantity)
    ensures Free(Step(s, OpDeleteReturn(id)), v) == free - quantity
  {
    BackAfterDelete(s, id, v);
    assert Step(s, OpDeleteReturn(id)) == s.(rets := Deleted(s.rets, id));
  }

  function LoadedAndSold(v: string, quantity: real): seq<Op>
  {
    [Loading(quantity), Selling(v, quantity)]
  }

  function BackAndSold(v: string, quantity: real): seq<Op>
  {
    [SendingBack(v, quantity), Selling(v, quantity)]
  }

  /** Take back, sell that, and delete the return underneath. */
  function SoldAndDeleted(v: string, ret: string, quantity: real): seq<Op>
  {
    BackAndSold(v, quantity) + [OpDeleteReturn(ret)]
  }

  /** Load a van, sell it out, take it all back, sell it again, and delete the return. */
  function SoldTwice(v: string, ret: string, quantity: real): seq<Op>
  {
    LoadedAndSold(v, quantity) + SoldAndDeleted(v, ret, quantity)
  }

  /** All of the load is sold, and `n` returns were minted so far. */
  ghost predicate SoldOut(s: State, v: string, n: nat)
  {
    Van(s, v, 0.0, LIST_LIMIT - 1) && s.rets.counter == n
  }

  lemma LoadAndSell(s: State, v: string, quantity: real)
    requires Unsold(s) && quantity > 0.0 && IsCents(quantity) && v == MintId("VAN", s.loads.counter + 1)
    ensures SoldOut(Run(s, LoadedAndSold(v, quantity)), v, s.rets.counter)
  {
    LoadThenSold(s, v, quantity);
    LoadedAndSoldIs(s, v, quantity);
  }

  lemma LoadThenSold(s: State, v: string, quantity: real)
    requires Unsold(s) && quantity > 0.0 && IsCents(quantity) && v == MintId("VAN", s.loads.counter + 1)
    ensures SoldOut(Run(Step(s, Loading(quantity)), [Selling(v, quantity)]), v, s.rets.counter)
  {
    VanLoads(s, quantity);
    LoadingKeepsReturns(s, quantity);
    AllSold(Step(s, Loading(quantity)), v, quantity);
  }

  lemma AllSold(s: State, v: string, quantity: real)
    requires Van(s, v, quantity, LIST_LIMIT) && quantity > 0.0 && IsCents(quantity)
    ensures SoldOut(Run(s, [Selling(v, quantity)]), v, s.rets.counter)
  {
    SoldNext(s, v, quantity, LIST_LIMIT);
  }

  lemma LoadedAndSoldIs(s: State, v: string, quantity: real)
    ensures Run(s, LoadedAndSold(v, quantity)) == Run(Step(s, Loading(quantity)), [Selling(v, quantity)])
  {
    RunCons(s, Loading(quantity), [Selling(v, quantity)]);
    assert LoadedAndSold(v, quantity) == [Loading(quantity)] + [Selling(v, quantity)];
  }

  lemma LoadingKeepsReturns(s: State, quantity: real)
    ensures Step(s, Loading(quantity)).rets == s.rets
  {
  }

  lemma TakeBackAndSell(s: State, v: string, ret: string, n: nat, quantity: real)
    requires SoldOut(s, v, n) && quantity > 0.0 && IsCents(quantity) && ret == MintId("RET", n + 1)
    ensures var t := Run(s, BackAndSold(v, quantity));
      Van(t, v, 0.0, LIST_LIMIT - 3) && Returned(t, ret, v, quantity)
  {
    BackThenSold(s, v, ret, n, quantity);
    BackAndSoldIs(s, v, quantity);
  }

  lemma BackThenSold(s: State, v: string, ret: string, n: nat, quantity: real)
    requires SoldOut(s, v, n) && quantity > 0.0 && IsCents(quantity) && ret == MintId("RET", n + 1)
    ensures var t := Run(Step(s, SendingBack(v, quantity)), [Selling(v, quantity)]);
      Van(t, v, 0.0, LIST_LIMIT - 3) && Returned(t, ret, v, quantity)
  {
    TakenBack(s, v, ret, n, quantity);
    SoldAgain(Step(s, SendingBack(v, quantity)), v, ret, quantity, LIST_LIMIT - 2);
  }

  lemma TakenBack(s: State, v: string, ret: string, n: nat, quantity: real)
    requires SoldOut(s, v, n) && quantity > 0.0 && IsCents(quantity) && ret == MintId("RET", n + 1)
    ensures var t := Step(s, SendingBack(v, quantity));
      Van(t, v, quantity, LIST_LIMIT - 2) && Returned(t, ret, v, quantity)
  {
    VanTakesBack(s, v, ret, quantity, 0.0, LIST_LIMIT - 1);
  }

  lemma SoldAgain(s: State, v: string, ret: string, quantity: real, room: nat)
    requires Van(s, v, quantity, room) && Returned(s, ret, v, quantity) && room > 0
    requires quantity > 0.0 && IsCents(quantity)
    ensures var t := Run(s, [Selling(v, quantity)]); Van(t, v, 0.0, room - 1) && Returned(t, ret, v, quantity)
  {
    SoldNext(s, v, quantity, room);
  }

  lemma BackAndSoldIs(s: State, v: string, quantity: real)
    ensures Run(s, BackAndSold(v, quantity)) == Run(Step(s, SendingBack(v, quantity)), [Selling(v, quantity)])
  {
    RunCons(s, SendingBack(v, quantity), [Selling(v, quantity)]);
    assert BackAndSold(v, quantity) == [SendingBack(v, quantity)] + [Selling(v, quantity)];
  }

  lemma SoldNext(s: State, v: string, quantity: real, room: nat)
    requires Van(s, v, quantity, room) && room > 0 && quantity > 0.0 && IsCents(quantity)
    ensures var t := Run(s, [Selling(v, quantity)]); Van(t, v, 0.0, room - 1) && t.rets == s.rets
  {
    VanSells(s, v, quantity, quantity, room);
    RunOne(s, Selling(v, quantity));
  }

  lemma RunOne(s: State, op: Op)
    ensures Run(s, [op]) == Step(s, op)
  {
  }

  /** From the empty store: deleting a return whose goods were sold on leaves the van
      oversold by all of them. */
  lemma DeletedReturnOversells(quantity: real)
    requires quantity > 0.0 && IsCents(quantity)
    ensures var v, ret := MintId("VAN", 1), MintId("RET", 1);
      var t := Run(EMPTY, SoldTwice(v, ret, quantity));
      Free(t, v) == -quantity && !Covered(t, v)
  {
    EmptyIsClean();
    SoldTwiceFrom(EMPTY, MintId("VAN", 1), MintId("RET", 1), 0, quantity);
  }

  lemma SoldTwiceFrom(s: State, v: string, ret: string, n: nat, quantity: real)
    requires Unsold(s) && quantity > 0.0 && IsCents(quantity)
    requires v == MintId("VAN", s.loads.counter + 1) && s.rets.counter == n && ret == MintId("RET", n + 1)
    ensures var t := Run(s, SoldTwice(v, ret, quantity));
      Free(t, v) == -quantity && !Covered(t, v)
  {
    LoadAndSell(s, v, quantity);
    BackSoldDeleted(Run(s, LoadedAndSold(v, quantity)), v, ret, n, quantity);
    RunSplit(s, LoadedAndSold(v, quantity), SoldAndDeleted(v, ret, quantity));
  }

  lemma BackSoldDeleted(s: State, v: string, ret: string, n: nat, quantity: real)
    requires SoldOut(s, v, n) && quantity > 0.0 && IsCents(quantity) && ret == MintId("RET", n + 1)
    ensures var t := Run(s, SoldAndDeleted(v, ret, quantity));
      Free(t, v) == -quantity && !Covered(t, v)
  {
    TakeBackAndSell(s, v, ret, n, quantity);
    DeletedUnderneath(Run(s, BackAndSold(v, quantity)), v, ret, quantity);
    RunSplit(s, BackAndSold(v, quantity), [OpDeleteReturn(ret)]);
  }

  lemma DeletedUnderneath(s: State, v: string, ret: string, quantity: real)
    requires Van(s, v, 0.0, LIST_LIMIT - 3) && Returned(s, ret, v, quantity) && quantity > 0.0
    ensures var t := Run(s, [OpDeleteReturn(ret)]); Free(t, v) == -quantity && !Covered(t, v)
  {
    VanLosesReturn(s, v, ret, quantity, 0.0, LIST_LIMIT - 3);
    RunOne(s, OpDeleteReturn(ret));
    OversoldIsUncovered(s, Step(s, OpDeleteReturn(ret)), v, ret);
  }

  lemma OversoldIsUncovered(s: State, t: State, v: string, ret: string)
    requires v in s.loads.rows && v != "" && t == Step(s, OpDeleteReturn(ret)) && Free(t, v) < 0.0
    requires ret in s.rets.rows && s.rets.rows[ret].invoiceId == ""
    ensures !Covered(t, v)
  {
    assert t.loads == s.loads;
  }

  // ---- the scheme left behind ------------------------------------------------------------------------

  function Launching(): Op
  {
    OpCreateScheme(Scheme("", "promotion", 0.0, 0.0, 0.0, 0.0, "", "", Active))
  }

  function Redeeming(c: string, value: real): Op
  {
    OpCreateInvoice(Typed(Redemption(c, value)))
  }

  function Redemption(c: string, value: real): Invoice
  {
    CashInvoice("A", 1.0, Invoiced).(schemeId := c, schemeValue := value)
  }

  /** An active scheme open to everyone, redeemed by nothing yet. */
  ghost predicate Launched(s: State, c: string)
  {
    && WellFormed(s) && SchemeSound(s, c) && FindOutlet(s.outlets, "A").Some? && s.invoices.order == []
    && c != "" && c in s.schemes.rows && s.schemes.rows[c].status == Active
    && s.schemes.rows[c].segment == "" && s.schemes.rows[c].volumeTier == ""
  }

  /** A store with sound schemes and nothing invoiced yet. */
  ghost predicate Unredeemed(s: State)
  {
    WellFormed(s) && SchemesSound(s) && FindOutlet(s.outlets, "A").Some? && s.invoices.order == []
  }

  /** A named active scheme open to everyone. */
  predicate OpenToAll(c: Scheme)
  {
    c.name != "" && c.status == Active && c.segment == "" && c.volumeTier == ""
  }

  lemma SchemeLaunched(s: State)
    requires Unredeemed(s)
    ensures Launched(Step(s, Launching()), MintId("SCH", s.schemes.counter + 1))
    ensures Step(s, Launching()).invoices == s.invoices
  {
    var c := Scheme("", "promotion", 0.0, 0.0, 0.0, 0.0, "", "", Active);
    SchemeStored(s, c);
    CreateSchemeSound(s, c, MintId("SCH", s.schemes.counter + 1));
    LaunchingCreates(s, c);
  }

  lemma LaunchingCreates(s: State, c: Scheme)
    requires Launching() == OpCreateScheme(c)
    ensures Step(s, Launching()) == CreateScheme(s, c).0
  {
  }

  lemma SchemeStored(s: State, c: Scheme)
    requires Unredeemed(s) && OpenToAll(c)
    ensures var t, id := CreateScheme(s, c).0, MintId("SCH", s.schemes.counter + 1);
      && WellFormed(t) && FindOutlet(t.outlets, "A").Some? && t.invoices == s.invoices && t.invoices.order == []
      && id != "" && id in t.schemes.rows && t.schemes.rows[id].status == Active
      && t.schemes.rows[id].segment == "" && t.schemes.rows[id].volumeTier == ""
  {
    CreateValid(s.schemes, SchemeId, "SCH", CreateScheme(s, c).1.value);
  }

  lemma RedemptionValid(s: State, c: string, value: real)
    requires Launched(s, c)
    ensures ValidateInvoice(s, Typed(Redemption(c, value)), None) == Success(Redemption(c, value))
  {
    var d := Redemption(c, value);
    assert PricedInvoice(s, d, None) == Success(d);
    assert IsCashTerms(d.terms);
    assert SchemeId(s.schemes.rows[c]) == c;
  }

  /** The invoice `id` is all the scheme was redeemed by, and the scheme says so. */
  ghost predicate CountedOn(s: State, c: string, id: string, value: real)
  {
    WellFormed(s) && c != "" && Says(s, c, value, value) && UnderScheme(s, id, c, value)
  }

  /** What the scheme reports, and what its confirmed invoices add up to. */
  ghost predicate Says(s: State, c: string, reported: real, counted: real)
  {
    c in s.schemes.rows && s.schemes.rows[c].redeemedValue == reported && Value(s, c) == counted
  }

  ghost predicate UnderScheme(s: State, id: string, c: string, value: real)
  {
    && FindOutlet(s.outlets, "A").Some? && HasTerms(s, id, 1.0, "A", true)
    && s.invoices.rows[id].schemeId == c && s.invoices.rows[id].schemeValue == value
  }

  lemma RedemptionStored(s: State, c: string, value: real)
    requires Launched(s, c) && value > 0.0 && IsCents(value)
    ensures Step(s, Redeeming(c, value)) == AddInvoice(s, NewInvoice(s, Redemption(c, value)))
  {
    RedemptionValid(s, c, value);
    CreatedInvoice(s, Typed(Redemption(c, value)), Redemption(c, value));
  }

  lemma RedemptionSound(s: State, c: string, value: real)
    requires Launched(s, c) && value > 0.0 && IsCents(value)
    ensures SchemeSound(AddInvoice(s, NewInvoice(s, Redemption(c, value))), c)
  {
    RedemptionStored(s, c, value);
    ZeroIsCents();
    CreateInvoiceScheme(s, Typed(Redemption(c, value)), c);
  }

  lemma SchemeRedeemed(s: State, c: string, value: real)
    requires Launched(s, c) && value > 0.0 && IsCents(value)
    ensures CountedOn(Step(s, Redeeming(c, value)), c, NextInvoice(s), value)
  {
    RedemptionCounting(s, c, value);
    RedemptionCounted(s, c, value, NewInvoice(s, Redemption(c, value)));
    RedemptionRow(s, c, value);
    RedemptionStored(s, c, value);
  }

  lemma RedemptionCounting(s: State, c: string, value: real)
    requires Launched(s, c) && value > 0.0 && IsCents(value)
    ensures Counting(s, c, value, NewInvoice(s, Redemption(c, value)))
  {
    RedemptionSound(s, c, value);
    RedemptionRow(s, c, value);
    CountingFrom(s, c, value, NewInvoice(s, Redemption(c, value)));
  }

  /** A confirmed invoice of the shop under the scheme. */
  predicate Redeemer(row: Invoice, c: string, value: real)
  {
    && row.schemeId == c && row.schemeValue == value && row.amount == 1.0 && row.outletId == "A"
    && IsConfirmedInvoice(row.status)
  }

  lemma RedemptionRow(s: State, c: string, value: real)
    ensures var row := NewInvoice(s, Redemption(c, value)); Redeemer(row, c, value) && row.id == NextInvoice(s)
  {
  }

  lemma CountingFrom(s: State, c: string, value: real, row: Invoice)
    requires Launched(s, c) && Redeemer(row, c, value) && row.id == NextInvoice(s) && SchemeSound(AddInvoice(s, row), c)
    ensures Counting(s, c, value, row)
  {
  }

  /** The row is about to be stored as the first invoice under the scheme, and leaves sound books. */
  ghost predicate Counting(s: State, c: string, value: real, row: Invoice)
  {
    && WellFormed(s) && s.invoices.order == [] && c in s.schemes.rows && c != "" && FindOutlet(s.outlets, "A").Some?
    && Redeemer(row, c, value) && row.id == NextInvoice(s) && SchemeSound(AddInvoice(s, row), c)
  }

  lemma RedemptionCounted(s: State, c: string, value: real, row: Invoice)
    requires Counting(s, c, value, row)
    ensures CountedOn(AddInvoice(s, row), c, row.id, value)
  {
    CountedWellFormed(s, c, value, row);
    SchemeCounts(s, c, value, row);
    AddedUnderScheme(s, c, value, row);
  }

  lemma CountedWellFormed(s: State, c: string, value: real, row: Invoice)
    requires Counting(s, c, value, row)
    ensures WellFormed(AddInvoice(s, row)) && c != ""
  {
    AddInvoiceWellFormed(s, row);
  }

  lemma SchemeCounts(s: State, c: string, value: real, row: Invoice)
    requires Counting(s, c, value, row)
    ensures Says(AddInvoice(s, row), c, value, value)
  {
    SchemeValue(s, c, value, row);
    SchemeStays(s, c, row);
    SoundSays(AddInvoice(s, row), c, value);
  }

  lemma SchemeValue(s: State, c: string, value: real, row: Invoice)
    requires Counting(s, c, value, row)
    ensures Value(AddInvoice(s, row), c) == value
  {
    AddInvoiceRedemption(s, row, c);
  }

  lemma SchemeStays(s: State, c: string, row: Invoice)
    requires c in s.schemes.rows
    ensures c in AddInvoice(s, row).schemes.rows
  {
    SchemeKeysStay(s.(invoices := Inserted(Minted(s.invoices), row.id, row)), row.id);
  }

  lemma SoundSays(s: State, c: string, value: real)
    requires SchemeSound(s, c) && c in s.schemes.rows && Value(s, c) == value
    ensures Says(s, c, value, value)
  {
  }

  lemma AddedUnderScheme(s: State, c: string, value: real, row: Invoice)
    requires Counting(s, c, value, row)
    ensures UnderScheme(AddInvoice(s, row), row.id, c, value)
  {
    AddInvoiceFrame(s, row);
    AddedTerms(s, row);
    OutletsStay(s, AddInvoice(s, row), "A");
  }

  lemma SchemeLeft(s: State, c: string, id: string, value: real)
    requires CountedOn(s, c, id, value) && value > 0.0
    ensures var t := Step(s, Editing(id, 1.0, Invoiced));
      c in t.schemes.rows && t.schemes.rows[c].redeemedValue == value && Value(t, c) == 0.0
  {
    assert Cents(100) == 1.0;
    RoundFixesCents(1.0);
    EditAccepted(s, id, 1.0, Invoiced);
    var cur, row := s.invoices.rows[id], CashInvoice("A", 1.0, Invoiced).(id := id);
    ReplaceInvoiceRedemption(s, cur, row, c);
    SchemeKept(s, cur, row, c);
  }

  function LaunchedAndRedeemed(c: string, value: real): seq<Op>
  {
    [Launching(), Redeeming(c, value)]
  }

  /** From the empty store: taking the scheme off a counted invoice leaves the scheme
      reporting a redemption no invoice stands for. */
  lemma LeftSchemeIsStale(value: real)
    requires value > 0.0 && IsCents(value)
    ensures var c, id := MintId("SCH", 1), NextInvoice(EMPTY);
      var t := Run(EMPTY, LaunchedAndRedeemed(c, value) + [Editing(id, 1.0, Invoiced)]);
      c in t.schemes.rows && t.schemes.rows[c].redeemedValue == value && Value(t, c) == 0.0 && !SchemeSound(t, c)
  {
    EmptyIsClean();
    FreshIsSound([SHOP, CREDIT_SHOP], {}, {});
    StaleFrom(EMPTY, MintId("SCH", 1), NextInvoice(EMPTY), value);
  }

  lemma StaleFrom(s: State, c: string, id: string, value: real)
    requires Unredeemed(s)
    requires c == MintId("SCH", s.schemes.counter + 1) && id == NextInvoice(s) && value > 0.0 && IsCents(value)
    ensures var t := Run(s, LaunchedAndRedeemed(c, value) + [Editing(id, 1.0, Invoiced)]);
      c in t.schemes.rows && t.schemes.rows[c].redeemedValue == value && Value(t, c) == 0.0 && !SchemeSound(t, c)
  {
    LaunchAndRedeem(s, c, id, value);
    LeftUncounted(Run(s, LaunchedAndRedeemed(c, value)), c, id, value);
    RunSplit(s, LaunchedAndRedeemed(c, value), [Editing(id, 1.0, Invoiced)]);
  }

  lemma LaunchAndRedeem(s: State, c: string, id: string, value: real)
    requires Unredeemed(s)
    requires c == MintId("SCH", s.schemes.counter + 1) && id == NextInvoice(s) && value > 0.0 && IsCents(value)
    ensures CountedOn(Run(s, LaunchedAndRedeemed(c, value)), c, id, value)
  {
    LaunchThenRedeem(s, c, id, value);
    LaunchedAndRedeemedIs(s, c, value);
  }

  lemma LaunchThenRedeem(s: State, c: string, id: string, value: real)
    requires Unredeemed(s)
    requires c == MintId("SCH", s.schemes.counter + 1) && id == NextInvoice(s) && value > 0.0 && IsCents(value)
    ensures CountedOn(Run(Step(s, Launching()), [Redeeming(c, value)]), c, id, value)
  {
    SchemeLaunched(s);
    RedeemedNext(Step(s, Launching()), c, id, value);
  }

  lemma LaunchedAndRedeemedIs(s: State, c: string, value: real)
    ensures Run(s, LaunchedAndRedeemed(c, value)) == Run(Step(s, Launching()), [Redeeming(c, value)])
  {
    RunCons(s, Launching(), [Redeeming(c, value)]);
    assert LaunchedAndRedeemed(c, value) == [Launching()] + [Redeeming(c, value)];
  }

  lemma RedeemedNext(s: State, c: string, id: string, value: real)
    requires Launched(s, c) && id == NextInvoice(s) && value > 0.0 && IsCents(value)
    ensures CountedOn(Run(s, [Redeeming(c, value)]), c, id, value)
  {
    SchemeRedeemed(s, c, value);
    RunOne(s, Redeeming(c, value));
  }

  lemma LeftUncounted(s: State, c: string, id: string, value: real)
    requires CountedOn(s, c, id, value) && value > 0.0
    ensures var t := Run(s, [Editing(id, 1.0, Invoiced)]);
      c in t.schemes.rows && t.schemes.rows[c].redeemedValue == value && Value(t, c) == 0.0 && !SchemeSound(t, c)
  {
    SchemeLeft(s, c, id, value);
    RunOne(s, Editing(id, 1.0, Invoiced));
    StaleIsUnsound(Step(s, Editing(id, 1.0, Invoiced)), c);
  }

  lemma StaleIsUnsound(s: State, c: string)
    requires c in s.schemes.rows && s.schemes.rows[c].redeemedValue != Value(s, c)
    ensures !SchemeSound(s, c)
  {
  }
}
