/** What the credit gate means: an accepted invoice on credit leaves the outlet's
    refreshed balance within its limit, or a supervisor answered for it. */
module Credit {
  import opened Coherence
  import opened Ids
  import opened Ledger
  import opened Money
  import opened Payments
  import opened TableLemmas
  import opened Tables
  import opened Wrappers

  ghost predicate NoNegativePayments(s: State)
  {
    && (forall id :: id in s.collects.rows ==> s.collects.rows[id].amount >= 0.0)
    && (forall id :: id in s.rets.rows && s.rets.rows[id].status == Credited ==> s.rets.rows[id].credit >= 0.0)
  }

  /** An invoice never owes more than its rounded amount. */
  lemma OutstandingAtMostAmount(s: State, inv: Invoice)
    requires NoNegativePayments(s) && inv.amount >= 0.0
    ensures InvoiceOutstanding(s, inv) <= inv.amount + 0.005
  {
    var cols := Listed(s.collects, CollectionKeys, ByRef(inv.id));
    var rets := Listed(s.rets, ReturnKeys, ByRef(inv.id));
    MatchingFrom(s.collects.order, s.collects.rows, Accepting(CollectionKeys, ByRef(inv.id)));
    MatchingFrom(s.rets.order, s.rets.rows, Accepting(ReturnKeys, ByRef(inv.id)));
    forall c | c in cols ensures LiveAmount(c) >= 0.0 {
      assert c in Kept(s.collects, CollectionKeys, ByRef(inv.id));
    }
    forall r | r in rets ensures CreditedAmount(r) >= 0.0 {
      assert r in Kept(s.rets, ReturnKeys, ByRef(inv.id));
    }
    SumNonNegative(cols, LiveAmount);
    SumNonNegative(rets, CreditedAmount);
    RoundNear(Max(0.0, inv.amount - (SumOf(cols, LiveAmount) + SumOf(rets, CreditedAmount))));
  }

  /** The uncapped balance of an outlet. */
  function Owes(s: State, outletId: string): real
  {
    Tally(s.invoices, InvoiceKeys, ByOutlet(outletId), ConfirmedOutstanding)
  }

  ghost predicate OutletListFits(s: State, outletId: string)
  {
    |Kept(s.invoices, InvoiceKeys, ByOutlet(outletId))| <= LIST_LIMIT
  }

  ghost predicate OutstandingsAreCents(t: Table<Invoice>)
  {
    forall id :: id in t.rows ==> IsCents(t.rows[id].outstanding)
  }

  lemma CoherentOutstandings(s: State)
    requires Coherent(s)
    ensures OutstandingsAreCents(s.invoices)
  {
    forall id | id in s.invoices.rows ensures IsCents(s.invoices.rows[id].outstanding) {
      assert InvoiceCoherent(s, id);
      OutstandingIsCents(s, s.invoices.rows[id]);
    }
  }

  lemma OutletOutstandingIsOwes(s: State, outletId: string)
    requires OutstandingsAreCents(s.invoices) && OutletListFits(s, outletId)
    ensures OutletOutstanding(s, outletId) == Owes(s, outletId) && IsCents(Owes(s, outletId))
  {
    ZeroIsCents();
    ListedIsKept(s.invoices, InvoiceKeys, ByOutlet(outletId));
    TallyIsCents(s.invoices, InvoiceKeys, ByOutlet(outletId), ConfirmedOutstanding);
    RoundFixesCents(Owes(s, outletId));
  }

  lemma ShareOfOutlet(inv: Invoice, outletId: string)
    requires outletId != ""
    ensures Share(inv, InvoiceKeys, ByOutlet(outletId), ConfirmedOutstanding)
         == if inv.outletId == outletId then ConfirmedOutstanding(inv) else 0.0
  {
  }

  /** What the stored invoice already counted for. */
  function OwnDebt(existing: Option<Invoice>): real
  {
    if existing.Some? then ConfirmedOutstanding(existing.value) else 0.0
  }

  /** A supervisor answered: override asked for, with a reason, by someone who may. */
  predicate Overridden(d: Invoice, canOverride: bool)
  {
    d.creditOverride && d.overrideReason != "" && canOverride
  }

  /** The outlet is approved, and with what it owes besides this invoice the amount
      fits its limit unless a supervisor answered. */
  ghost predicate PassedGate(s: State, o: Outlet, amount: real, existing: Option<Invoice>, overridden: bool)
  {
    o.kycApproved
    && (overridden || OutletOutstanding(s, o.id) - OwnDebt(existing) + amount < o.creditLimit + 0.005)
  }

  lemma CreditCheckMeans(s: State, i: InvoiceInput, o: Outlet, existing: Option<Invoice>)
    requires CreditCheck(s, i, o, existing).Success?
    requires IsConfirmedInvoice(i.doc.status) && !IsCashTerms(EffectiveTerms(i.doc, o))
    ensures PassedGate(s, o, i.doc.amount, existing, Overridden(i.doc, i.canOverride))
  {
  }

  /** What the checks leave of a validated invoice: its fields, and the gate they passed. */
  lemma CreditCheckKeeps(s: State, i: InvoiceInput, o: Outlet, existing: Option<Invoice>, d1: Invoice, d: Invoice)
    requires CreditCheck(s, i, o, existing) == Success(d1) && SchemeCheck(s, d1, o) == Success(d)
    ensures d.amount == i.doc.amount && d.status == i.doc.status && d.outletId == i.doc.outletId
    ensures d.terms == EffectiveTerms(i.doc, o) && Overridden(d, i.canOverride) == Overridden(i.doc, i.canOverride)
  {
  }

  lemma ValidInvoicePassedGate(s: State, i: InvoiceInput, existing: Option<Invoice>, d: Invoice)
    requires ValidateInvoice(s, i, existing) == Success(d)
    requires IsConfirmedInvoice(d.status) && !IsCashTerms(d.terms)
    ensures FindOutlet(s.outlets, d.outletId).Some? && d.outletId != ""
    ensures PassedGate(s, FindOutlet(s.outlets, d.outletId).value, d.amount, existing, Overridden(d, i.canOverride))
  {
    var p := PricedInvoice(s, i.doc, existing).value;
    var o := FindOutlet(s.outlets, p.outletId).value;
    var priced := i.(doc := p);
    CreditCheckKeeps(s, priced, o, existing, CreditCheck(s, priced, o, existing).value, d);
    CreditCheckMeans(s, priced, o, existing);
  }

  lemma OwesAfterAdd(s: State, row: Invoice, outletId: string)
    requires WellFormed(s) && row.id == MintId("SINV", s.invoices.counter + 1) && outletId != ""
    ensures var settled := Settled(row, InvoiceOutstanding(s, row));
      Owes(AddInvoice(s, row), outletId)
        == Owes(s, outletId) + (if row.outletId == outletId then ConfirmedOutstanding(settled) else 0.0)
  {
    AddInvoiceFrame(s, row);
    var settled := Settled(row, InvoiceOutstanding(s, row));
    CreateValid(s.invoices, InvoiceId, "SINV", row);
    TallyInsert(Minted(s.invoices), row.id, settled, InvoiceKeys, ByOutlet(outletId), ConfirmedOutstanding);
    ShareOfOutlet(settled, outletId);
  }

  lemma OwesAfterReplace(s: State, cur: Invoice, row: Invoice, outletId: string)
    requires WellFormed(s) && row.id in s.invoices.rows && cur == s.invoices.rows[row.id] && outletId != ""
    ensures var settled := Settled(row, InvoiceOutstanding(s, row));
      Owes(ReplaceInvoice(s, cur, row), outletId)
        == Owes(s, outletId) - (if cur.outletId == outletId then ConfirmedOutstanding(cur) else 0.0)
         + (if row.outletId == outletId then ConfirmedOutstanding(settled) else 0.0)
  {
    ReplaceInvoiceFrame(s, cur, row);
    var settled := Settled(row, InvoiceOutstanding(s, row));
    TallyUpdate(s.invoices, row.id, settled, InvoiceKeys, ByOutlet(outletId), ConfirmedOutstanding);
    ShareOfOutlet(settled, outletId);
    ShareOfOutlet(cur, outletId);
  }

  /** Less than a cent over the limit is not over the limit. */
  lemma WithinLimit(balance: real, limit: real)
    requires IsCents(balance) && IsCents(limit) && balance < limit + 0.01
    ensures balance <= limit
  {
    CentsAdd(balance, limit);
    CentsGap(balance - limit);
  }

  /** What the gate leaves behind, on figures of any precision and, with a limit
      in cents, exactly. */
  ghost predicate GateHolds(t: State, o: Outlet, d: Invoice, canOverride: bool)
  {
    && o.kycApproved
    && (Overridden(d, canOverride)
        || (Owes(t, o.id) < o.creditLimit + 0.01 && (IsCents(o.creditLimit) ==> Owes(t, o.id) <= o.creditLimit)))
  }

  lemma GateFromSums(t: State, o: Outlet, d: Invoice, canOverride: bool)
    requires o.kycApproved && IsCents(Owes(t, o.id))
    requires Overridden(d, canOverride) || Owes(t, o.id) < o.creditLimit + 0.01
    ensures GateHolds(t, o, d, canOverride)
  {
    if IsCents(o.creditLimit) && Owes(t, o.id) < o.creditLimit + 0.01 {
      WithinLimit(Owes(t, o.id), o.creditLimit);
    }
  }

  /** The gate on a create: the balance the outlet row then shows is within the limit. */
  lemma CreateCreditGate(s: State, i: InvoiceInput, d: Invoice)
    requires WellFormed(s) && Coherent(s) && NoNegativePayments(s) && OutletListFits(s, d.outletId)
    requires ValidateInvoice(s, i, None) == Success(d) && IsConfirmedInvoice(d.status) && !IsCashTerms(d.terms)
    ensures FindOutlet(s.outlets, d.outletId).Some?
    ensures GateHolds(CreateInvoice(s, i).0, FindOutlet(s.outlets, d.outletId).value, d, i.canOverride)
  {
    ValidInvoicePassedGate(s, i, None, d);
    ValidInvoiceShape(s, i, None);
    CreatedInvoice(s, i, d);
    AddedGate(s, i, d, NewInvoice(s, d));
  }

  lemma AddedGate(s: State, i: InvoiceInput, d: Invoice, row: Invoice)
    requires WellFormed(s) && Coherent(s) && NoNegativePayments(s) && OutletListFits(s, d.outletId)
    requires row == NewInvoice(s, d) && d.outletId != "" && d.amount > 0.0
    requires FindOutlet(s.outlets, d.outletId).Some? && FindOutlet(s.outlets, d.outletId).value.kycApproved
    requires var o := FindOutlet(s.outlets, d.outletId).value;
      !Overridden(d, i.canOverride) ==> OutletOutstanding(s, o.id) + d.amount < o.creditLimit + 0.005
    ensures GateHolds(AddInvoice(s, row), FindOutlet(s.outlets, d.outletId).value, d, i.canOverride)
  {
    var o := FindOutlet(s.outlets, d.outletId).value;
    CoherentOutstandings(s);
    OutletOutstandingIsOwes(s, o.id);
    OwesAfterAdd(s, row, o.id);
    OutstandingAtMostAmount(s, row);
    OutstandingIsCents(s, row);
    CentsAdd(Owes(s, o.id), InvoiceOutstanding(s, row));
    GateFromSums(AddInvoice(s, row), o, d, i.canOverride);
  }

  /** The gate on an update that keeps the outlet: payments already made on the
      edited invoice are accounted for. */
  lemma UpdateCreditGate(s: State, id: string, i: InvoiceInput, d: Invoice)
    requires WellFormed(s) && Coherent(s) && NoNegativePayments(s) && OutletListFits(s, d.outletId)
    requires id in s.invoices.rows && ValidateInvoice(s, i, Some(s.invoices.rows[id])) == Success(d)
    requires IsConfirmedInvoice(d.status) && !IsCashTerms(d.terms) && d.outletId == s.invoices.rows[id].outletId
    ensures UpdateInvoice(s, id, i).1.Success?
    ensures FindOutlet(s.outlets, d.outletId).Some?
    ensures GateHolds(UpdateInvoice(s, id, i).0, FindOutlet(s.outlets, d.outletId).value, d, i.canOverride)
  {
    var cur := s.invoices.rows[id];
    assert InvoiceId(cur) == id;
    ValidInvoicePassedGate(s, i, Some(cur), d);
    ValidInvoiceShape(s, i, Some(cur));
    ReplacedGate(s, i, cur, d, d.(id := id));
  }

  lemma CentsSwap(total: real, out: real, back: real)
    requires IsCents(total) && IsCents(out) && IsCents(back)
    ensures IsCents(total - out + back)
  {
    CentsAdd(total, out);
    CentsAdd(total - out, back);
  }

  /** The balance after an edit that keeps the outlet. */
  lemma OwesAfterEdit(s: State, cur: Invoice, row: Invoice)
    requires WellFormed(s) && Coherent(s) && OutletListFits(s, row.outletId)
    requires row.id in s.invoices.rows && cur == s.invoices.rows[row.id]
    requires row.outletId == cur.outletId != "" && IsConfirmedInvoice(row.status)
    ensures var t := ReplaceInvoice(s, cur, row);
      && IsCents(Owes(t, row.outletId))
      && Owes(t, row.outletId)
           == OutletOutstanding(s, row.outletId) - ConfirmedOutstanding(cur) + InvoiceOutstanding(s, row)
  {
    ZeroIsCents();
    CoherentOutstandings(s);
    OutletOutstandingIsOwes(s, row.outletId);
    OwesAfterReplace(s, cur, row, row.outletId);
    OutstandingIsCents(s, row);
    CentsSwap(Owes(s, row.outletId), ConfirmedOutstanding(cur), InvoiceOutstanding(s, row));
  }

  lemma ReplacedGate(s: State, i: InvoiceInput, cur: Invoice, d: Invoice, row: Invoice)
    requires WellFormed(s) && Coherent(s) && NoNegativePayments(s) && OutletListFits(s, d.outletId)
    requires row.id in s.invoices.rows && cur == s.invoices.rows[row.id] && row == d.(id := row.id)
    requires d.outletId == cur.outletId != "" && d.amount > 0.0 && IsConfirmedInvoice(d.status)
    requires FindOutlet(s.outlets, d.outletId).Some? && FindOutlet(s.outlets, d.outletId).value.kycApproved
    requires var o := FindOutlet(s.outlets, d.outletId).value;
      !Overridden(d, i.canOverride) ==>
        OutletOutstanding(s, o.id) - ConfirmedOutstanding(cur) + d.amount < o.creditLimit + 0.005
    ensures GateHolds(ReplaceInvoice(s, cur, row), FindOutlet(s.outlets, d.outletId).value, d, i.canOverride)
  {
    var o := FindOutlet(s.outlets, d.outletId).value;
    OwesAfterEdit(s, cur, row);
    OutstandingAtMostAmount(s, row);
    GateFromSums(ReplaceInvoice(s, cur, row), o, d, i.canOverride);
  }

  /** The outlet row the caller reads afterwards carries that balance. */
  lemma GateSeenOnOutlet(t: State, outletId: string)
    requires WellFormed(t) && Coherent(t) && OutletListFits(t, outletId) && FindOutlet(t.outlets, outletId).Some?
    ensures FindOutlet(t.outlets, outletId).value.outstanding == Owes(t, outletId)
  {
    assert BalanceCoherent(t, FindOutlet(t.outlets, outletId).value);
    CoherentOutstandings(t);
    OutletOutstandingIsOwes(t, outletId);
  }

  /** The balance after an edit that moves the invoice here from another outlet. */
  lemma OwesAfterMove(s: State, cur: Invoice, row: Invoice)
    requires WellFormed(s) && Coherent(s) && OutletListFits(s, row.outletId)
    requires row.id in s.invoices.rows && cur == s.invoices.rows[row.id]
    requires row.outletId != cur.outletId && row.outletId != "" && IsConfirmedInvoice(row.status)
    ensures var t := ReplaceInvoice(s, cur, row);
      && IsCents(Owes(t, row.outletId))
      && Owes(t, row.outletId) == OutletOutstanding(s, row.outletId) + InvoiceOutstanding(s, row)
  {
    CoherentOutstandings(s);
    OutletOutstandingIsOwes(s, row.outletId);
    OwesAfterReplace(s, cur, row, row.outletId);
    OutstandingIsCents(s, row);
    CentsAdd(Owes(s, row.outletId), InvoiceOutstanding(s, row));
  }

  lemma GateFromBalance(t: State, o: Outlet, d: Invoice, canOverride: bool)
    requires o.kycApproved && IsCents(Owes(t, o.id)) && IsCents(o.creditLimit) && !Overridden(d, canOverride)
    ensures GateHolds(t, o, d, canOverride) <==> Owes(t, o.id) <= o.creditLimit
  {
  }

  /** A valid move of a confirmed invoice on credit is carried out. */
  lemma MoveCarriedOut(s: State, id: string, i: InvoiceInput, d: Invoice)
    requires Valid(s.invoices, InvoiceId, "SINV") && id in s.invoices.rows
    requires ValidateInvoice(s, i, Some(s.invoices.rows[id])) == Success(d)
    requires IsConfirmedInvoice(d.status) && !IsCashTerms(d.terms) && !Overridden(d, i.canOverride)
    ensures UpdateInvoice(s, id, i).1.Success?
    ensures UpdateInvoice(s, id, i).0 == ReplaceInvoice(s, s.invoices.rows[id], d.(id := id))
    ensures d.outletId != "" && FindOutlet(s.outlets, d.outletId).Some?
    ensures var o := FindOutlet(s.outlets, d.outletId).value; o.kycApproved && o.id == d.outletId
  {
    assert InvoiceId(s.invoices.rows[id]) == id;
    ValidInvoicePassedGate(s, i, Some(s.invoices.rows[id]), d);
  }

  /** An update that moves a confirmed invoice to another outlet is checked against that
      outlet's debt less what the invoice owed elsewhere. The limit holds afterwards
      exactly when the debt there and what the invoice will owe fit in it together. */
  lemma MovedInvoiceGateIff(s: State, id: string, i: InvoiceInput, d: Invoice)
    requires WellFormed(s) && Coherent(s) && OutletListFits(s, d.outletId)
    requires id in s.invoices.rows && ValidateInvoice(s, i, Some(s.invoices.rows[id])) == Success(d)
    requires IsConfirmedInvoice(d.status) && !IsCashTerms(d.terms) && !Overridden(d, i.canOverride)
    requires d.outletId != s.invoices.rows[id].outletId
    ensures UpdateInvoice(s, id, i).1.Success? && FindOutlet(s.outlets, d.outletId).Some?
    ensures var t, o := UpdateInvoice(s, id, i).0, FindOutlet(s.outlets, d.outletId).value;
      var due := OutletOutstanding(s, d.outletId) + Unpaid(d.amount, PaidOn(s, id));
      && Owes(t, d.outletId) == due
      && (IsCents(o.creditLimit) ==> (GateHolds(t, o, d, i.canOverride) <==> due <= o.creditLimit))
  {
    MoveCarriedOut(s, id, i, d);
    OwesAfterMove(s, s.invoices.rows[id], d.(id := id));
    var o := FindOutlet(s.outlets, d.outletId).value;
    if IsCents(o.creditLimit) {
      GateFromBalance(ReplaceInvoice(s, s.invoices.rows[id], d.(id := id)), o, d, i.canOverride);
    }
  }

  // ---- no payment is negative ------------------------------------------------------------

  /** Neither payments nor invoice amounts are negative. */
  ghost predicate NoNegatives(s: State)
  {
    NoNegativePayments(s) && forall id :: id in s.invoices.rows ==> s.invoices.rows[id].amount > 0.0
  }

  /** A return credited by hand is credited a figure that is not negative. */
  predicate CreditTyped(op: Op)
  {
    match op
    case OpCreateReturn(r) => r.status == Credited ==> r.credit >= 0.0
    case OpUpdateReturn(_, r) => r.status == Credited ==> r.credit >= 0.0
    case _ => true
  }

  lemma RefreshNoNegatives(s: State, id: string)
    requires WellFormed(s) && NoNegatives(s)
    ensures NoNegatives(RefreshInvoice(s, id)) && WellFormed(RefreshInvoice(s, id))
  {
    RefreshInvoiceFrame(s, id);
    RefreshInvoiceWellFormed(s, id);
  }

  lemma InvoiceCallNoNegatives(s: State, op: Op)
    requires WellFormed(s) && NoNegatives(s)
    requires op.OpCreateInvoice? || op.OpUpdateInvoice? || op.OpDeleteInvoice?
    ensures NoNegatives(Step(s, op))
  {
    match op
    case OpCreateInvoice(i) => CreateInvoiceNoNegatives(s, i);
    case OpUpdateInvoice(x, i) => UpdateInvoiceNoNegatives(s, x, i);
    case OpDeleteInvoice(x) =>
      if DeleteInvoice(s, x).1.Success? {
        RefreshOutletFrame(s.(invoices := Deleted(s.invoices, x)), s.invoices.rows[x].outletId);
      }
  }

  lemma CreateInvoiceNoNegatives(s: State, i: InvoiceInput)
    requires WellFormed(s) && NoNegatives(s)
    ensures NoNegatives(CreateInvoice(s, i).0)
  {
    if ValidateInvoice(s, i, None).Success? {
      var d := ValidateInvoice(s, i, None).value;
      ValidInvoiceShape(s, i, None);
      CreatedInvoice(s, i, d);
      AddInvoiceFrame(s, NewInvoice(s, d));
    }
  }

  lemma UpdateInvoiceNoNegatives(s: State, x: string, i: InvoiceInput)
    requires WellFormed(s) && NoNegatives(s)
    ensures NoNegatives(UpdateInvoice(s, x, i).0)
  {
    if UpdateInvoice(s, x, i).1.Success? {
      ValidInvoiceShape(s, i, Some(s.invoices.rows[x]));
      UpdatedInvoiceRow(s, x, i);
    }
  }

  lemma CreateCollectionNoNegatives(s: State, c: Collection)
    requires WellFormed(s) && NoNegatives(s)
    ensures NoNegatives(CreateCollection(s, c).0)
  {
    if CreateCollection(s, c).1.Success? {
      var row := CreateCollection(s, c).1.value;
      CreatedRow(s, c, row);
      AcceptedShape(s, c, None, row.(id := c.id));
      CreateValid(s.collects, CollectionId, "COL", row);
      RefreshNoNegatives(WithCollection(s, row), c.invoiceId);
    }
  }

  lemma UpdateCollectionNoNegatives(s: State, x: string, c: Collection)
    requires WellFormed(s) && NoNegatives(s)
    ensures NoNegatives(UpdateCollection(s, x, c).0)
  {
    if UpdateCollection(s, x, c).1.Success? {
      var row, cur := UpdateCollection(s, x, c).1.value, s.collects.rows[x];
      UpdatedRow(s, x, c, row);
      AcceptedShape(s, DefaultedCollection(c, cur), Some(cur), row.(id := c.id));
      RecollectedConfirmed(s, x, c, row);
      RefreshNoNegatives(Recollected(s, row), row.invoiceId);
      RefreshNoNegatives(RefreshInvoice(Recollected(s, row), row.invoiceId), cur.invoiceId);
    }
  }

  lemma DeleteCollectionNoNegatives(s: State, x: string)
    requires WellFormed(s) && NoNegatives(s)
    ensures NoNegatives(DeleteCollection(s, x).0)
  {
    if DeleteCollection(s, x).1.Success? {
      DeleteValid(s.collects, CollectionId, "COL", x);
      RefreshNoNegatives(s.(collects := Deleted(s.collects, x)), s.collects.rows[x].invoiceId);
    }
  }

  lemma NamedNoNegatives(s: State, id: string)
    requires WellFormed(s) && NoNegatives(s)
    ensures NoNegatives(RefreshNamed(s, id)) && WellFormed(RefreshNamed(s, id))
  {
    if id != "" {
      RefreshNoNegatives(s, id);
    }
  }

  /** What an accepted return is credited is not negative, typed or worked out. */
  lemma ValidCreditNotNegative(s: State, r: OutletReturn, d: OutletReturn)
    requires NoNegatives(s) && ValidateReturn(s, r) == Success(d) && (r.status == Credited ==> r.credit >= 0.0)
    ensures d.status == Credited ==> d.credit >= 0.0
  {
    ValidReturnCredit(s, r, d);
    if d.credit != r.credit {
      ProRataSound(s.invoices.rows[r.invoiceId], r.quantity);
    }
  }

  lemma CreateReturnNoNegatives(s: State, r: OutletReturn)
    requires WellFormed(s) && NoNegatives(s) && (r.status == Credited ==> r.credit >= 0.0)
    ensures NoNegatives(CreateReturn(s, r).0)
  {
    if CreateReturn(s, r).1.Success? {
      var row := CreateReturn(s, r).1.value;
      ValidCreditNotNegative(s, r, ValidateReturn(s, r).value);
      CreateValid(s.rets, ReturnId, "RET", row);
      NamedNoNegatives(s.(rets := Inserted(Minted(s.rets), row.id, row)), row.invoiceId);
    }
  }

  lemma UpdateReturnNoNegatives(s: State, x: string, r: OutletReturn)
    requires WellFormed(s) && NoNegatives(s) && (r.status == Credited ==> r.credit >= 0.0)
    ensures NoNegatives(UpdateReturn(s, x, r).0)
  {
    if UpdateReturn(s, x, r).1.Success? {
      var row, cur := UpdateReturn(s, x, r).1.value, s.rets.rows[x];
      assert ReturnId(cur) == x;
      ValidCreditNotNegative(s, r, ValidateReturn(s, r).value);
      UpdateValid(s.rets, ReturnId, "RET", row);
      NamedNoNegatives(s.(rets := Updated(s.rets, x, row)), row.invoiceId);
      NamedNoNegatives(RefreshNamed(s.(rets := Updated(s.rets, x, row)), row.invoiceId), cur.invoiceId);
    }
  }

  lemma DeleteReturnNoNegatives(s: State, x: string)
    requires WellFormed(s) && NoNegatives(s)
    ensures NoNegatives(DeleteReturn(s, x).0)
  {
    if DeleteReturn(s, x).1.Success? {
      DeleteValid(s.rets, ReturnId, "RET", x);
      NamedNoNegatives(s.(rets := Deleted(s.rets, x)), s.rets.rows[x].invoiceId);
    }
  }

  lemma StepNoNegatives(s: State, op: Op)
    requires WellFormed(s) && NoNegatives(s) && CreditTyped(op)
    ensures NoNegatives(Step(s, op))
  {
    match op
    case OpCreateInvoice(_) => InvoiceCallNoNegatives(s, op);
    case OpUpdateInvoice(_, _) => InvoiceCallNoNegatives(s, op);
    case OpDeleteInvoice(_) => InvoiceCallNoNegatives(s, op);
    case OpCreateCollection(c) => CreateCollectionNoNegatives(s, c);
    case OpUpdateCollection(x, c) => UpdateCollectionNoNegatives(s, x, c);
    case OpDeleteCollection(x) => DeleteCollectionNoNegatives(s, x);
    case OpCreateReturn(r) => CreateReturnNoNegatives(s, r);
    case OpUpdateReturn(x, r) => UpdateReturnNoNegatives(s, x, r);
    case OpDeleteReturn(x) => DeleteReturnNoNegatives(s, x);
    case _ => OtherCallsBooks(s, op);
  }

  /** Over every run in which no negative credit is typed, no payment is negative. */
  lemma {:induction false} NoNegativesOverRuns(s: State, ops: seq<Op>)
    requires WellFormed(s) && Coherent(s) && NoNegatives(s) && forall k :: 0 <= k < |ops| ==> CreditTyped(ops[k])
    ensures NoNegatives(Run(s, ops))
    decreases |ops|
  {
    if ops != [] {
      StepNoNegatives(s, ops[0]);
      StepCoherent(s, ops[0]);
      NoNegativesOverRuns(Step(s, ops[0]), ops[1..]);
    }
  }
}
