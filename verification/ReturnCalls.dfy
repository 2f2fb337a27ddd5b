/** What a return call does with the form it is given, said on the caller's own fields. */
module ReturnCalls {
  import opened Coherence
  import opened Ids
  import opened Ledger
  import opened Money
  import opened Tables
  import opened Wrappers

  /** Goods that go back into stock, and goods that are written off. */
  const RESTOCKED: set<string> := {"unsold-slow-mover", "other"}
  const SPOILT: set<string> := {"expired", "damaged-in-transit", "quality-complaint"}

  /** The outlet typed, or that of the invoice named. */
  function FromOutlet(s: State, r: OutletReturn): string
  {
    if r.outletId == "" && r.invoiceId in s.invoices.rows && r.invoiceId != ""
    then s.invoices.rows[r.invoiceId].outletId else r.outletId
  }

  function OntoLoad(s: State, r: OutletReturn): string
  {
    if r.vanLoadId == "" && r.invoiceId in s.invoices.rows && r.invoiceId != ""
    then s.invoices.rows[r.invoiceId].vanLoadId else r.vanLoadId
  }

  ghost predicate OutletKnown(s: State, id: string)
  {
    id != "" && exists o :: o in s.outlets && o.id == id
  }

  ghost predicate Acceptable(s: State, r: OutletReturn)
  {
    && r.reason in RESTOCKED + SPOILT && r.quantity > 0.0
    && (r.invoiceId == "" || r.invoiceId in s.invoices.rows) && OutletKnown(s, FromOutlet(s, r))
  }

  /** The credit typed, or with none typed the returned part of the invoice's amount. */
  ghost predicate CreditFor(s: State, r: OutletReturn, credit: real)
  {
    if r.credit <= 0.0 && r.invoiceId != "" && r.invoiceId in s.invoices.rows
       && s.invoices.rows[r.invoiceId].quantity > 0.0
    then RoundsTo(s.invoices.rows[r.invoiceId].amount / s.invoices.rows[r.invoiceId].quantity * r.quantity, credit)
    else credit == r.credit
  }

  ghost predicate KeptAs(s: State, r: OutletReturn, id: string, row: OutletReturn)
  {
    && row == OutletReturn(id, FromOutlet(s, r), r.invoiceId, OntoLoad(s, r), r.quantity, r.reason,
                           if r.reason in RESTOCKED then StockReceipt else WriteOff, row.credit,
                           if r.status == Blank then Received else r.status)
    && CreditFor(s, r, row.credit)
  }

  lemma ProRataMeans(inv: Invoice, quantity: real)
    requires inv.quantity > 0.0
    ensures RoundsTo(inv.amount / inv.quantity * quantity, ProRata(inv, quantity))
  {
    RoundMeans(AtPrice(PriceOf(inv), quantity), ProRata(inv, quantity));
  }

  lemma Inherited(s: State, r: OutletReturn)
    requires r.invoiceId != "" && r.invoiceId in s.invoices.rows
    ensures var d := FromInvoice(r, s.invoices.rows[r.invoiceId]);
      && d == r.(outletId := FromOutlet(s, r), vanLoadId := OntoLoad(s, r), credit := d.credit)
      && CreditFor(s, r, d.credit)
  {
    if s.invoices.rows[r.invoiceId].quantity > 0.0 {
      ProRataMeans(s.invoices.rows[r.invoiceId], r.quantity);
    }
  }

  /** Whether the form was completed does not depend on the fields filled in first. */
  lemma SameForm(s: State, r: OutletReturn, status: Status, disposition: Disposition)
    ensures var d := r.(status := status, disposition := disposition);
      && FromOutlet(s, d) == FromOutlet(s, r) && OntoLoad(s, d) == OntoLoad(s, r)
      && forall credit :: CreditFor(s, d, credit) <==> CreditFor(s, r, credit)
  {
  }

  lemma Checked(s: State, r: OutletReturn)
    ensures var v := ValidateReturn(s, r);
      && (v.Success? <==> Acceptable(s, r)) && (v.Failure? ==> v.error == Invalid)
      && (v.Success? ==> KeptAs(s, r, r.id, v.value))
  {
    if DispositionOf(r.reason).Some? && r.invoiceId != "" && r.invoiceId in s.invoices.rows {
      var status := if r.status == Blank then Received else r.status;
      SameForm(s, r, status, DispositionOf(r.reason).value);
      Inherited(s, r.(status := status, disposition := DispositionOf(r.reason).value));
    }
  }

  // ---- the calls --------------------------------------------------------------------------------

  lemma RefreshNamedFrame(s: State, id: string)
    requires WellFormed(s)
    ensures SameBut(s, RefreshNamed(s, id)) && WellFormed(RefreshNamed(s, id))
  {
    if id != "" {
      RefreshInvoiceFrame(s, id);
      RefreshInvoiceWellFormed(s, id);
    }
  }

  /** A return is accepted exactly if its reason is one of the five, something comes back,
      the invoice named exists and the outlet, typed or the invoice's, is known. */
  lemma CreateVerdict(s: State, r: OutletReturn)
    requires WellFormed(s)
    ensures var (t, v), id := CreateReturn(s, r), MintId("RET", s.rets.counter + 1);
      && (v.Success? <==> Acceptable(s, r)) && (v.Failure? ==> v.error == Invalid && t == s)
      && (v.Success? ==>
            && KeptAs(s, r, id, v.value) && t.collects == s.collects && t.loads == s.loads
            && t.rets == Table(s.rets.rows[id := v.value], s.rets.order + [id], s.rets.counter + 1))
  {
    Checked(s, r);
    if CreateReturn(s, r).1.Success? {
      var row := CreateReturn(s, r).1.value;
      CreateValid(s.rets, ReturnId, "RET", row);
      RefreshNamedFrame(s.(rets := Inserted(Minted(s.rets), row.id, row)), row.invoiceId);
    }
  }

  /** A credited return keeps its quantity and a typed credit, unless it is cancelled. */
  predicate RewritesCredit(cur: OutletReturn, r: OutletReturn)
  {
    && cur.status == Credited && r.status != Cancelled
    && (Round2(r.quantity) != Round2(cur.quantity) || (r.credit > 0.0 && Round2(r.credit) != Round2(cur.credit)))
  }

  lemma UpdateVerdict(s: State, id: string, r: OutletReturn)
    requires WellFormed(s)
    ensures var (t, v) := UpdateReturn(s, id, r);
      && (v == Failure(NotFound) <==> id !in s.rets.rows) && (v.Failure? ==> t == s)
      && (id in s.rets.rows ==>
            && (v == Failure(Conflict) <==> RewritesCredit(s.rets.rows[id], r))
            && (v.Success? <==> !RewritesCredit(s.rets.rows[id], r) && Acceptable(s, r))
            && (v.Success? ==>
                  && KeptAs(s, r, id, v.value) && t.collects == s.collects && t.loads == s.loads
                  && t.rets == s.rets.(rows := s.rets.rows[id := v.value])))
  {
    if id in s.rets.rows {
      assert ReturnId(s.rets.rows[id]) == id;
      Checked(s, r);
      if UpdateReturn(s, id, r).1.Success? {
        UpdateStored(s, id, r);
      }
    }
  }

  lemma UpdateStored(s: State, id: string, r: OutletReturn)
    requires WellFormed(s) && UpdateReturn(s, id, r).1.Success?
    ensures var (t, v) := UpdateReturn(s, id, r);
      && ValidateReturn(s, r).Success? && v.value == ValidateReturn(s, r).value.(id := id)
      && t.collects == s.collects && t.loads == s.loads && t.rets == s.rets.(rows := s.rets.rows[id := v.value])
  {
    var row := UpdateReturn(s, id, r).1.value;
    assert ReturnId(s.rets.rows[id]) == id;
    var t := s.(rets := Updated(s.rets, id, row));
    UpdateValid(s.rets, ReturnId, "RET", row);
    RefreshNamedFrame(t, row.invoiceId);
    RefreshNamedFrame(RefreshNamed(t, row.invoiceId), s.rets.rows[id].invoiceId);
  }

  /** A credited return is not deleted. */
  lemma DeleteVerdict(s: State, id: string)
    requires WellFormed(s)
    ensures var (t, v) := DeleteReturn(s, id);
      && (v == Failure(NotFound) <==> id !in s.rets.rows)
      && (v == Failure(Conflict) <==> id in s.rets.rows && s.rets.rows[id].status == Credited)
      && v != Failure(Invalid) && (v.Failure? ==> t == s)
      && (v.Success? ==> t.rets.rows == s.rets.rows - {id} && t.collects == s.collects && t.loads == s.loads)
  {
    if DeleteReturn(s, id).1.Success? {
      DeleteValid(s.rets, ReturnId, "RET", id);
      RefreshNamedFrame(s.(rets := Deleted(s.rets, id)), s.rets.rows[id].invoiceId);
    }
  }

  /** What was credited stands: through an accepted edit that does not cancel it a
      credited return keeps its quantity, and its credit unless the form leaves that
      blank, to the hundredth. */
  lemma CreditedStands(s: State, id: string, r: OutletReturn)
    requires WellFormed(s) && id in s.rets.rows && s.rets.rows[id].status == Credited
    requires UpdateReturn(s, id, r).1.Success? && r.status != Cancelled
    ensures var was, now := s.rets.rows[id], UpdateReturn(s, id, r).1.value;
      && Round2(now.quantity) == Round2(was.quantity)
      && (r.credit > 0.0 ==> Round2(now.credit) == Round2(was.credit))
  {
    UpdateVerdict(s, id, r);
  }
}
