/** Returning an invoice in pieces credits its amount, up to half a cent a piece. */
module SplitReturns {
  import opened Coherence
  import opened Ids
  import opened Ledger
  import opened Money
  import opened Payments
  import opened TableLemmas
  import opened Tables
  import opened Wrappers

  function ReturnQuantity(r: OutletReturn): real { r.quantity }
  function ReturnCredit(r: OutletReturn): real { r.credit }

  lemma DefaultedByValidation(s: State, r: OutletReturn, d: OutletReturn)
    requires ValidateReturn(s, r) == Success(d) && r.credit <= 0.0 && r.invoiceId in s.invoices.rows
    requires r.invoiceId != ""
    requires s.invoices.rows[r.invoiceId].quantity > 0.0
    ensures d.credit == ProRata(s.invoices.rows[r.invoiceId], r.quantity) && d.invoiceId == r.invoiceId
    ensures d.quantity == r.quantity
  {
  }

  /** n half-cents. */
  function Slack(n: nat): real
  {
    n as real * 0.005
  }

  ghost predicate Within(a: real, b: real, slack: real)
  {
    -slack <= a - b <= slack
  }

  lemma AtPriceAdds(price: real, a: real, b: real)
    ensures AtPrice(price, a + b) == AtPrice(price, a) + AtPrice(price, b)
  {
  }

  lemma OneMorePiece(credits: real, worth: real, credit: real, q: real, n: nat)
    requires Within(credits, worth, Slack(n)) && credit == Round2(q)
    ensures Within(credits + credit, worth + q, Slack(n + 1))
  {
  }

  ghost predicate CreditedAt(price: real, rets: seq<OutletReturn>)
  {
    forall r :: r in rets ==> r.credit == Round2(AtPrice(price, r.quantity))
  }

  /** Each piece is off by at most half a cent. */
  lemma {:induction false} PiecesCredit(price: real, rets: seq<OutletReturn>)
    requires CreditedAt(price, rets)
    ensures Within(SumOf(rets, ReturnCredit), AtPrice(price, SumOf(rets, ReturnQuantity)), Slack(|rets|))
  {
    if rets != [] {
      var n := |rets| - 1;
      var init, last := rets[..n], rets[n];
      assert last in rets;
      PiecesCredit(price, init);
      OneMorePiece(SumOf(init, ReturnCredit), AtPrice(price, SumOf(init, ReturnQuantity)),
                   last.credit, AtPrice(price, last.quantity), n);
      AtPriceAdds(price, SumOf(init, ReturnQuantity), last.quantity);
    }
  }

  lemma WholeAtPrice(inv: Invoice)
    requires inv.quantity > 0.0
    ensures AtPrice(PriceOf(inv), inv.quantity) == inv.amount
  {
  }

  /** Every listed return of the invoice carries the credit the service worked out. */
  ghost predicate CreditedByDefault(s: State, inv: Invoice)
    requires inv.quantity > 0.0
  {
    forall r :: r in Kept(s.rets, ReturnKeys, ByRef(inv.id)) ==>
      r.status == Credited && r.credit == ProRata(inv, r.quantity)
  }

  /** ... and together they hand all of it back. */
  ghost predicate FullyReturned(s: State, inv: Invoice)
  {
    && inv.quantity > 0.0
    && CreditedByDefault(s, inv)
    && SumOf(Kept(s.rets, ReturnKeys, ByRef(inv.id)), ReturnQuantity) == inv.quantity
  }

  lemma ReturnsCredit(s: State, inv: Invoice)
    requires FullyReturned(s, inv)
    ensures Within(Credits(s, inv.id), inv.amount, Slack(|Kept(s.rets, ReturnKeys, ByRef(inv.id))|))
  {
    var rets := Kept(s.rets, ReturnKeys, ByRef(inv.id));
    assert forall r :: r in rets ==> r.credit == Round2(AtPrice(PriceOf(inv), r.quantity));
    PiecesCredit(PriceOf(inv), rets);
    WholeAtPrice(inv);
    SumSame(rets, CreditedAmount, ReturnCredit);
  }

  lemma LeftWithin(amount: real, live: real, credits: real, slack: real)
    requires Within(credits, amount, slack) && live == 0.0 && slack >= 0.0
    ensures Round2(Max(0.0, amount - live - credits)) <= Round2(slack)
  {
    RoundMonotone(Max(0.0, amount - live - credits), slack);
  }

  /** n pieces that add up to the whole quantity credit the amount to within n
      half-cents, so with nothing collected that is all that can stay owed. */
  lemma SplitReturnsSettle(s: State, inv: Invoice)
    requires FullyReturned(s, inv) && InvoiceListsFit(s, inv.id) && Live(s, inv.id) == 0.0
    ensures var slack := Slack(|Kept(s.rets, ReturnKeys, ByRef(inv.id))|);
      Within(Credits(s, inv.id), inv.amount, slack) && InvoiceOutstanding(s, inv) <= Round2(slack)
  {
    var slack := Slack(|Kept(s.rets, ReturnKeys, ByRef(inv.id))|);
    ReturnsCredit(s, inv);
    OutstandingMeans(s, inv);
    LeftWithin(inv.amount, Live(s, inv.id), Credits(s, inv.id), slack);
    RoundNear(slack);
  }

  // ---- as calls ------------------------------------------------------------------

  /** The invoice as it was agreed: refreshing touches neither terms nor confirmation. */
  ghost predicate SameTerms(inv: Invoice, was: Invoice)
  {
    && inv.id == was.id && inv.amount == was.amount && inv.quantity == was.quantity
    && IsConfirmedInvoice(inv.status) == IsConfirmedInvoice(was.status)
  }

  lemma SumHead(r: OutletReturn, rets: seq<OutletReturn>)
    ensures SumOf([r] + rets, ReturnQuantity) == r.quantity + SumOf(rets, ReturnQuantity)
  {
    SumConcat([r], rets, ReturnQuantity);
    SumOne(r, ReturnQuantity);
  }

  /** A piece as the form sends it: credited, with the credit left to the service. */
  predicate Piece(r: OutletReturn, inv: Invoice)
  {
    r.invoiceId == inv.id && r.status == Credited && r.credit <= 0.0
  }

  /** What the call stores for a piece. */
  lemma StoredPiece(s: State, inv: Invoice, r: OutletReturn)
    requires WellFormed(s) && inv.id in s.invoices.rows && SameTerms(s.invoices.rows[inv.id], inv)
    requires inv.quantity > 0.0 && Piece(r, inv) && CreateReturn(s, r).1.Success?
    ensures var row := CreateReturn(s, r).1.value;
      && row.invoiceId == inv.id && row.status == Credited && row.quantity == r.quantity
      && row.credit == ProRata(inv, row.quantity) && row.id == MintId("RET", s.rets.counter + 1)
      && CreateReturn(s, r).0 == RefreshInvoice(s.(rets := Inserted(Minted(s.rets), row.id, row)), inv.id)
  {
    assert "" !in s.invoices.rows;
    DefaultedByValidation(s, r, ValidateReturn(s, r).value);
    assert ProRata(s.invoices.rows[inv.id], r.quantity) == ProRata(inv, r.quantity);
  }

  lemma OnePiece(s: State, inv: Invoice, r: OutletReturn)
    requires WellFormed(s) && inv.id in s.invoices.rows && SameTerms(s.invoices.rows[inv.id], inv)
    requires inv.quantity > 0.0 && Piece(r, inv) && CreateReturn(s, r).1.Success? && CreditedByDefault(s, inv)
    ensures var t := CreateReturn(s, r).0;
      && t.collects == s.collects && CreditedByDefault(t, inv)
      && inv.id in t.invoices.rows && SameTerms(t.invoices.rows[inv.id], inv)
      && |Kept(t.rets, ReturnKeys, ByRef(inv.id))| == |Kept(s.rets, ReturnKeys, ByRef(inv.id))| + 1
      && SumOf(Kept(t.rets, ReturnKeys, ByRef(inv.id)), ReturnQuantity)
           == r.quantity + SumOf(Kept(s.rets, ReturnKeys, ByRef(inv.id)), ReturnQuantity)
  {
    StoredPiece(s, inv, r);
    var row := CreateReturn(s, r).1.value;
    var mid := s.(rets := Inserted(Minted(s.rets), row.id, row));
    RefreshInvoiceFrame(mid, inv.id);
    SettledTerms(mid.invoices.rows[inv.id], InvoiceOutstanding(mid, mid.invoices.rows[inv.id]));
    CreateValid(s.rets, ReturnId, "RET", row);
    KeptInsert(Minted(s.rets), row.id, row, ReturnKeys, ByRef(inv.id));
    SumHead(row, Kept(s.rets, ReturnKeys, ByRef(inv.id)));
  }

  lemma SettledTerms(inv: Invoice, owed: real)
    ensures SameTerms(Settled(inv, owed), inv)
  {
  }

  function AfterReturns(s: State, rs: seq<OutletReturn>): State
    decreases |rs|
  {
    if rs == [] then s else AfterReturns(CreateReturn(s, rs[0]).0, rs[1..])
  }

  predicate AllAccepted(s: State, rs: seq<OutletReturn>)
    decreases |rs|
  {
    rs == [] || (CreateReturn(s, rs[0]).1.Success? && AllAccepted(CreateReturn(s, rs[0]).0, rs[1..]))
  }

  function TotalOf(rs: seq<OutletReturn>): real
    decreases |rs|
  {
    if rs == [] then 0.0 else rs[0].quantity + TotalOf(rs[1..])
  }

  lemma {:induction false} PiecesAddUp(s: State, inv: Invoice, rs: seq<OutletReturn>)
    requires WellFormed(s) && Coherent(s) && inv.id in s.invoices.rows && SameTerms(s.invoices.rows[inv.id], inv)
    requires inv.quantity > 0.0 && CreditedByDefault(s, inv)
    requires (forall r :: r in rs ==> Piece(r, inv)) && AllAccepted(s, rs)
    ensures var t := AfterReturns(s, rs);
      && Coherent(t) && t.collects == s.collects && CreditedByDefault(t, inv)
      && inv.id in t.invoices.rows && SameTerms(t.invoices.rows[inv.id], inv)
      && |Kept(t.rets, ReturnKeys, ByRef(inv.id))| == |Kept(s.rets, ReturnKeys, ByRef(inv.id))| + |rs|
      && SumOf(Kept(t.rets, ReturnKeys, ByRef(inv.id)), ReturnQuantity)
           == TotalOf(rs) + SumOf(Kept(s.rets, ReturnKeys, ByRef(inv.id)), ReturnQuantity)
    decreases |rs|
  {
    if rs != [] {
      OnePiece(s, inv, rs[0]);
      CreateReturnCoherent(s, rs[0]);
      PiecesAddUp(CreateReturn(s, rs[0]).0, inv, rs[1..]);
    }
  }

  /** Sending an uncollected confirmed invoice back in n accepted pieces that add up
      to its quantity leaves at most n half-cents, rounded, on the stored invoice. */
  lemma ReturningInPiecesSettles(s: State, inv: Invoice, rs: seq<OutletReturn>)
    requires WellFormed(s) && Coherent(s) && inv.id in s.invoices.rows && s.invoices.rows[inv.id] == inv
    requires inv.quantity > 0.0 && IsConfirmedInvoice(inv.status)
    requires Kept(s.rets, ReturnKeys, ByRef(inv.id)) == [] && Live(s, inv.id) == 0.0
    requires |Kept(s.collects, CollectionKeys, ByRef(inv.id))| <= LIST_LIMIT && |rs| <= LIST_LIMIT
    requires (forall r :: r in rs ==> Piece(r, inv)) && AllAccepted(s, rs) && TotalOf(rs) == inv.quantity
    ensures var t := AfterReturns(s, rs);
      inv.id in t.invoices.rows && 0.0 <= t.invoices.rows[inv.id].outstanding <= Round2(Slack(|rs|))
  {
    PiecesAddUp(s, inv, rs);
    var t := AfterReturns(s, rs);
    var now := t.invoices.rows[inv.id];
    assert InvoiceCoherent(t, inv.id);
    OutstandingIsCents(t, now);
    SameTermsSameOutstanding(t, now, inv);
    assert Live(t, inv.id) == Live(s, inv.id);
    SplitReturnsSettle(t, inv);
  }

  lemma SameTermsSameOutstanding(t: State, a: Invoice, b: Invoice)
    requires SameTerms(a, b)
    ensures InvoiceOutstanding(t, a) == InvoiceOutstanding(t, b)
  {
  }
}
