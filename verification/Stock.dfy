/** What the van guard means: confirmed sales never outgrow what was put on the van. */
module Stock {
  import opened Coherence
  import Fefo
  import opened Ids
  import opened Ledger
  import opened Money
  import opened Payments
  import opened TableLemmas
  import opened Tables
  import opened Wrappers

  /** Confirmed quantity invoiced against a load, over the whole table. */
  function Sold(s: State, loadId: string): real
  {
    Tally(s.invoices, InvoiceKeys, ByRef(loadId), ConfirmedQuantity)
  }

  /** Quantity outlets have put back on it. */
  function Back(s: State, loadId: string): real
  {
    Tally(s.rets, ReturnKeys, EVERYTHING, BackOn(loadId))
  }

  function LoadedOn(s: State, loadId: string): real
  {
    if loadId in s.loads.rows then s.loads.rows[loadId].quantity else 0.0
  }

  /** Loaded plus returned less sold; negative when the van is oversold. */
  function Free(s: State, loadId: string): real
  {
    LoadedOn(s, loadId) + Back(s, loadId) - Sold(s, loadId)
  }

  /** The service lists one load's invoices at a time, but all returns at once. */
  ghost predicate LoadListsFit(s: State, v: string)
  {
    |Kept(s.invoices, InvoiceKeys, ByRef(v))| <= LIST_LIMIT && |Kept(s.rets, ReturnKeys, EVERYTHING)| <= LIST_LIMIT
  }

  ghost predicate Countable(q: real)
  {
    q >= 0.0 && IsCents(q)
  }

  /** A confirmed sale from the load. */
  predicate SoldFrom(inv: Invoice, v: string)
  {
    inv.vanLoadId == v && IsConfirmedInvoice(inv.status)
  }

  predicate ReturnedTo(r: OutletReturn, v: string)
  {
    r.vanLoadId == v && r.status != Cancelled
  }

  /** What was loaded, sold and sent back are non-negative hundredths. */
  ghost predicate Countables(s: State, v: string)
  {
    && (forall id :: id in s.invoices.rows && SoldFrom(s.invoices.rows[id], v) ==>
          Countable(s.invoices.rows[id].quantity))
    && (forall id :: id in s.rets.rows && ReturnedTo(s.rets.rows[id], v) ==> Countable(s.rets.rows[id].quantity))
    && (v in s.loads.rows ==> Countable(s.loads.rows[v].quantity))
  }

  lemma TalliesCountable(s: State, v: string)
    requires Countables(s, v) && v != ""
    ensures Countable(Sold(s, v)) && Countable(Back(s, v)) && IsCents(LoadedOn(s, v)) && IsCents(Free(s, v))
  {
    ZeroIsCents();
    TallyIsCents(s.invoices, InvoiceKeys, ByRef(v), ConfirmedQuantity);
    TallyNonNegative(s.invoices, InvoiceKeys, ByRef(v), ConfirmedQuantity);
    TallyIsCents(s.rets, ReturnKeys, EVERYTHING, BackOn(v));
    TallyNonNegative(s.rets, ReturnKeys, EVERYTHING, BackOn(v));
    CentsAdd(LoadedOn(s, v), Back(s, v));
    CentsAdd(LoadedOn(s, v) + Back(s, v), Sold(s, v));
  }

  /** The service's own sums are these tallies. */
  lemma VanSumsExact(s: State, v: string)
    requires Countables(s, v) && LoadListsFit(s, v) && v != ""
    ensures VanSold(s, v) == Sold(s, v) && VanReturned(s, v) == Back(s, v)
  {
    TalliesCountable(s, v);
    ListedIsKept(s.invoices, InvoiceKeys, ByRef(v));
    ListedIsKept(s.rets, ReturnKeys, EVERYTHING);
    RoundFixesCents(Sold(s, v));
    RoundFixesCents(Back(s, v));
  }

  lemma OnHandIsFree(s: State, v: string)
    requires Countables(s, v) && LoadListsFit(s, v) && v in s.loads.rows && v != ""
    ensures VanOnHand(s, v).Success? && VanOnHand(s, v).value == Max(0.0, Free(s, v))
    ensures IsCents(VanOnHand(s, v).value)
  {
    VanSumsExact(s, v);
    TalliesCountable(s, v);
    ZeroIsCents();
    var x := Max(0.0, s.loads.rows[v].quantity - VanSold(s, v) + VanReturned(s, v));
    assert x == Max(0.0, Free(s, v));
    RoundFixesCents(x);
  }

  // ---- refreshes do not move stock ---------------------------------------------

  lemma ShareOfInvoice(inv: Invoice, v: string)
    requires v != ""
    ensures Share(inv, InvoiceKeys, ByRef(v), ConfirmedQuantity)
         == if inv.vanLoadId == v && IsConfirmedInvoice(inv.status) then inv.quantity else 0.0
  {
  }

  /** What an invoice takes off a load. */
  function Takes(inv: Invoice, v: string): real
  {
    if inv.vanLoadId == v && IsConfirmedInvoice(inv.status) then inv.quantity else 0.0
  }

  lemma SoldAfterUpdate(s: State, row: Invoice, v: string)
    requires Valid(s.invoices, InvoiceId, "SINV") && row.id in s.invoices.rows && v != ""
    ensures Sold(s.(invoices := Updated(s.invoices, row.id, row)), v)
         == Sold(s, v) - Takes(s.invoices.rows[row.id], v) + Takes(row, v)
  {
    TallyUpdate(s.invoices, row.id, row, InvoiceKeys, ByRef(v), ConfirmedQuantity);
    ShareOfInvoice(row, v);
    ShareOfInvoice(s.invoices.rows[row.id], v);
  }

  lemma SoldAfterInsert(s: State, row: Invoice, v: string)
    requires Valid(s.invoices, InvoiceId, "SINV") && row.id == MintId("SINV", s.invoices.counter + 1) && v != ""
    ensures Sold(s.(invoices := Inserted(Minted(s.invoices), row.id, row)), v) == Sold(s, v) + Takes(row, v)
  {
    CreateValid(s.invoices, InvoiceId, "SINV", row);
    TallyInsert(Minted(s.invoices), row.id, row, InvoiceKeys, ByRef(v), ConfirmedQuantity);
    ShareOfInvoice(row, v);
  }

  lemma SoldAfterDelete(s: State, id: string, v: string)
    requires Valid(s.invoices, InvoiceId, "SINV") && id in s.invoices.rows && v != ""
    ensures Sold(s.(invoices := Deleted(s.invoices, id)), v) == Sold(s, v) - Takes(s.invoices.rows[id], v)
  {
    TallyDelete(s.invoices, id, InvoiceKeys, ByRef(v), ConfirmedQuantity);
    ShareOfInvoice(s.invoices.rows[id], v);
  }

  /** What was loaded, sent back and sold is as it was. */
  ghost predicate SameLoad(s: State, t: State, v: string)
  {
    && t.loads == s.loads && t.rets == s.rets && Sold(t, v) == Sold(s, v)
    && (Countables(s, v) ==> Countables(t, v))
  }

  /** A rewritten invoice row that sells what the old one did moves no stock. */
  lemma SameSaleSameLoad(s: State, t: State, row: Invoice, v: string)
    requires Valid(s.invoices, InvoiceId, "SINV") && row.id in s.invoices.rows && v != ""
    requires t.invoices == Updated(s.invoices, row.id, row) && t.loads == s.loads && t.rets == s.rets
    requires row.vanLoadId == s.invoices.rows[row.id].vanLoadId && row.quantity == s.invoices.rows[row.id].quantity
    requires IsConfirmedInvoice(row.status) == IsConfirmedInvoice(s.invoices.rows[row.id].status)
    ensures SameLoad(s, t, v)
  {
    SoldAfterUpdate(s, row, v);
  }

  lemma RefreshMovesNoStock(s: State, id: string, v: string)
    requires WellFormed(s) && v != ""
    ensures SameLoad(s, RefreshInvoice(s, id), v)
  {
    RefreshInvoiceFrame(s, id);
    if id in s.invoices.rows {
      assert InvoiceId(s.invoices.rows[id]) == id;
      SameSaleSameLoad(s, RefreshInvoice(s, id), RefreshedRow(s, id), v);
    }
  }

  // ---- invoices never oversell -----------------------------------------------------

  lemma ValidInvoiceStocked(s: State, i: InvoiceInput, existing: Option<Invoice>)
    requires ValidateInvoice(s, i, existing).Success?
    ensures StockCheck(s, ValidateInvoice(s, i, existing).value, existing).Success?
  {
    ValidInvoiceShape(s, i, existing);
    var d := PricedInvoice(s, i.doc, existing).value;
    StockCheckReads(s, d, ValidateInvoice(s, i, existing).value, existing);
  }

  lemma StockCheckReads(s: State, a: Invoice, b: Invoice, existing: Option<Invoice>)
    requires a.vanLoadId == b.vanLoadId && a.quantity == b.quantity
    ensures StockCheck(s, a, existing) == StockCheck(s, b, existing)
  {
  }

  function OwnTake(existing: Option<Invoice>, v: string): real
  {
    if existing.Some? then Takes(existing.value, v) else 0.0
  }

  /** The sale, and what the stored invoice already sold there, are countable, and the
      service sees all of the load's lists. */
  ghost predicate PassesCheck(s: State, row: Invoice, existing: Option<Invoice>, v: string)
  {
    && v != "" && Countables(s, v) && StockCheck(s, row, existing).Success?
    && (SoldFrom(row, v) ==> Countable(row.quantity) && LoadListsFit(s, v))
    && (existing.Some? && SoldFrom(existing.value, v) ==> Countable(existing.value.quantity))
  }

  /** A passed check fits the quantity into what is free, plus what the invoice
      itself already took. */
  lemma StockCheckMeans(s: State, d: Invoice, existing: Option<Invoice>, v: string)
    requires PassesCheck(s, d, existing, v) && SoldFrom(d, v) && d.quantity > 0.0
    ensures v in s.loads.rows
    ensures d.quantity <= Max(0.0, Free(s, v)) + OwnTake(existing, v)
  {
    assert v in s.loads.rows;
    OnHandIsFree(s, v);
    ZeroIsCents();
    var hand, own := VanOnHand(s, v).value, OwnTake(existing, v);
    CentsAdd(hand, own);
    ToleranceIsIdle(hand + own, d.quantity);
  }

  /** How far a load is oversold. */
  function Oversold(s: State, v: string): real
  {
    Max(0.0, -Free(s, v))
  }

  lemma TakesFromCheck(s: State, row: Invoice, existing: Option<Invoice>, v: string)
    requires PassesCheck(s, row, existing, v)
    ensures Takes(row, v) - OwnTake(existing, v) <= Max(0.0, Free(s, v))
    ensures v !in s.loads.rows ==> Takes(row, v) == 0.0
  {
    if SoldFrom(row, v) && row.quantity > 0.0 {
      StockCheckMeans(s, row, existing, v);
    }
  }

  /** The load is no further oversold than it was; one that does not exist has no new sales. */
  ghost predicate NoFurtherOversold(s: State, t: State, v: string)
  {
    && Oversold(t, v) <= Oversold(s, v) && Countables(t, v) && t.loads == s.loads && t.rets == s.rets
    && (v !in s.loads.rows ==> Sold(t, v) <= Sold(s, v))
  }

  predicate FormSells(i: InvoiceInput, v: string)
  {
    i.doc.vanLoadId == v && FormConfirms(i)
  }

  /** No invoice create ever increases what any load is oversold by. */
  lemma CreateInvoiceNeverOversells(s: State, i: InvoiceInput, v: string)
    requires WellFormed(s) && Countables(s, v) && v != ""
    requires CreateInvoice(s, i).1.Success? && FormSells(i, v) ==> Countable(i.doc.quantity) && LoadListsFit(s, v)
    ensures NoFurtherOversold(s, CreateInvoice(s, i).0, v)
  {
    if ValidateInvoice(s, i, None).Success? {
      ValidInvoiceShape(s, i, None);
      ValidInvoiceStocked(s, i, None);
      var d := ValidateInvoice(s, i, None).value;
      var row := NewInvoice(s, d);
      CreatedInvoice(s, i, d);
      StockCheckReads(s, d, row, None);
      InsertedStock(s, row, v);
    }
  }

  lemma InsertedStock(s: State, row: Invoice, v: string)
    requires WellFormed(s) && row.id == MintId("SINV", s.invoices.counter + 1) && PassesCheck(s, row, None, v)
    ensures NoFurtherOversold(s, AddInvoice(s, row), v)
  {
    TakesFromCheck(s, row, None, v);
    InsertedSold(s, row, v);
  }

  lemma InsertedSold(s: State, row: Invoice, v: string)
    requires WellFormed(s) && row.id == MintId("SINV", s.invoices.counter + 1) && v != ""
    ensures var t := AddInvoice(s, row);
      && Sold(t, v) == Sold(s, v) + Takes(row, v) && t.loads == s.loads && t.rets == s.rets
      && (Countables(s, v) && (SoldFrom(row, v) ==> Countable(row.quantity)) ==> Countables(t, v))
  {
    AddInvoiceFrame(s, row);
    var settled := Settled(row, InvoiceOutstanding(s, row));
    SoldAfterInsert(s, settled, v);
    assert Takes(settled, v) == Takes(row, v);
    assert AddInvoice(s, row).invoices == Inserted(Minted(s.invoices), settled.id, settled);
  }

  /** Nor does an update, also when it moves the invoice to another load. */
  lemma UpdateInvoiceNeverOversells(s: State, id: string, i: InvoiceInput, v: string)
    requires WellFormed(s) && Countables(s, v) && v != ""
    requires UpdateInvoice(s, id, i).1.Success? && FormSells(i, v) ==> Countable(i.doc.quantity) && LoadListsFit(s, v)
    ensures NoFurtherOversold(s, UpdateInvoice(s, id, i).0, v)
  {
    if UpdateInvoice(s, id, i).1.Success? {
      var cur := s.invoices.rows[id];
      assert InvoiceId(cur) == id;
      ValidInvoiceShape(s, i, Some(cur));
      ValidInvoiceStocked(s, i, Some(cur));
      var d := ValidateInvoice(s, i, Some(cur)).value;
      StockCheckReads(s, d, d.(id := id), Some(cur));
      ReplacedStock(s, cur, d.(id := id), v);
    }
  }

  lemma ReplacedStock(s: State, cur: Invoice, row: Invoice, v: string)
    requires WellFormed(s) && row.id in s.invoices.rows && cur == s.invoices.rows[row.id]
    requires PassesCheck(s, row, Some(cur), v)
    ensures NoFurtherOversold(s, ReplaceInvoice(s, cur, row), v)
  {
    TakesFromCheck(s, row, Some(cur), v);
    ReplacedSold(s, cur, row, v);
  }

  lemma ReplacedSold(s: State, cur: Invoice, row: Invoice, v: string)
    requires WellFormed(s) && row.id in s.invoices.rows && cur == s.invoices.rows[row.id] && v != ""
    ensures var t := ReplaceInvoice(s, cur, row);
      && Sold(t, v) == Sold(s, v) - Takes(cur, v) + Takes(row, v)
      && t.loads == s.loads && t.rets == s.rets
      && (Countables(s, v) && (SoldFrom(row, v) ==> Countable(row.quantity)) ==> Countables(t, v))
  {
    ReplaceInvoiceFrame(s, cur, row);
    var settled := Settled(row, InvoiceOutstanding(s, row));
    SoldAfterUpdate(s, settled, v);
    assert Takes(settled, v) == Takes(row, v);
    assert ReplaceInvoice(s, cur, row).invoices == Updated(s.invoices, settled.id, settled);
  }

  // ---- one load's stock ------------------------------------------------------------

  /** Sales are not above loaded plus returned; a load that does not exist has none. */
  ghost predicate Covered(s: State, v: string)
  {
    if v in s.loads.rows then Free(s, v) >= 0.0 else Sold(s, v) == 0.0
  }

  ghost predicate LoadSound(s: State, v: string)
  {
    Countables(s, v) && Covered(s, v)
  }

  /** No load is oversold. */
  ghost predicate StockSound(s: State)
  {
    forall v :: v != "" ==> LoadSound(s, v)
  }

  lemma SameLoadSound(s: State, t: State, v: string)
    requires SameLoad(s, t, v) && LoadSound(s, v)
    ensures LoadSound(t, v)
  {
  }

  /** On a covered load the floor of VanOnHand never bites, whatever the others are like. */
  lemma FloorNeverBites(s: State, v: string)
    requires LoadSound(s, v) && LoadListsFit(s, v) && v in s.loads.rows && v != ""
    ensures VanOnHand(s, v) == Success(LoadedOn(s, v) - Sold(s, v) + Back(s, v))
  {
    OnHandIsFree(s, v);
  }

  lemma NoFurtherIsSound(s: State, t: State, v: string)
    requires LoadSound(s, v) && NoFurtherOversold(s, t, v) && v != ""
    ensures LoadSound(t, v)
  {
    TalliesCountable(t, v);
  }

  /** Only unconfirmed invoices are deleted. */
  lemma DeleteInvoiceMovesNoStock(s: State, id: string, v: string)
    requires WellFormed(s) && v != ""
    ensures SameLoad(s, DeleteInvoice(s, id).0, v)
  {
    if DeleteInvoice(s, id).1.Success? {
      SoldAfterDelete(s, id, v);
      RefreshOutletFrame(s.(invoices := Deleted(s.invoices, id)), s.invoices.rows[id].outletId);
    }
  }

  // ---- loads -------------------------------------------------------------------------

  /** What a load's quantity becomes; non-negative when its batches are. */
  lemma NormalisedCountable(v: VanLoad)
    requires NormaliseVanLoad(v).Success?
    requires forall b :: b in v.batches ==> b.quantity >= 0.0
    ensures Countable(NormaliseVanLoad(v).value.quantity) && NormaliseVanLoad(v).value.id == v.id
  {
    Fefo.SortIsStable(v.batches, BatchExpiry);
    var sorted := Fefo.SortByExpiry(v.batches, BatchExpiry);
    forall b | b in sorted ensures BatchQuantity(b) >= 0.0 {
      assert b in multiset(sorted);
    }
    SumNonNegative(sorted, BatchQuantity);
    RoundNear(v.quantity);
    RoundNear(SumOf(sorted, BatchQuantity));
  }

  /** The write of one load row. */
  lemma PutLoadSound(s: State, t: State, x: string, v: string)
    requires LoadSound(s, v) && v != "" && t == s.(loads := t.loads)
    requires x != v ==> (v in t.loads.rows <==> v in s.loads.rows)
    requires x != v && v in s.loads.rows ==> t.loads.rows[v] == s.loads.rows[v]
    requires x == v && v in t.loads.rows ==> Countable(t.loads.rows[v].quantity)
    requires x == v ==>
      || Sold(s, v) == 0.0
      || (v in s.loads.rows && v in t.loads.rows && t.loads.rows[v].quantity == s.loads.rows[v].quantity)
    ensures LoadSound(t, v)
  {
    TalliesCountable(s, v);
    assert Sold(t, v) == Sold(s, v) && Back(t, v) == Back(s, v);
  }

  ghost predicate BatchesCountable(v: VanLoad)
  {
    forall b :: b in v.batches ==> b.quantity >= 0.0
  }

  lemma CreateLoadSound(s: State, load: VanLoad, v: string)
    requires WellFormed(s) && LoadSound(s, v) && v != ""
    requires var r := CreateVanLoad(s, load).1; r.Success? && r.value.id == v ==> BatchesCountable(load)
    ensures LoadSound(CreateVanLoad(s, load).0, v)
  {
    if CreateVanLoad(s, load).1.Success? {
      var row := CreateVanLoad(s, load).1.value;
      if row.id == v {
        NormalisedCountable(load);
      }
      CreateValid(s.loads, LoadId, "VAN", row);
      PutLoadSound(s, CreateVanLoad(s, load).0, row.id, v);
    }
  }

  lemma NothingSold(s: State, v: string)
    requires Countables(s, v) && LoadListsFit(s, v) && v != "" && VanSold(s, v) <= 0.0
    ensures Sold(s, v) == 0.0
  {
    VanSumsExact(s, v);
    TalliesCountable(s, v);
  }

  lemma UpdateLoadSound(s: State, x: string, load: VanLoad, v: string)
    requires WellFormed(s) && LoadSound(s, v) && v != ""
    requires x == v && UpdateVanLoad(s, x, load).1.Success? ==> BatchesCountable(load) && LoadListsFit(s, v)
    ensures LoadSound(UpdateVanLoad(s, x, load).0, v)
  {
    if UpdateVanLoad(s, x, load).1.Success? {
      var cur, row := s.loads.rows[x], UpdateVanLoad(s, x, load).1.value;
      assert LoadId(cur) == x;
      if x == v {
        NormalisedCountable(load.(id := x));
        if row.quantity != cur.quantity {
          NothingSold(s, v);
        }
      }
      NormalisedId(load.(id := x));
      PutLoadSound(s, UpdateVanLoad(s, x, load).0, x, v);
    }
  }

  lemma NormalisedId(v: VanLoad)
    requires NormaliseVanLoad(v).Success?
    ensures NormaliseVanLoad(v).value.id == v.id
  {
  }

  lemma DeleteLoadSound(s: State, x: string, v: string)
    requires WellFormed(s) && LoadSound(s, v) && v != ""
    requires x == v && DeleteVanLoad(s, x).1.Success? ==> LoadListsFit(s, v)
    ensures LoadSound(DeleteVanLoad(s, x).0, v)
  {
    if DeleteVanLoad(s, x).1.Success? {
      if x == v {
        NothingSold(s, v);
      }
      PutLoadSound(s, DeleteVanLoad(s, x).0, x, v);
    }
  }

  // ---- returns ------------------------------------------------------------------------

  /** What a return puts on a load. */
  function Gives(r: OutletReturn, v: string): real
  {
    if r.vanLoadId == v && r.status != Cancelled then r.quantity else 0.0
  }

  lemma BackAfterInsert(s: State, row: OutletReturn, v: string)
    requires Valid(s.rets, ReturnId, "RET") && row.id == MintId("RET", s.rets.counter + 1)
    ensures Back(s.(rets := Inserted(Minted(s.rets), row.id, row)), v) == Back(s, v) + Gives(row, v)
  {
    CreateValid(s.rets, ReturnId, "RET", row);
    TallyInsert(Minted(s.rets), row.id, row, ReturnKeys, EVERYTHING, BackOn(v));
  }

  lemma BackAfterUpdate(s: State, row: OutletReturn, v: string)
    requires Valid(s.rets, ReturnId, "RET") && row.id in s.rets.rows
    ensures Back(s.(rets := Updated(s.rets, row.id, row)), v)
         == Back(s, v) - Gives(s.rets.rows[row.id], v) + Gives(row, v)
  {
    TallyUpdate(s.rets, row.id, row, ReturnKeys, EVERYTHING, BackOn(v));
  }

  lemma BackAfterDelete(s: State, id: string, v: string)
    requires Valid(s.rets, ReturnId, "RET") && id in s.rets.rows
    ensures Back(s.(rets := Deleted(s.rets, id)), v) == Back(s, v) - Gives(s.rets.rows[id], v)
  {
    TallyDelete(s.rets, id, ReturnKeys, EVERYTHING, BackOn(v));
  }

  lemma RefreshNamedStock(s: State, id: string, v: string)
    requires WellFormed(s) && v != ""
    ensures WellFormed(RefreshNamed(s, id)) && SameLoad(s, RefreshNamed(s, id), v)
  {
    if id != "" {
      RefreshMovesNoStock(s, id, v);
      RefreshInvoiceWellFormed(s, id);
    }
  }

  lemma RefreshTwiceStock(s: State, id: string, from: string, v: string)
    requires WellFormed(s) && v != ""
    ensures SameLoad(s, RefreshNamed(RefreshNamed(s, id), from), v)
  {
    RefreshNamedStock(s, id, v);
    RefreshNamedStock(RefreshNamed(s, id), from, v);
  }

  lemma ValidReturnQuantity(s: State, r: OutletReturn, d: OutletReturn)
    requires ValidateReturn(s, r) == Success(d)
    ensures d.quantity == r.quantity > 0.0
  {
  }

  /** The load a form puts its goods on: the one typed, or else its invoice's. */
  function FormLoad(s: State, r: OutletReturn): string
  {
    if r.vanLoadId == "" && r.invoiceId in s.invoices.rows then s.invoices.rows[r.invoiceId].vanLoadId else r.vanLoadId
  }

  /** What the form leaves on a load. */
  function FormGives(s: State, r: OutletReturn, v: string): real
  {
    if FormLoad(s, r) == v && r.status != Cancelled then r.quantity else 0.0
  }

  /** The goods a form takes off the load its stored return put them on. */
  function AskedBack(s: State, cur: OutletReturn, r: OutletReturn): real
  {
    Gives(cur, cur.vanLoadId) - FormGives(s, r, cur.vanLoadId)
  }

  lemma StoredReturnGives(s: State, r: OutletReturn, row: OutletReturn, v: string)
    requires WellFormed(s) && ValidateReturn(s, r) == Success(row)
    ensures Gives(row, v) == FormGives(s, r, v) && (ReturnedTo(row, v) ==> FormLoad(s, r) == v && r.status != Cancelled)
  {
  }

  /** More goods back never hurts. */
  lemma CreateReturnLoadSound(s: State, r: OutletReturn, v: string)
    requires WellFormed(s) && LoadSound(s, v) && v != ""
    requires CreateReturn(s, r).1.Success? && FormLoad(s, r) == v ==> IsCents(r.quantity)
    ensures LoadSound(CreateReturn(s, r).0, v)
  {
    if CreateReturn(s, r).1.Success? {
      var row := CreateReturn(s, r).1.value;
      ValidReturnQuantity(s, r, row.(id := r.id));
      StoredReturnGives(s, r, ValidateReturn(s, r).value, v);
      InsertedReturnSound(s, row, v);
      CreateValid(s.rets, ReturnId, "RET", row);
      RefreshNamedStock(s.(rets := Inserted(Minted(s.rets), row.id, row)), row.invoiceId, v);
      SameLoadSound(s.(rets := Inserted(Minted(s.rets), row.id, row)), CreateReturn(s, r).0, v);
    }
  }

  lemma InsertedReturnSound(s: State, row: OutletReturn, v: string)
    requires WellFormed(s) && LoadSound(s, v) && row.quantity > 0.0 && (ReturnedTo(row, v) ==> IsCents(row.quantity))
    requires row.id == MintId("RET", s.rets.counter + 1)
    ensures LoadSound(s.(rets := Inserted(Minted(s.rets), row.id, row)), v)
  {
    BackAfterInsert(s, row, v);
  }

  /** The check the source does not make: the goods withdrawn are still on the van. */
  ghost predicate StillOnVan(s: State, loadId: string, quantity: real)
  {
    loadId in s.loads.rows && loadId != "" ==> quantity <= VanOnHand(s, loadId).value
  }

  lemma StillOnVanMeans(s: State, v: string, q: real)
    requires LoadSound(s, v) && LoadListsFit(s, v)
    ensures StillOnVan(s, v, q) <==> (v in s.loads.rows && v != "" ==> Free(s, v) - q >= 0.0)
  {
    if v in s.loads.rows && v != "" {
      FloorNeverBites(s, v);
    }
  }

  lemma UpdatedReturn(s: State, id: string, r: OutletReturn, v: string)
    requires WellFormed(s) && UpdateReturn(s, id, r).1.Success? && v != ""
    ensures id in s.rets.rows
    ensures var row, cur := UpdateReturn(s, id, r).1.value, s.rets.rows[id];
      && row.id == id && row.quantity == r.quantity > 0.0 && Gives(row, v) == FormGives(s, r, v)
      && Gives(row, cur.vanLoadId) == FormGives(s, r, cur.vanLoadId) && (ReturnedTo(row, v) ==> FormLoad(s, r) == v)
      && SameLoad(s.(rets := Updated(s.rets, id, row)), UpdateReturn(s, id, r).0, v)
  {
    var row, cur := UpdateReturn(s, id, r).1.value, s.rets.rows[id];
    assert ReturnId(cur) == id;
    ValidReturnQuantity(s, r, ValidateReturn(s, r).value);
    StoredReturnGives(s, r, ValidateReturn(s, r).value, v);
    StoredReturnGives(s, r, ValidateReturn(s, r).value, cur.vanLoadId);
    UpdateValid(s.rets, ReturnId, "RET", row);
    RefreshTwiceStock(s.(rets := Updated(s.rets, id, row)), row.invoiceId, cur.invoiceId, v);
  }

  lemma SameCovered(s: State, t: State, v: string)
    requires SameLoad(s, t, v)
    ensures Covered(t, v) <==> Covered(s, v)
  {
  }

  /** An edit that takes nothing off a load never needs that check, whatever the figures
      and however long the lists. */
  lemma EnlargingIsFree(s: State, id: string, r: OutletReturn, v: string)
    requires WellFormed(s) && UpdateReturn(s, id, r).1.Success? && v != "" && Covered(s, v)
    requires v == s.rets.rows[id].vanLoadId ==> AskedBack(s, s.rets.rows[id], r) <= 0.0
    ensures Covered(UpdateReturn(s, id, r).0, v)
  {
    var row := UpdateReturn(s, id, r).1.value;
    UpdatedReturn(s, id, r, v);
    BackAfterUpdate(s, row, v);
    SameCovered(s.(rets := Updated(s.rets, id, row)), UpdateReturn(s, id, r).0, v);
  }

  /** Editing or cancelling a return keeps its load covered exactly when the goods it
      withdraws are still on the van, and keeps every other load covered. */
  lemma UpdateReturnStockIff(s: State, id: string, r: OutletReturn)
    requires WellFormed(s) && UpdateReturn(s, id, r).1.Success? && id in s.rets.rows
    requires var v := s.rets.rows[id].vanLoadId; v != "" && LoadSound(s, v) && LoadListsFit(s, v)
    ensures var cur := s.rets.rows[id];
      Covered(UpdateReturn(s, id, r).0, cur.vanLoadId) <==> StillOnVan(s, cur.vanLoadId, AskedBack(s, cur, r))
    ensures forall v :: v != "" && v != s.rets.rows[id].vanLoadId && Covered(s, v) ==>
      Covered(UpdateReturn(s, id, r).0, v)
  {
    var cur := s.rets.rows[id];
    UpdatedReturn(s, id, r, cur.vanLoadId);
    StillOnVanMeans(s, cur.vanLoadId, AskedBack(s, cur, r));
    BackAfterUpdate(s, UpdateReturn(s, id, r).1.value, cur.vanLoadId);
    var t := s.(rets := Updated(s.rets, id, UpdateReturn(s, id, r).1.value));
    SameCovered(t, UpdateReturn(s, id, r).0, cur.vanLoadId);
    forall v | v != "" && v != cur.vanLoadId && Covered(s, v) ensures Covered(UpdateReturn(s, id, r).0, v) {
      EnlargingIsFree(s, id, r, v);
    }
  }

  /** The same for deleting one. */
  lemma DeleteReturnStockIff(s: State, id: string)
    requires WellFormed(s) && DeleteReturn(s, id).1.Success? && id in s.rets.rows
    requires var v := s.rets.rows[id].vanLoadId; v != "" && LoadSound(s, v) && LoadListsFit(s, v)
    ensures var cur := s.rets.rows[id];
      Covered(DeleteReturn(s, id).0, cur.vanLoadId) <==> StillOnVan(s, cur.vanLoadId, Gives(cur, cur.vanLoadId))
    ensures forall v :: v != "" && v != s.rets.rows[id].vanLoadId && Covered(s, v) ==> Covered(DeleteReturn(s, id).0, v)
  {
    var cur := s.rets.rows[id];
    DeletedReturn(s, id, cur.vanLoadId);
    StillOnVanMeans(s, cur.vanLoadId, Gives(cur, cur.vanLoadId));
    SameCovered(s.(rets := Deleted(s.rets, id)), DeleteReturn(s, id).0, cur.vanLoadId);
    forall v | v != "" && v != cur.vanLoadId && Covered(s, v) ensures Covered(DeleteReturn(s, id).0, v) {
      DeletedReturn(s, id, v);
      SameCovered(s.(rets := Deleted(s.rets, id)), DeleteReturn(s, id).0, v);
    }
  }

  lemma DeletedReturn(s: State, id: string, v: string)
    requires WellFormed(s) && DeleteReturn(s, id).1.Success? && v != ""
    ensures id in s.rets.rows
    ensures var t := s.(rets := Deleted(s.rets, id));
      Back(t, v) == Back(s, v) - Gives(s.rets.rows[id], v) && SameLoad(t, DeleteReturn(s, id).0, v)
  {
    DeleteValid(s.rets, ReturnId, "RET", id);
    BackAfterDelete(s, id, v);
    RefreshNamedStock(s.(rets := Deleted(s.rets, id)), s.rets.rows[id].invoiceId, v);
  }

  lemma UpdateReturnLoadSound(s: State, id: string, r: OutletReturn, v: string)
    requires WellFormed(s) && LoadSound(s, v) && v != ""
    requires UpdateReturn(s, id, r).1.Success? && FormLoad(s, r) == v ==> IsCents(r.quantity)
    requires UpdateReturn(s, id, r).1.Success? && s.rets.rows[id].vanLoadId == v ==>
      LoadListsFit(s, v) && StillOnVan(s, v, AskedBack(s, s.rets.rows[id], r))
    ensures LoadSound(UpdateReturn(s, id, r).0, v)
  {
    if UpdateReturn(s, id, r).1.Success? {
      UpdatedReturnCountable(s, id, r, v);
      if s.rets.rows[id].vanLoadId == v {
        UpdateReturnStockIff(s, id, r);
      } else {
        EnlargingIsFree(s, id, r, v);
      }
    }
  }

  lemma UpdatedReturnCountable(s: State, id: string, r: OutletReturn, v: string)
    requires WellFormed(s) && Countables(s, v) && v != "" && UpdateReturn(s, id, r).1.Success?
    requires FormLoad(s, r) == v ==> IsCents(r.quantity)
    ensures id in s.rets.rows && Countables(UpdateReturn(s, id, r).0, v)
  {
    UpdatedReturn(s, id, r, v);
  }

  lemma DeleteReturnLoadSound(s: State, id: string, v: string)
    requires WellFormed(s) && LoadSound(s, v) && v != ""
    requires DeleteReturn(s, id).1.Success? && s.rets.rows[id].vanLoadId == v ==>
      LoadListsFit(s, v) && StillOnVan(s, v, Gives(s.rets.rows[id], v))
    ensures LoadSound(DeleteReturn(s, id).0, v)
  {
    if DeleteReturn(s, id).1.Success? {
      DeletedReturn(s, id, v);
      if s.rets.rows[id].vanLoadId == v {
        DeleteReturnStockIff(s, id);
      } else {
        SameCovered(s.(rets := Deleted(s.rets, id)), DeleteReturn(s, id).0, v);
      }
    }
  }

  // ---- collections move no stock --------------------------------------------------------

  lemma CreateCollectionStock(s: State, c: Collection, v: string)
    requires WellFormed(s) && Coherent(s) && v != ""
    ensures SameLoad(s, CreateCollection(s, c).0, v)
  {
    if CreateCollection(s, c).1.Success? {
      var row := CreateCollection(s, c).1.value;
      CreatedRow(s, c, row);
      InsertCollectionBreaks(s, row);
      RefreshMovesNoStock(WithCollection(s, row), row.invoiceId, v);
    }
  }

  lemma UpdateCollectionStock(s: State, id: string, c: Collection, v: string)
    requires WellFormed(s) && Coherent(s) && v != ""
    ensures SameLoad(s, UpdateCollection(s, id, c).0, v)
  {
    if UpdateCollection(s, id, c).1.Success? {
      var row := UpdateCollection(s, id, c).1.value;
      UpdatedRow(s, id, c, row);
      UpdateCollectionBreaks(s, row);
      RefreshBothStock(Recollected(s, row), row.invoiceId, s.collects.rows[id].invoiceId, v);
    }
  }

  lemma DeleteCollectionStock(s: State, id: string, v: string)
    requires WellFormed(s) && Coherent(s) && v != ""
    ensures SameLoad(s, DeleteCollection(s, id).0, v)
  {
    if DeleteCollection(s, id).1.Success? {
      DeleteCollectionBreaks(s, id);
      RefreshMovesNoStock(s.(collects := Deleted(s.collects, id)), s.collects.rows[id].invoiceId, v);
    }
  }

  lemma RefreshBothStock(t: State, id: string, from: string, v: string)
    requires WellFormed(t) && v != ""
    ensures SameLoad(t, RefreshBoth(t, id, from), v)
  {
    RefreshMovesNoStock(t, id, v);
    RefreshInvoiceWellFormed(t, id);
    RefreshMovesNoStock(RefreshInvoice(t, id), from, v);
  }

  // ---- runs --------------------------------------------------------------------------

  /** What an accepted call on the load must meet: quantities in non-negative hundredths,
      lists within 5000 rows, goods an edited or deleted return takes off still on the
      van. Refused calls and calls on other loads are free. */
  ghost predicate LoadOrderly(s: State, op: Op, v: string)
  {
    match op
    case OpCreateInvoice(i) =>
      CreateInvoice(s, i).1.Success? && FormSells(i, v) ==> Countable(i.doc.quantity) && LoadListsFit(s, v)
    case OpUpdateInvoice(x, i) =>
      UpdateInvoice(s, x, i).1.Success? && FormSells(i, v) ==> Countable(i.doc.quantity) && LoadListsFit(s, v)
    case OpCreateLoad(l) => CreateVanLoad(s, l).1.Success? && CreateVanLoad(s, l).1.value.id == v ==>
      BatchesCountable(l)
    case OpUpdateLoad(x, l) => x == v && UpdateVanLoad(s, x, l).1.Success? ==> BatchesCountable(l) && LoadListsFit(s, v)
    case OpDeleteLoad(x) => x == v && DeleteVanLoad(s, x).1.Success? ==> LoadListsFit(s, v)
    case OpCreateReturn(r) => CreateReturn(s, r).1.Success? && FormLoad(s, r) == v ==> IsCents(r.quantity)
    case OpUpdateReturn(x, r) =>
      UpdateReturn(s, x, r).1.Success? ==>
        && (FormLoad(s, r) == v ==> IsCents(r.quantity))
        && (s.rets.rows[x].vanLoadId == v ==> LoadListsFit(s, v) && StillOnVan(s, v, AskedBack(s, s.rets.rows[x], r)))
    case OpDeleteReturn(x) =>
      DeleteReturn(s, x).1.Success? && s.rets.rows[x].vanLoadId == v ==>
        LoadListsFit(s, v) && StillOnVan(s, v, Gives(s.rets.rows[x], v))
    case _ => true
  }

  ghost predicate LoadOrderlyRun(s: State, ops: seq<Op>, v: string)
    decreases |ops|
  {
    ops == [] || (LoadOrderly(s, ops[0], v) && LoadOrderlyRun(Step(s, ops[0]), ops[1..], v))
  }

  ghost predicate StockOrderlyRun(s: State, ops: seq<Op>)
  {
    forall v :: v != "" ==> LoadOrderlyRun(s, ops, v)
  }

  lemma InvoiceStepLoad(s: State, op: Op, v: string)
    requires WellFormed(s) && LoadSound(s, v) && LoadOrderly(s, op, v) && v != ""
    requires op.OpCreateInvoice? || op.OpUpdateInvoice? || op.OpDeleteInvoice?
    ensures LoadSound(Step(s, op), v)
  {
    match op
    case OpCreateInvoice(i) => CreateInvoiceNeverOversells(s, i, v); NoFurtherIsSound(s, Step(s, op), v);
    case OpUpdateInvoice(x, i) => UpdateInvoiceNeverOversells(s, x, i, v); NoFurtherIsSound(s, Step(s, op), v);
    case OpDeleteInvoice(x) => DeleteInvoiceMovesNoStock(s, x, v); SameLoadSound(s, Step(s, op), v);
  }

  lemma CollectionStepLoad(s: State, op: Op, v: string)
    requires WellFormed(s) && Coherent(s) && LoadSound(s, v) && v != ""
    requires op.OpCreateCollection? || op.OpUpdateCollection? || op.OpDeleteCollection?
    ensures LoadSound(Step(s, op), v)
  {
    match op
    case OpCreateCollection(c) => CreateCollectionStock(s, c, v); SameLoadSound(s, Step(s, op), v);
    case OpUpdateCollection(x, c) => UpdateCollectionStock(s, x, c, v); SameLoadSound(s, Step(s, op), v);
    case OpDeleteCollection(x) => DeleteCollectionStock(s, x, v); SameLoadSound(s, Step(s, op), v);
  }

  lemma OtherCallsStock(s: State, op: Op, v: string)
    requires LoadSound(s, v) && !OnBooks(op) && !op.OpCreateLoad? && !op.OpUpdateLoad? && !op.OpDeleteLoad?
    ensures LoadSound(Step(s, op), v)
  {
    OtherCallsBooks(s, op);
    OtherCallsLoads(s, op);
    SameLoadSound(s, Step(s, op), v);
  }

  lemma OtherCallsLoads(s: State, op: Op)
    requires !OnBooks(op) && !op.OpCreateLoad? && !op.OpUpdateLoad? && !op.OpDeleteLoad?
    ensures Step(s, op).loads == s.loads
  {
  }

  lemma StepLoad(s: State, op: Op, v: string)
    requires WellFormed(s) && Coherent(s) && LoadSound(s, v) && LoadOrderly(s, op, v) && v != ""
    ensures LoadSound(Step(s, op), v)
  {
    match op
    case OpCreateInvoice(_) => InvoiceStepLoad(s, op, v);
    case OpUpdateInvoice(_, _) => InvoiceStepLoad(s, op, v);
    case OpDeleteInvoice(_) => InvoiceStepLoad(s, op, v);
    case OpCreateCollection(_) => CollectionStepLoad(s, op, v);
    case OpUpdateCollection(_, _) => CollectionStepLoad(s, op, v);
    case OpDeleteCollection(_) => CollectionStepLoad(s, op, v);
    case OpCreateReturn(r) => CreateReturnLoadSound(s, r, v);
    case OpUpdateReturn(x, r) => UpdateReturnLoadSound(s, x, r, v);
    case OpDeleteReturn(x) => DeleteReturnLoadSound(s, x, v);
    case OpCreateLoad(l) => CreateLoadSound(s, l, v);
    case OpUpdateLoad(x, l) => UpdateLoadSound(s, x, l, v);
    case OpDeleteLoad(x) => DeleteLoadSound(s, x, v);
    case _ => OtherCallsStock(s, op, v);
  }

  /** Over every run whose accepted calls on one load are orderly, whatever happens to the
      others, no more is sold from it than was loaded and returned. */
  lemma {:induction false} NeverOversoldOn(s: State, ops: seq<Op>, v: string)
    requires WellFormed(s) && Coherent(s) && LoadSound(s, v) && LoadOrderlyRun(s, ops, v) && v != ""
    ensures LoadSound(Run(s, ops), v)
    decreases |ops|
  {
    if ops != [] {
      StepLoad(s, ops[0], v);
      StepCoherent(s, ops[0]);
      NeverOversoldOn(Step(s, ops[0]), ops[1..], v);
    }
  }

  /** So over every orderly run, from none. */
  lemma NeverOversold(s: State, ops: seq<Op>)
    requires WellFormed(s) && Coherent(s) && StockSound(s) && StockOrderlyRun(s, ops)
    ensures StockSound(Run(s, ops))
  {
    forall v | v != "" ensures LoadSound(Run(s, ops), v) {
      NeverOversoldOn(s, ops, v);
    }
  }
}
