/** The cached figures agree with their recomputation after every call of every
    run: invoice outstanding, paid/invoiced status, outlet balance. */
module Coherence {
  import opened Ids
  import opened Ledger
  import opened Money
  import opened TableLemmas
  import opened Tables
  import opened Wrappers

  // ---- shape of a reachable state ------------------------------------------

  ghost predicate TablesValid(s: State)
  {
    && Valid(s.loads, LoadId, "VAN") && Valid(s.invoices, InvoiceId, "SINV")
    && Valid(s.collects, CollectionId, "COL") && Valid(s.rets, ReturnId, "RET")
    && Valid(s.recons, ReconId, "VRC") && Valid(s.schemes, SchemeId, "SCH")
  }

  ghost predicate NotYetMinted(prefix: string, counter: nat, id: string)
  {
    forall k: nat :: k > counter ==> MintId(prefix, k) != id
  }

  /** Outlets are named, and neither an outlet nor an invoice uses an outlet id
      that is still to be minted. */
  ghost predicate OutletsNamed(s: State)
  {
    && (forall o :: o in s.outlets ==> o.id != "" && NotYetMinted("OUT", s.nextOutlet, o.id))
    && (forall id :: id in s.invoices.rows ==> NotYetMinted("OUT", s.nextOutlet, s.invoices.rows[id].outletId))
  }

  ghost predicate WellFormed(s: State)
  {
    TablesValid(s) && OutletsNamed(s)
  }

  // ---- what a refresh touches ----------------------------------------------

  /** Everything but outlet balances and scheme rows. */
  ghost predicate SameBut(s: State, t: State)
  {
    && t.loads == s.loads && t.collects == s.collects && t.rets == s.rets && t.recons == s.recons
    && t.nextOutlet == s.nextOutlet && t.distributors == s.distributors && t.beats == s.beats
    && |t.outlets| == |s.outlets|
    && (forall i :: 0 <= i < |s.outlets| ==> t.outlets[i].(outstanding := 0.0) == s.outlets[i].(outstanding := 0.0))
  }

  lemma RefreshOutletFrame(s: State, outletId: string)
    ensures SameBut(s, RefreshOutletBalance(s, outletId))
    ensures RefreshOutletBalance(s, outletId).invoices == s.invoices
    ensures RefreshOutletBalance(s, outletId).schemes == s.schemes
  {
  }

  lemma RefreshSchemeFrame(s: State, id: string)
    requires Valid(s.schemes, SchemeId, "SCH")
    ensures SameBut(s, RefreshScheme(s, id)) && RefreshScheme(s, id).outlets == s.outlets
    ensures RefreshScheme(s, id).invoices == s.invoices
    ensures Valid(RefreshScheme(s, id).schemes, SchemeId, "SCH")
    ensures RefreshScheme(s, id).schemes.counter == s.schemes.counter
  {
    if id in s.schemes.rows {
      var row := RefreshedScheme(s, s.schemes.rows[id], id);
      assert SchemeId(s.schemes.rows[id]) == id;
      UpdateValid(s.schemes, SchemeId, "SCH", row);
    }
  }

  /** The invoice row a refresh stores. */
  function RefreshedRow(s: State, id: string): Invoice
    requires id in s.invoices.rows
  {
    var inv := s.invoices.rows[id];
    Settled(inv, InvoiceOutstanding(s, inv))
  }

  lemma RefreshInvoiceFrame(s: State, id: string)
    requires Valid(s.schemes, SchemeId, "SCH")
    ensures SameBut(s, RefreshInvoice(s, id))
    ensures id in s.invoices.rows ==> RefreshInvoice(s, id).invoices == Updated(s.invoices, id, RefreshedRow(s, id))
    ensures id !in s.invoices.rows ==> RefreshInvoice(s, id) == s
    ensures Valid(RefreshInvoice(s, id).schemes, SchemeId, "SCH")
    ensures RefreshInvoice(s, id).schemes.counter == s.schemes.counter
  {
    if id in s.invoices.rows {
      var inv := s.invoices.rows[id];
      var s1 := s.(invoices := Updated(s.invoices, id, RefreshedRow(s, id)));
      RefreshOutletFrame(s1, inv.outletId);
      RefreshSchemeFrame(RefreshOutletBalance(s1, inv.outletId), inv.schemeId);
    }
  }

  lemma ReplaceInvoiceFrame(s: State, cur: Invoice, row: Invoice)
    requires Valid(s.schemes, SchemeId, "SCH") && row.id in s.invoices.rows
    ensures SameBut(s, ReplaceInvoice(s, cur, row))
    ensures ReplaceInvoice(s, cur, row).invoices
         == Updated(s.invoices, row.id, Settled(row, InvoiceOutstanding(s, row)))
  {
    var t := s.(invoices := Updated(s.invoices, row.id, row));
    RefreshInvoiceFrame(t, row.id);
    SameListsSameOutstanding(s, t, row);
    RefreshOutletFrame(RefreshInvoice(t, row.id), cur.outletId);
  }

  lemma AddInvoiceFrame(s: State, row: Invoice)
    requires Valid(s.schemes, SchemeId, "SCH")
    ensures SameBut(s, AddInvoice(s, row))
    ensures AddInvoice(s, row).invoices
         == Inserted(Minted(s.invoices), row.id, Settled(row, InvoiceOutstanding(s, row)))
  {
    var t := s.(invoices := Inserted(Minted(s.invoices), row.id, row));
    RefreshInvoiceFrame(t, row.id);
    SameListsSameOutstanding(s, t, row);
    assert t.invoices.rows[row.id] == row;
  }

  lemma SameListsSameOutstanding(s: State, t: State, inv: Invoice)
    requires t.collects == s.collects && t.rets == s.rets
    ensures InvoiceOutstanding(t, inv) == InvoiceOutstanding(s, inv)
  {
  }

  lemma RefreshInvoiceWellFormed(s: State, id: string)
    requires WellFormed(s)
    ensures WellFormed(RefreshInvoice(s, id))
  {
    RefreshInvoiceFrame(s, id);
    var s' := RefreshInvoice(s, id);
    if id in s.invoices.rows {
      assert InvoiceId(s.invoices.rows[id]) == id;
      UpdateValid(s.invoices, InvoiceId, "SINV", RefreshedRow(s, id));
    }
    OutletsKeepNames(s, s');
  }

  lemma OutletsKeepNames(s: State, t: State)
    requires OutletsNamed(s) && SameBut(s, t)
    requires forall id :: id in t.invoices.rows ==>
      id in s.invoices.rows && t.invoices.rows[id].outletId == s.invoices.rows[id].outletId
    ensures OutletsNamed(t)
  {
  }

  lemma RefreshOutletWellFormed(s: State, outletId: string)
    requires WellFormed(s)
    ensures WellFormed(RefreshOutletBalance(s, outletId))
  {
    RefreshOutletFrame(s, outletId);
    OutletsKeepNames(s, RefreshOutletBalance(s, outletId));
  }

  // ---- coherence ------------------------------------------------------------

  ghost predicate InvoiceCoherent(s: State, id: string)
    requires id in s.invoices.rows
  {
    var inv := s.invoices.rows[id];
    && inv.outstanding == InvoiceOutstanding(s, inv)
    && (inv.status == Invoiced ==> inv.outstanding > 0.0)
    && (inv.status == Paid ==> inv.outstanding == 0.0)
  }

  ghost predicate BalanceCoherent(s: State, o: Outlet)
  {
    o.outstanding == OutletOutstanding(s, o.id)
  }

  /** Coherent but for the named invoices and outlets. */
  ghost predicate CoherentExcept(s: State, invoices: set<string>, outlets: set<string>)
  {
    && (forall id :: id in s.invoices.rows && id !in invoices ==> InvoiceCoherent(s, id))
    && (forall o :: o in s.outlets && o.id !in outlets ==> BalanceCoherent(s, o))
  }

  ghost predicate Coherent(s: State)
  {
    CoherentExcept(s, {}, {})
  }

  lemma InvoiceFrame(s: State, t: State, id: string)
    requires id in s.invoices.rows && id in t.invoices.rows && t.invoices.rows[id] == s.invoices.rows[id]
    requires t.collects == s.collects && t.rets == s.rets && InvoiceCoherent(s, id)
    ensures InvoiceCoherent(t, id)
  {
  }

  lemma BalanceFrame(s: State, t: State, o: Outlet, was: Outlet)
    requires t.invoices == s.invoices && o.id == was.id && o.outstanding == was.outstanding
    requires BalanceCoherent(s, was)
    ensures BalanceCoherent(t, o)
  {
  }

  /** A recomputed outstanding is a non-negative number of cents, so the 0.009
      tolerance of the paid/invoiced flip separates zero from everything else. */
  lemma OutstandingIsCents(s: State, inv: Invoice)
    ensures IsCents(InvoiceOutstanding(s, inv)) && InvoiceOutstanding(s, inv) >= 0.0
    ensures InvoiceOutstanding(s, inv) <= 0.009 ==> InvoiceOutstanding(s, inv) == 0.0
  {
    if IsConfirmedInvoice(inv.status) {
      var paid := SumOf(Listed(s.collects, CollectionKeys, ByRef(inv.id)), LiveAmount)
                + SumOf(Listed(s.rets, ReturnKeys, ByRef(inv.id)), CreditedAmount);
      RoundNear(Max(0.0, inv.amount - paid));
      CentsGap(InvoiceOutstanding(s, inv));
    } else {
      ZeroIsCents();
    }
  }

  lemma ListsOutlet(inv: Invoice, outletId: string)
    requires outletId != ""
    ensures Accepting(InvoiceKeys, ByOutlet(outletId))(inv) <==> inv.outletId == outletId
  {
    assert Accepting(InvoiceKeys, ByOutlet(outletId))(inv) == Accepts(InvoiceKeys(inv), ByOutlet(outletId));
  }

  /** Outlets other than the row's old and new ones list the same invoices. */
  lemma OtherOutletsSame(s: State, id: string, row: Invoice, outletId: string)
    requires id in s.invoices.rows
    requires outletId != "" && outletId != s.invoices.rows[id].outletId && outletId != row.outletId
    ensures OutletOutstanding(s.(invoices := Updated(s.invoices, id, row)), outletId) == OutletOutstanding(s, outletId)
  {
    ListsOutlet(s.invoices.rows[id], outletId);
    ListsOutlet(row, outletId);
    UpdateSkips(s.invoices, id, row, Accepting(InvoiceKeys, ByOutlet(outletId)));
  }

  /** The heart of the matter: refreshing an invoice repairs that invoice and its
      outlet, whatever was wrong with them, and disturbs nothing else. */
  lemma RefreshRepairs(s: State, id: string, invoices: set<string>, outlets: set<string>)
    requires WellFormed(s) && CoherentExcept(s, invoices, outlets)
    ensures var s' := RefreshInvoice(s, id);
      if id in s.invoices.rows
      then CoherentExcept(s', invoices - {id}, outlets - {s.invoices.rows[id].outletId})
      else CoherentExcept(s', invoices - {id}, outlets)
  {
    RefreshInvoiceFrame(s, id);
    if id in s.invoices.rows {
      RefreshRepairsInvoices(s, RefreshInvoice(s, id), id, invoices);
      RefreshRepairsBalances(s, id, outlets);
    }
  }

  lemma RefreshRepairsInvoices(s: State, t: State, id: string, invoices: set<string>)
    requires id in s.invoices.rows && SameBut(s, t)
    requires t.invoices == Updated(s.invoices, id, RefreshedRow(s, id))
    requires forall j :: j in s.invoices.rows && j !in invoices ==> InvoiceCoherent(s, j)
    ensures forall j :: j in t.invoices.rows && j !in invoices - {id} ==> InvoiceCoherent(t, j)
  {
    forall j | j in t.invoices.rows && j !in invoices - {id} ensures InvoiceCoherent(t, j) {
      if j == id {
        OutstandingIsCents(s, s.invoices.rows[id]);
      } else {
        InvoiceFrame(s, t, j);
      }
    }
  }

  lemma RefreshRepairsBalances(s: State, id: string, outlets: set<string>)
    requires WellFormed(s) && id in s.invoices.rows
    requires forall o :: o in s.outlets && o.id !in outlets ==> BalanceCoherent(s, o)
    ensures var s' := RefreshInvoice(s, id);
      forall o :: o in s'.outlets && o.id !in outlets - {s.invoices.rows[id].outletId} ==> BalanceCoherent(s', o)
  {
    RefreshInvoiceFrame(s, id);
    var s' := RefreshInvoice(s, id);
    var inv := s.invoices.rows[id];
    var s1 := s.(invoices := Updated(s.invoices, id, RefreshedRow(s, id)));
    RefreshSchemeFrame(RefreshOutletBalance(s1, inv.outletId), inv.schemeId);
    assert s'.outlets == RefreshOutletBalance(s1, inv.outletId).outlets;
    forall o | o in s'.outlets && o.id !in outlets - {inv.outletId} ensures BalanceCoherent(s', o) {
      var i :| 0 <= i < |s'.outlets| && s'.outlets[i] == o;
      var was := s.outlets[i];
      assert was in s.outlets && was.id == o.id;
      if o.id == inv.outletId {
        assert o.outstanding == OutletOutstanding(s1, o.id);
      } else {
        OtherOutletsSame(s, id, RefreshedRow(s, id), o.id);
        assert BalanceCoherent(s, was);
      }
    }
  }

  /** Likewise for the outlet alone. */
  lemma RefreshOutletRepairs(s: State, outletId: string, invoices: set<string>, outlets: set<string>)
    requires WellFormed(s) && CoherentExcept(s, invoices, outlets)
    ensures CoherentExcept(RefreshOutletBalance(s, outletId), invoices, outlets - {outletId})
  {
    RefreshOutletFrame(s, outletId);
    var s' := RefreshOutletBalance(s, outletId);
    forall j | j in s'.invoices.rows && j !in invoices ensures InvoiceCoherent(s', j) {
      InvoiceFrame(s, s', j);
    }
    forall i | 0 <= i < |s'.outlets| && s'.outlets[i].id !in outlets - {outletId}
      ensures BalanceCoherent(s', s'.outlets[i])
    {
      var was := s.outlets[i];
      assert was in s.outlets && was.id == s'.outlets[i].id != "";
      if was.id == outletId {
        assert s'.outlets[i].outstanding == OutletOutstanding(s, outletId);
      } else {
        BalanceFrame(s, s', s'.outlets[i], was);
      }
    }
  }

  // ---- writes to the other tables -------------------------------------------

  lemma ListsInvoiceOfCollection(c: Collection, invoiceId: string)
    requires invoiceId != ""
    ensures Accepting(CollectionKeys, ByRef(invoiceId))(c) <==> c.invoiceId == invoiceId
  {
    assert Accepting(CollectionKeys, ByRef(invoiceId))(c) == Accepts(CollectionKeys(c), ByRef(invoiceId));
  }

  lemma ListsInvoiceOfReturn(r: OutletReturn, invoiceId: string)
    requires invoiceId != ""
    ensures Accepting(ReturnKeys, ByRef(invoiceId))(r) <==> r.invoiceId == invoiceId
  {
    assert Accepting(ReturnKeys, ByRef(invoiceId))(r) == Accepts(ReturnKeys(r), ByRef(invoiceId));
  }

  /** Invoices whose collections and returns are listed alike stay coherent, and
      so do all balances, which read the invoice table only. */
  lemma SameListsSameCoherence(s: State, t: State, broken: set<string>)
    requires Coherent(s) && Valid(s.invoices, InvoiceId, "SINV")
    requires t.invoices == s.invoices && t.outlets == s.outlets
    requires forall id :: id in s.invoices.rows && id !in broken ==>
      && Listed(t.collects, CollectionKeys, ByRef(id)) == Listed(s.collects, CollectionKeys, ByRef(id))
      && Listed(t.rets, ReturnKeys, ByRef(id)) == Listed(s.rets, ReturnKeys, ByRef(id))
    ensures CoherentExcept(t, broken, {})
  {
    forall id | id in t.invoices.rows && id !in broken ensures InvoiceCoherent(t, id) {
      SameListsSameInvoice(s, t, id);
    }
    forall o | o in t.outlets ensures BalanceCoherent(t, o) {
      BalanceFrame(s, t, o, o);
    }
  }

  lemma SameListsSameInvoice(s: State, t: State, id: string)
    requires Coherent(s) && Valid(s.invoices, InvoiceId, "SINV") && t.invoices == s.invoices && id in s.invoices.rows
    requires Listed(t.collects, CollectionKeys, ByRef(id)) == Listed(s.collects, CollectionKeys, ByRef(id))
    requires Listed(t.rets, ReturnKeys, ByRef(id)) == Listed(s.rets, ReturnKeys, ByRef(id))
    ensures InvoiceCoherent(t, id)
  {
    assert InvoiceCoherent(s, id);
    assert InvoiceId(s.invoices.rows[id]) == id;
  }

  lemma InsertCollectionBreaks(s: State, row: Collection)
    requires WellFormed(s) && Coherent(s)
    requires row.id == MintId("COL", s.collects.counter + 1)
    ensures var t := s.(collects := Inserted(Minted(s.collects), row.id, row));
      WellFormed(t) && CoherentExcept(t, {row.invoiceId}, {})
  {
    var t := s.(collects := Inserted(Minted(s.collects), row.id, row));
    CreateValid(s.collects, CollectionId, "COL", row);
    forall id | id in s.invoices.rows && id != row.invoiceId
      ensures Listed(t.collects, CollectionKeys, ByRef(id)) == Listed(s.collects, CollectionKeys, ByRef(id))
    {
      ListsInvoiceOfCollection(row, id);
      InsertSkips(s.collects, row.id, row, Accepting(CollectionKeys, ByRef(id)));
    }
    SameListsSameCoherence(s, t, {row.invoiceId});
  }

  lemma UpdateCollectionBreaks(s: State, row: Collection)
    requires WellFormed(s) && Coherent(s) && row.id in s.collects.rows
    ensures var t := s.(collects := Updated(s.collects, row.id, row));
      WellFormed(t) && CoherentExcept(t, {row.invoiceId, s.collects.rows[row.id].invoiceId}, {})
  {
    var t := s.(collects := Updated(s.collects, row.id, row));
    var cur := s.collects.rows[row.id];
    UpdateValid(s.collects, CollectionId, "COL", row);
    forall id | id in s.invoices.rows && id != row.invoiceId && id != cur.invoiceId
      ensures Listed(t.collects, CollectionKeys, ByRef(id)) == Listed(s.collects, CollectionKeys, ByRef(id))
    {
      ListsInvoiceOfCollection(row, id);
      ListsInvoiceOfCollection(cur, id);
      UpdateSkips(s.collects, row.id, row, Accepting(CollectionKeys, ByRef(id)));
    }
    SameListsSameCoherence(s, t, {row.invoiceId, cur.invoiceId});
  }

  lemma DeleteCollectionBreaks(s: State, id: string)
    requires WellFormed(s) && Coherent(s) && id in s.collects.rows
    ensures var t := s.(collects := Deleted(s.collects, id));
      WellFormed(t) && CoherentExcept(t, {s.collects.rows[id].invoiceId}, {})
  {
    var t := s.(collects := Deleted(s.collects, id));
    var cur := s.collects.rows[id];
    DeleteValid(s.collects, CollectionId, "COL", id);
    forall i | i in s.invoices.rows && i != cur.invoiceId
      ensures Listed(t.collects, CollectionKeys, ByRef(i)) == Listed(s.collects, CollectionKeys, ByRef(i))
    {
      ListsInvoiceOfCollection(cur, i);
      DeleteSkips(s.collects, id, Accepting(CollectionKeys, ByRef(i)));
    }
    SameListsSameCoherence(s, t, {cur.invoiceId});
  }

  lemma InsertReturnBreaks(s: State, row: OutletReturn)
    requires WellFormed(s) && Coherent(s)
    requires row.id == MintId("RET", s.rets.counter + 1)
    ensures var t := s.(rets := Inserted(Minted(s.rets), row.id, row));
      WellFormed(t) && CoherentExcept(t, {row.invoiceId}, {})
  {
    var t := s.(rets := Inserted(Minted(s.rets), row.id, row));
    CreateValid(s.rets, ReturnId, "RET", row);
    forall id | id in s.invoices.rows && id != row.invoiceId
      ensures Listed(t.rets, ReturnKeys, ByRef(id)) == Listed(s.rets, ReturnKeys, ByRef(id))
    {
      ListsInvoiceOfReturn(row, id);
      InsertSkips(s.rets, row.id, row, Accepting(ReturnKeys, ByRef(id)));
    }
    SameListsSameCoherence(s, t, {row.invoiceId});
  }

  lemma UpdateReturnBreaks(s: State, row: OutletReturn)
    requires WellFormed(s) && Coherent(s) && row.id in s.rets.rows
    ensures var t := s.(rets := Updated(s.rets, row.id, row));
      WellFormed(t) && CoherentExcept(t, {row.invoiceId, s.rets.rows[row.id].invoiceId}, {})
  {
    var t := s.(rets := Updated(s.rets, row.id, row));
    var cur := s.rets.rows[row.id];
    UpdateValid(s.rets, ReturnId, "RET", row);
    forall id | id in s.invoices.rows && id != row.invoiceId && id != cur.invoiceId
      ensures Listed(t.rets, ReturnKeys, ByRef(id)) == Listed(s.rets, ReturnKeys, ByRef(id))
    {
      ListsInvoiceOfReturn(row, id);
      ListsInvoiceOfReturn(cur, id);
      UpdateSkips(s.rets, row.id, row, Accepting(ReturnKeys, ByRef(id)));
    }
    SameListsSameCoherence(s, t, {row.invoiceId, cur.invoiceId});
  }

  lemma DeleteReturnBreaks(s: State, id: string)
    requires WellFormed(s) && Coherent(s) && id in s.rets.rows
    ensures var t := s.(rets := Deleted(s.rets, id));
      WellFormed(t) && CoherentExcept(t, {s.rets.rows[id].invoiceId}, {})
  {
    var t := s.(rets := Deleted(s.rets, id));
    var cur := s.rets.rows[id];
    DeleteValid(s.rets, ReturnId, "RET", id);
    forall i | i in s.invoices.rows && i != cur.invoiceId
      ensures Listed(t.rets, ReturnKeys, ByRef(i)) == Listed(s.rets, ReturnKeys, ByRef(i))
    {
      ListsInvoiceOfReturn(cur, i);
      DeleteSkips(s.rets, id, Accepting(ReturnKeys, ByRef(i)));
    }
    SameListsSameCoherence(s, t, {cur.invoiceId});
  }

  /** A refresh of an id that is not an invoice changes nothing, and no invoice
      of that id was incoherent. */
  lemma RefreshClears(s: State, id: string, rest: set<string>)
    requires WellFormed(s) && CoherentExcept(s, {id} + rest, {})
    ensures WellFormed(RefreshInvoice(s, id)) && CoherentExcept(RefreshInvoice(s, id), rest, {})
  {
    RefreshInvoiceWellFormed(s, id);
    RefreshRepairs(s, id, {id} + rest, {});
    var s' := RefreshInvoice(s, id);
    forall j | j in s'.invoices.rows && j !in rest ensures InvoiceCoherent(s', j) {
      assert j !in ({id} + rest) - {id};
    }
  }

  lemma RefreshNamedClears(s: State, id: string, rest: set<string>)
    requires WellFormed(s) && CoherentExcept(s, {id} + rest, {})
    ensures WellFormed(RefreshNamed(s, id)) && CoherentExcept(RefreshNamed(s, id), rest, {})
  {
    if id != "" {
      RefreshClears(s, id, rest);
    }
  }

  // ---- one call ---------------------------------------------------------------

  lemma CreateCollectionCoherent(s: State, c: Collection)
    requires WellFormed(s) && Coherent(s)
    ensures WellFormed(CreateCollection(s, c).0) && Coherent(CreateCollection(s, c).0)
  {
    if CreateCollection(s, c).1.Success? {
      var row := CreateCollection(s, c).1.value;
      InsertCollectionBreaks(s, row);
      RefreshClears(s.(collects := Inserted(Minted(s.collects), row.id, row)), row.invoiceId, {});
    }
  }

  lemma UpdateCollectionCoherent(s: State, id: string, c: Collection)
    requires WellFormed(s) && Coherent(s)
    ensures WellFormed(UpdateCollection(s, id, c).0) && Coherent(UpdateCollection(s, id, c).0)
  {
    if UpdateCollection(s, id, c).1.Success? {
      var row := UpdateCollection(s, id, c).1.value;
      var cur := s.collects.rows[id];
      assert CollectionId(cur) == id;
      UpdateCollectionBreaks(s, row);
      var t := s.(collects := Updated(s.collects, row.id, row));
      var rest := if cur.invoiceId == row.invoiceId then {} else {cur.invoiceId};
      assert {row.invoiceId} + rest == {row.invoiceId, cur.invoiceId};
      RefreshClears(t, row.invoiceId, rest);
      if cur.invoiceId != row.invoiceId {
        RefreshClears(RefreshInvoice(t, row.invoiceId), cur.invoiceId, {});
      }
    }
  }

  lemma DeleteCollectionCoherent(s: State, id: string)
    requires WellFormed(s) && Coherent(s)
    ensures WellFormed(DeleteCollection(s, id).0) && Coherent(DeleteCollection(s, id).0)
  {
    if DeleteCollection(s, id).1.Success? {
      DeleteCollectionBreaks(s, id);
      RefreshClears(s.(collects := Deleted(s.collects, id)), s.collects.rows[id].invoiceId, {});
    }
  }

  lemma CreateReturnCoherent(s: State, r: OutletReturn)
    requires WellFormed(s) && Coherent(s)
    ensures WellFormed(CreateReturn(s, r).0) && Coherent(CreateReturn(s, r).0)
  {
    if CreateReturn(s, r).1.Success? {
      var row := CreateReturn(s, r).1.value;
      InsertReturnBreaks(s, row);
      RefreshNamedClears(s.(rets := Inserted(Minted(s.rets), row.id, row)), row.invoiceId, {});
    }
  }

  lemma UpdateReturnCoherent(s: State, id: string, r: OutletReturn)
    requires WellFormed(s) && Coherent(s)
    ensures WellFormed(UpdateReturn(s, id, r).0) && Coherent(UpdateReturn(s, id, r).0)
  {
    if UpdateReturn(s, id, r).1.Success? {
      var row := UpdateReturn(s, id, r).1.value;
      var cur := s.rets.rows[id];
      assert ReturnId(cur) == id;
      UpdateReturnBreaks(s, row);
      var t := s.(rets := Updated(s.rets, row.id, row));
      assert {row.invoiceId} + {cur.invoiceId} == {row.invoiceId, cur.invoiceId};
      RefreshNamedClears(t, row.invoiceId, {cur.invoiceId});
      RefreshNamedClears(RefreshNamed(t, row.invoiceId), cur.invoiceId, {});
    }
  }

  lemma DeleteReturnCoherent(s: State, id: string)
    requires WellFormed(s) && Coherent(s)
    ensures WellFormed(DeleteReturn(s, id).0) && Coherent(DeleteReturn(s, id).0)
  {
    if DeleteReturn(s, id).1.Success? {
      DeleteReturnBreaks(s, id);
      RefreshNamedClears(s.(rets := Deleted(s.rets, id)), s.rets.rows[id].invoiceId, {});
    }
  }

  lemma ValidInvoiceShape(s: State, i: InvoiceInput, existing: Option<Invoice>)
    requires ValidateInvoice(s, i, existing).Success?
    ensures var d := ValidateInvoice(s, i, existing).value;
      && d.outletId == i.doc.outletId && d.outletId != "" && FindOutlet(s.outlets, d.outletId).Some?
      && d.vanLoadId == i.doc.vanLoadId && d.quantity == i.doc.quantity && d.schemeValue == i.doc.schemeValue
      && d.status == (if i.doc.status == Blank then Invoiced else i.doc.status)
      && d.amount > 0.0
  {
    var d := PricedInvoice(s, i.doc, existing).value;
    var o := FindOutlet(s.outlets, d.outletId).value;
    PricedShape(s, i.doc, existing);
    CreditCheckShape(s, i.(doc := d), o, existing);
    SchemeCheckShape(s, CreditCheck(s, i.(doc := d), o, existing).value, o);
  }

  /** What the credit and scheme checks leave as it is. */
  predicate SameShape(a: Invoice, b: Invoice)
  {
    && a.outletId == b.outletId && a.vanLoadId == b.vanLoadId && a.quantity == b.quantity
    && a.schemeValue == b.schemeValue && a.status == b.status && a.amount == b.amount
  }

  lemma PricedShape(s: State, i: Invoice, existing: Option<Invoice>)
    requires PricedInvoice(s, i, existing).Success?
    ensures var d := PricedInvoice(s, i, existing).value;
      && d.outletId == i.outletId && d.outletId != "" && FindOutlet(s.outlets, d.outletId).Some?
      && d.vanLoadId == i.vanLoadId && d.quantity == i.quantity && d.schemeValue == i.schemeValue
      && d.status == (if i.status == Blank then Invoiced else i.status) && d.amount > 0.0
  {
  }

  lemma CreditCheckShape(s: State, i: InvoiceInput, o: Outlet, existing: Option<Invoice>)
    requires CreditCheck(s, i, o, existing).Success?
    ensures SameShape(CreditCheck(s, i, o, existing).value, i.doc)
  {
  }

  lemma SchemeCheckShape(s: State, d: Invoice, o: Outlet)
    requires SchemeCheck(s, d, o).Success?
    ensures SameShape(SchemeCheck(s, d, o).value, d)
  {
  }

  /** A create in terms of the row it stores. */
  lemma CreatedInvoice(s: State, i: InvoiceInput, d: Invoice)
    requires ValidateInvoice(s, i, None) == Success(d)
    ensures var row := NewInvoice(s, d);
      CreateInvoice(s, i) == (AddInvoice(s, row), Success(Settled(row, InvoiceOutstanding(s, row))))
  {
  }

  lemma NewOutletNamed(s: State, row: Invoice)
    requires OutletsNamed(s) && FindOutlet(s.outlets, row.outletId).Some?
    ensures NotYetMinted("OUT", s.nextOutlet, row.outletId)
  {
  }

  /** Coherence after a write to the invoice table that leaves other invoices'
      rows and other outlets' lists alone. */
  lemma InvoiceWriteBreaks(s: State, t: State, broken: set<string>, outlets: set<string>)
    requires WellFormed(s) && Coherent(s)
    requires t == s.(invoices := t.invoices)
    requires forall j :: j in t.invoices.rows && j !in broken ==>
      j in s.invoices.rows && t.invoices.rows[j] == s.invoices.rows[j]
    requires forall o :: o in s.outlets && o.id !in outlets ==> OutletOutstanding(t, o.id) == OutletOutstanding(s, o.id)
    ensures CoherentExcept(t, broken, outlets)
  {
    forall j | j in t.invoices.rows && j !in broken ensures InvoiceCoherent(t, j) {
      InvoiceFrame(s, t, j);
    }
    forall o | o in t.outlets && o.id !in outlets ensures BalanceCoherent(t, o) {
      assert BalanceCoherent(s, o);
    }
  }

  lemma InsertInvoiceBreaks(s: State, row: Invoice)
    requires WellFormed(s) && Coherent(s) && FindOutlet(s.outlets, row.outletId).Some?
    requires row.id == MintId("SINV", s.invoices.counter + 1)
    ensures var t := s.(invoices := Inserted(Minted(s.invoices), row.id, row));
      WellFormed(t) && CoherentExcept(t, {row.id}, {row.outletId})
  {
    var t := s.(invoices := Inserted(Minted(s.invoices), row.id, row));
    CreateValid(s.invoices, InvoiceId, "SINV", row);
    NewOutletNamed(s, row);
    forall o | o in s.outlets && o.id != row.outletId
      ensures OutletOutstanding(t, o.id) == OutletOutstanding(s, o.id)
    {
      ListsOutlet(row, o.id);
      InsertSkips(s.invoices, row.id, row, Accepting(InvoiceKeys, ByOutlet(o.id)));
    }
    InvoiceWriteBreaks(s, t, {row.id}, {row.outletId});
  }

  lemma UpdateInvoiceBreaks(s: State, row: Invoice)
    requires WellFormed(s) && Coherent(s) && FindOutlet(s.outlets, row.outletId).Some?
    requires row.id in s.invoices.rows
    ensures var t := s.(invoices := Updated(s.invoices, row.id, row));
      WellFormed(t) && CoherentExcept(t, {row.id}, {row.outletId, s.invoices.rows[row.id].outletId})
  {
    var t := s.(invoices := Updated(s.invoices, row.id, row));
    var cur := s.invoices.rows[row.id];
    UpdateValid(s.invoices, InvoiceId, "SINV", row);
    NewOutletNamed(s, row);
    forall o | o in s.outlets && o.id != row.outletId && o.id != cur.outletId
      ensures OutletOutstanding(t, o.id) == OutletOutstanding(s, o.id)
    {
      OtherOutletsSame(s, row.id, row, o.id);
    }
    InvoiceWriteBreaks(s, t, {row.id}, {row.outletId, cur.outletId});
  }

  lemma DeleteInvoiceBreaks(s: State, id: string)
    requires WellFormed(s) && Coherent(s) && id in s.invoices.rows
    ensures var t := s.(invoices := Deleted(s.invoices, id));
      WellFormed(t) && CoherentExcept(t, {}, {s.invoices.rows[id].outletId})
  {
    var t := s.(invoices := Deleted(s.invoices, id));
    var cur := s.invoices.rows[id];
    DeleteValid(s.invoices, InvoiceId, "SINV", id);
    forall o | o in s.outlets && o.id != cur.outletId
      ensures OutletOutstanding(t, o.id) == OutletOutstanding(s, o.id)
    {
      ListsOutlet(cur, o.id);
      DeleteSkips(s.invoices, id, Accepting(InvoiceKeys, ByOutlet(o.id)));
    }
    InvoiceWriteBreaks(s, t, {}, {cur.outletId});
  }

  lemma CreateInvoiceCoherent(s: State, i: InvoiceInput)
    requires WellFormed(s) && Coherent(s)
    ensures WellFormed(CreateInvoice(s, i).0) && Coherent(CreateInvoice(s, i).0)
  {
    if ValidateInvoice(s, i, None).Success? {
      ValidInvoiceShape(s, i, None);
      var d := ValidateInvoice(s, i, None).value;
      var row := NewInvoice(s, d);
      var id := row.id;
      InsertInvoiceBreaks(s, row);
      var t := s.(invoices := Inserted(Minted(s.invoices), id, row));
      RefreshInvoiceWellFormed(t, id);
      RefreshRepairs(t, id, {id}, {row.outletId});
      assert {id} - {id} == {} && {row.outletId} - {row.outletId} == {};
    }
  }

  lemma ReplaceInvoiceCoherent(s: State, cur: Invoice, row: Invoice)
    requires WellFormed(s) && Coherent(s) && FindOutlet(s.outlets, row.outletId).Some?
    requires row.id in s.invoices.rows && cur == s.invoices.rows[row.id]
    ensures WellFormed(ReplaceInvoice(s, cur, row)) && Coherent(ReplaceInvoice(s, cur, row))
  {
    UpdateInvoiceBreaks(s, row);
    var t := s.(invoices := Updated(s.invoices, row.id, row));
    RefreshInvoiceWellFormed(t, row.id);
    RefreshRepairs(t, row.id, {row.id}, {row.outletId, cur.outletId});
    var t1 := RefreshInvoice(t, row.id);
    assert {row.id} - {row.id} == {};
    var left := {row.outletId, cur.outletId} - {row.outletId};
    assert t.invoices.rows[row.id].outletId == row.outletId;
    assert CoherentExcept(t1, {}, left);
    if cur.outletId != row.outletId {
      RefreshOutletRepairs(t1, cur.outletId, {}, left);
      RefreshOutletWellFormed(t1, cur.outletId);
      assert left - {cur.outletId} == {};
    } else {
      assert left == {};
    }
  }

  lemma UpdateInvoiceCoherent(s: State, id: string, i: InvoiceInput)
    requires WellFormed(s) && Coherent(s)
    ensures WellFormed(UpdateInvoice(s, id, i).0) && Coherent(UpdateInvoice(s, id, i).0)
  {
    if UpdateInvoice(s, id, i).1.Success? {
      var cur := s.invoices.rows[id];
      assert InvoiceId(cur) == id;
      ValidInvoiceShape(s, i, Some(cur));
      ReplaceInvoiceCoherent(s, cur, ValidateInvoice(s, i, Some(cur)).value.(id := id));
    }
  }

  lemma DeleteInvoiceCoherent(s: State, id: string)
    requires WellFormed(s) && Coherent(s)
    ensures WellFormed(DeleteInvoice(s, id).0) && Coherent(DeleteInvoice(s, id).0)
  {
    if DeleteInvoice(s, id).1.Success? {
      var cur := s.invoices.rows[id];
      DeleteInvoiceBreaks(s, id);
      var t := s.(invoices := Deleted(s.invoices, id));
      RefreshOutletRepairs(t, cur.outletId, {}, {cur.outletId});
      RefreshOutletWellFormed(t, cur.outletId);
      assert {cur.outletId} - {cur.outletId} == {};
    }
  }

  // ---- outlets ------------------------------------------------------------------

  /** No invoice can name an outlet that does not exist yet, so the zero balance
      a new outlet starts with is right. */
  lemma NewOutletOwesNothing(s: State, id: string)
    requires WellFormed(s) && id != ""
    requires forall j :: j in s.invoices.rows ==> s.invoices.rows[j].outletId != id
    ensures OutletOutstanding(s, id) == 0.0
  {
    var keep := Accepting(InvoiceKeys, ByOutlet(id));
    MatchingFrom(s.invoices.order, s.invoices.rows, keep);
    var kept := Kept(s.invoices, InvoiceKeys, ByOutlet(id));
    if kept != [] {
      assert kept[0] in kept;
      ListsOutlet(kept[0], id);
    }
    ZeroIsCents();
    RoundFixesCents(0.0);
  }

  lemma NextOutletNamed(s: State, o: OutletInput)
    requires OutletsNamed(s) && CreateOutlet(s, o).1.Success?
    ensures OutletsNamed(CreateOutlet(s, o).0)
  {
    forall k: nat | k > s.nextOutlet + 1 ensures MintId("OUT", k) != MintId("OUT", s.nextOutlet + 1) {
      if MintId("OUT", k) == MintId("OUT", s.nextOutlet + 1) {
        MintIdInjective("OUT", k, s.nextOutlet + 1);
      }
    }
  }

  lemma AppendedOutletCoherent(s: State, t: State, row: Outlet)
    requires Coherent(s) && t.invoices == s.invoices && t.collects == s.collects && t.rets == s.rets
    requires t.outlets == s.outlets + [row] && BalanceCoherent(s, row)
    ensures Coherent(t)
  {
    forall id | id in t.invoices.rows ensures InvoiceCoherent(t, id) {
      InvoiceFrame(s, t, id);
    }
    forall x | x in t.outlets ensures BalanceCoherent(t, x) {
      BalanceFrame(s, t, x, x);
    }
  }

  lemma CreateOutletCoherent(s: State, o: OutletInput)
    requires WellFormed(s) && Coherent(s)
    ensures WellFormed(CreateOutlet(s, o).0) && Coherent(CreateOutlet(s, o).0)
  {
    if CreateOutlet(s, o).1.Success? {
      var row := CreateOutlet(s, o).1.value;
      NextOutletNamed(s, o);
      NewOutletOwesNothing(s, row.id);
      AppendedOutletCoherent(s, CreateOutlet(s, o).0, row);
    }
  }

  lemma {:induction false} PatchKeeps(outlets: seq<Outlet>, id: string, p: OutletPatch)
    ensures forall x :: x in PatchFirst(outlets, id, p) ==>
      exists y :: y in outlets && x.id == y.id && x.outstanding == y.outstanding
  {
    if outlets != [] {
      PatchKeeps(outlets[1..], id, p);
      forall x | x in PatchFirst(outlets, id, p)
        ensures exists y :: y in outlets && x.id == y.id && x.outstanding == y.outstanding
      {
        if x in outlets {
        } else if outlets[0].id == id {
          assert x == Patched(outlets[0], p) && outlets[0] in outlets;
        } else {
          var y :| y in outlets[1..] && x.id == y.id && x.outstanding == y.outstanding;
          assert y in outlets;
        }
      }
    }
  }

  lemma {:induction false} RemoveKeeps(outlets: seq<Outlet>, id: string)
    ensures forall x :: x in RemoveFirst(outlets, id) ==> x in outlets
  {
    if outlets != [] {
      RemoveKeeps(outlets[1..], id);
    }
  }

  lemma OutletsCoherent(s: State, t: State)
    requires WellFormed(s) && Coherent(s) && t == s.(outlets := t.outlets)
    requires forall x :: x in t.outlets ==> exists y :: y in s.outlets && x.id == y.id && x.outstanding == y.outstanding
    ensures WellFormed(t) && Coherent(t)
  {
    forall id | id in t.invoices.rows ensures InvoiceCoherent(t, id) {
      InvoiceFrame(s, t, id);
    }
    forall x | x in t.outlets ensures BalanceCoherent(t, x) {
      var y :| y in s.outlets && x.id == y.id && x.outstanding == y.outstanding;
      BalanceFrame(s, t, x, y);
    }
  }

  // ---- the remaining tables are not read by any of these caches -------------------

  lemma OtherTablesCoherent(s: State, t: State)
    requires WellFormed(s) && Coherent(s) && TablesValid(t)
    requires t == s.(loads := t.loads, recons := t.recons, schemes := t.schemes)
    ensures WellFormed(t) && Coherent(t)
  {
    forall id | id in t.invoices.rows ensures InvoiceCoherent(t, id) {
      InvoiceFrame(s, t, id);
    }
    forall x | x in t.outlets ensures BalanceCoherent(t, x) {
      BalanceFrame(s, t, x, x);
    }
  }

  lemma CreateLoadCoherent(s: State, v: VanLoad)
    requires WellFormed(s) && Coherent(s)
    ensures WellFormed(CreateVanLoad(s, v).0) && Coherent(CreateVanLoad(s, v).0)
  {
    if CreateVanLoad(s, v).1.Success? {
      CreateValid(s.loads, LoadId, "VAN", CreateVanLoad(s, v).1.value);
      OtherTablesCoherent(s, CreateVanLoad(s, v).0);
    }
  }

  lemma UpdateLoadCoherent(s: State, id: string, v: VanLoad)
    requires WellFormed(s) && Coherent(s)
    ensures WellFormed(UpdateVanLoad(s, id, v).0) && Coherent(UpdateVanLoad(s, id, v).0)
  {
    if UpdateVanLoad(s, id, v).1.Success? {
      assert LoadId(s.loads.rows[id]) == id;
      UpdateValid(s.loads, LoadId, "VAN", UpdateVanLoad(s, id, v).1.value);
      OtherTablesCoherent(s, UpdateVanLoad(s, id, v).0);
    }
  }

  lemma DeleteLoadCoherent(s: State, id: string)
    requires WellFormed(s) && Coherent(s)
    ensures WellFormed(DeleteVanLoad(s, id).0) && Coherent(DeleteVanLoad(s, id).0)
  {
    if DeleteVanLoad(s, id).1.Success? {
      DeleteValid(s.loads, LoadId, "VAN", id);
      OtherTablesCoherent(s, DeleteVanLoad(s, id).0);
    }
  }

  lemma CreateReconCoherent(s: State, v: VanRecon)
    requires WellFormed(s) && Coherent(s)
    ensures WellFormed(CreateVanRecon(s, v).0) && Coherent(CreateVanRecon(s, v).0)
  {
    if CreateVanRecon(s, v).1.Success? {
      CreateValid(s.recons, ReconId, "VRC", CreateVanRecon(s, v).1.value);
      OtherTablesCoherent(s, CreateVanRecon(s, v).0);
    }
  }

  lemma UpdateReconCoherent(s: State, id: string, v: VanRecon)
    requires WellFormed(s) && Coherent(s)
    ensures WellFormed(UpdateVanRecon(s, id, v).0) && Coherent(UpdateVanRecon(s, id, v).0)
  {
    if UpdateVanRecon(s, id, v).1.Success? {
      assert ReconId(s.recons.rows[id]) == id;
      UpdateValid(s.recons, ReconId, "VRC", UpdateVanRecon(s, id, v).1.value);
      OtherTablesCoherent(s, UpdateVanRecon(s, id, v).0);
    }
  }

  lemma DeleteReconCoherent(s: State, id: string)
    requires WellFormed(s) && Coherent(s)
    ensures WellFormed(DeleteVanRecon(s, id).0) && Coherent(DeleteVanRecon(s, id).0)
  {
    if DeleteVanRecon(s, id).1.Success? {
      DeleteValid(s.recons, ReconId, "VRC", id);
      OtherTablesCoherent(s, DeleteVanRecon(s, id).0);
    }
  }

  lemma CreateSchemeCoherent(s: State, c: Scheme)
    requires WellFormed(s) && Coherent(s)
    ensures WellFormed(CreateScheme(s, c).0) && Coherent(CreateScheme(s, c).0)
  {
    if CreateScheme(s, c).1.Success? {
      CreateValid(s.schemes, SchemeId, "SCH", CreateScheme(s, c).1.value);
      OtherTablesCoherent(s, CreateScheme(s, c).0);
    }
  }

  lemma UpdateSchemeCoherent(s: State, id: string, c: Scheme)
    requires WellFormed(s) && Coherent(s)
    ensures WellFormed(UpdateScheme(s, id, c).0) && Coherent(UpdateScheme(s, id, c).0)
  {
    if UpdateScheme(s, id, c).1.Success? {
      assert SchemeId(s.schemes.rows[id]) == id;
      var row := c.(id := id, status := if c.status == Blank then s.schemes.rows[id].status else c.status);
      UpdateValid(s.schemes, SchemeId, "SCH", row);
      var t := s.(schemes := Updated(s.schemes, id, row));
      OtherTablesCoherent(s, t);
      RefreshSchemeFrame(t, id);
      OtherTablesCoherent(t, RefreshScheme(t, id));
    }
  }

  lemma DeleteSchemeCoherent(s: State, id: string)
    requires WellFormed(s) && Coherent(s)
    ensures WellFormed(DeleteScheme(s, id).0) && Coherent(DeleteScheme(s, id).0)
  {
    if DeleteScheme(s, id).1.Success? {
      DeleteValid(s.schemes, SchemeId, "SCH", id);
      OtherTablesCoherent(s, DeleteScheme(s, id).0);
    }
  }

  // ---- every call, every run --------------------------------------------------------

  lemma OutletStepCoherent(s: State, op: Op)
    requires WellFormed(s) && Coherent(s)
    requires op.OpCreateOutlet? || op.OpPatchOutlet? || op.OpDeleteOutlet?
    ensures WellFormed(DeskStep(s, op)) && Coherent(DeskStep(s, op))
  {
    match op
    case OpCreateOutlet(o) => CreateOutletCoherent(s, o);
    case OpPatchOutlet(id, p) => PatchKeeps(s.outlets, id, p); OutletsCoherent(s, DeskStep(s, op));
    case OpDeleteOutlet(id) => RemoveKeeps(s.outlets, id); OutletsCoherent(s, DeskStep(s, op));
  }

  lemma BookStepCoherent(s: State, op: Op)
    requires WellFormed(s) && Coherent(s) && OnBooks(op)
    ensures WellFormed(BookStep(s, op)) && Coherent(BookStep(s, op))
  {
    match op
    case OpCreateInvoice(i) => CreateInvoiceCoherent(s, i);
    case OpUpdateInvoice(id, i) => UpdateInvoiceCoherent(s, id, i);
    case OpDeleteInvoice(id) => DeleteInvoiceCoherent(s, id);
    case OpCreateCollection(c) => CreateCollectionCoherent(s, c);
    case OpUpdateCollection(id, c) => UpdateCollectionCoherent(s, id, c);
    case OpDeleteCollection(id) => DeleteCollectionCoherent(s, id);
    case OpCreateReturn(r) => CreateReturnCoherent(s, r);
    case OpUpdateReturn(id, r) => UpdateReturnCoherent(s, id, r);
    case OpDeleteReturn(id) => DeleteReturnCoherent(s, id);
  }

  lemma VanStepCoherent(s: State, op: Op)
    requires WellFormed(s) && Coherent(s) && OnVans(op)
    ensures WellFormed(DeskStep(s, op)) && Coherent(DeskStep(s, op))
  {
    match op
    case OpCreateLoad(v) => CreateLoadCoherent(s, v);
    case OpUpdateLoad(id, v) => UpdateLoadCoherent(s, id, v);
    case OpDeleteLoad(id) => DeleteLoadCoherent(s, id);
    case OpCreateRecon(v) => CreateReconCoherent(s, v);
    case OpUpdateRecon(id, v) => UpdateReconCoherent(s, id, v);
    case OpDeleteRecon(id) => DeleteReconCoherent(s, id);
  }

  lemma DeskStepCoherent(s: State, op: Op)
    requires WellFormed(s) && Coherent(s) && !OnBooks(op)
    ensures WellFormed(DeskStep(s, op)) && Coherent(DeskStep(s, op))
  {
    match op
    case OpCreateLoad(_) => VanStepCoherent(s, op);
    case OpUpdateLoad(_, _) => VanStepCoherent(s, op);
    case OpDeleteLoad(_) => VanStepCoherent(s, op);
    case OpCreateRecon(_) => VanStepCoherent(s, op);
    case OpUpdateRecon(_, _) => VanStepCoherent(s, op);
    case OpDeleteRecon(_) => VanStepCoherent(s, op);
    case OpCreateScheme(c) => CreateSchemeCoherent(s, c);
    case OpUpdateScheme(id, c) => UpdateSchemeCoherent(s, id, c);
    case OpDeleteScheme(id) => DeleteSchemeCoherent(s, id);
    case OpCreateOutlet(_) => OutletStepCoherent(s, op);
    case OpPatchOutlet(_, _) => OutletStepCoherent(s, op);
    case OpDeleteOutlet(_) => OutletStepCoherent(s, op);
  }

  lemma StepCoherent(s: State, op: Op)
    requires WellFormed(s) && Coherent(s)
    ensures WellFormed(Step(s, op)) && Coherent(Step(s, op))
  {
    if OnBooks(op) {
      BookStepCoherent(s, op);
    } else {
      DeskStepCoherent(s, op);
    }
  }

  /** Every cache agrees with its recomputation after every run, with no bound on
      the tables and no condition on the calls. */
  lemma {:induction false} CachesAgreeOverRuns(s: State, ops: seq<Op>)
    requires WellFormed(s) && Coherent(s)
    ensures WellFormed(Run(s, ops)) && Coherent(Run(s, ops))
    decreases |ops|
  {
    if ops != [] {
      StepCoherent(s, ops[0]);
      CachesAgreeOverRuns(Step(s, ops[0]), ops[1..]);
    }
  }

  /** The empty store is where such runs start: no fixture outlet may use an id
      the outlet counter will mint, or carry a balance nobody owes. */
  lemma FreshCoherent(outlets: seq<Outlet>, distributors: set<string>, beats: set<string>)
    requires forall o :: o in outlets ==> o.id != "" && o.outstanding == 0.0 && NotYetMinted("OUT", 2849, o.id)
    ensures WellFormed(Fresh(outlets, distributors, beats)) && Coherent(Fresh(outlets, distributors, beats))
  {
  }
}
