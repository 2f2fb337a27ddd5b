/** Recomputing instead of incrementing heals: whatever the cached figures were,
    refreshing every invoice restores them, and the order does not matter. */
module Healing {
  import opened Coherence
  import opened Ledger
  import opened Money
  import opened TableLemmas
  import opened Tables
  import opened Wrappers

  function RefreshAll(s: State, ids: seq<string>): State
  {
    if ids == [] then s
    else RefreshInvoice(RefreshAll(s, ids[..|ids| - 1]), ids[|ids| - 1])
  }

  // ---- restoration -------------------------------------------------------------

  /** Some invoice among `ids` belongs to the outlet. */
  ghost predicate Touches(s: State, ids: set<string>, outletId: string)
  {
    exists id :: id in ids && id in s.invoices.rows && s.invoices.rows[id].outletId == outletId
  }

  function Named(ids: seq<string>): set<string>
  {
    set id | id in ids
  }

  /** The outlets no invoice among `ids` belongs to. */
  ghost function Untouched(s: State, ids: set<string>): set<string>
  {
    set o | o in s.outlets && !Touches(s, ids, o.id) :: o.id
  }

  lemma UntouchedShrinks(s: State, ids: set<string>, id: string)
    ensures id in s.invoices.rows ==> Untouched(s, ids) - {s.invoices.rows[id].outletId} <= Untouched(s, ids + {id})
    ensures id !in s.invoices.rows ==> Untouched(s, ids) <= Untouched(s, ids + {id})
  {
  }

  /** Same invoices under the same outlets, whatever the refreshes did. */
  ghost predicate SameInvoices(s: State, t: State)
  {
    && t.invoices.rows.Keys == s.invoices.rows.Keys
    && forall id :: id in s.invoices.rows ==> t.invoices.rows[id].outletId == s.invoices.rows[id].outletId
  }

  lemma {:induction false} RefreshAllFrame(s: State, ids: seq<string>)
    requires WellFormed(s)
    ensures WellFormed(RefreshAll(s, ids)) && SameBut(s, RefreshAll(s, ids)) && SameInvoices(s, RefreshAll(s, ids))
  {
    if ids != [] {
      RefreshAllFrame(s, ids[..|ids| - 1]);
      var t := RefreshAll(s, ids[..|ids| - 1]);
      RefreshKeepsInvoices(t, ids[|ids| - 1]);
    }
  }

  lemma RefreshKeepsInvoices(t: State, id: string)
    requires WellFormed(t)
    ensures WellFormed(RefreshInvoice(t, id)) && SameBut(t, RefreshInvoice(t, id))
    ensures SameInvoices(t, RefreshInvoice(t, id))
  {
    RefreshInvoiceFrame(t, id);
    RefreshInvoiceWellFormed(t, id);
  }

  lemma {:induction false} RefreshAllRepairs(s: State, ids: seq<string>)
    requires WellFormed(s)
    ensures CoherentExcept(RefreshAll(s, ids), s.invoices.rows.Keys - Named(ids), Untouched(s, Named(ids)))
  {
    var n := |ids| - 1;
    if ids == [] {
      NothingTouched(s);
    } else {
      RefreshAllFrame(s, ids[..n]);
      RefreshAllRepairs(s, ids[..n]);
      var t := RefreshAll(s, ids[..n]);
      assert Named(ids) == Named(ids[..n]) + {ids[n]} by { assert ids == ids[..n] + [ids[n]]; }
      RefreshRepairs(t, ids[n], s.invoices.rows.Keys - Named(ids[..n]), Untouched(s, Named(ids[..n])));
      UntouchedShrinks(s, Named(ids[..n]), ids[n]);
      assert s.invoices.rows.Keys - Named(ids) == s.invoices.rows.Keys - Named(ids[..n]) - {ids[n]};
    }
  }

  lemma NothingTouched(s: State)
    ensures CoherentExcept(s, s.invoices.rows.Keys - Named([]), Untouched(s, Named([])))
  {
  }

  /** From any cached figures at all: after every invoice has been refreshed once,
      every invoice and every outlet that has one is right again. */
  lemma RefreshingAllHeals(s: State, ids: seq<string>)
    requires WellFormed(s) && forall id :: id in s.invoices.rows ==> id in ids
    ensures var t := RefreshAll(s, ids);
      && (forall id :: id in t.invoices.rows ==> InvoiceCoherent(t, id))
      && (forall o, id :: o in t.outlets && id in t.invoices.rows && t.invoices.rows[id].outletId == o.id ==>
            BalanceCoherent(t, o))
  {
    RefreshAllRepairs(s, ids);
    RefreshAllFrame(s, ids);
    var t := RefreshAll(s, ids);
    forall o, id | o in t.outlets && id in t.invoices.rows && t.invoices.rows[id].outletId == o.id
      ensures BalanceCoherent(t, o)
    {
      assert id in Named(ids) && s.invoices.rows[id].outletId == o.id;
      assert Touches(s, Named(ids), o.id);
      assert o.id !in Untouched(s, Named(ids));
    }
  }

  // ---- confluence: a closed form that only knows which invoices were refreshed ----

  ghost function HealedInvoices(s: State, ids: set<string>): Table<Invoice>
  {
    s.invoices.(rows := map id | id in s.invoices.rows ::
      if id in ids then Settled(s.invoices.rows[id], InvoiceOutstanding(s, s.invoices.rows[id]))
      else s.invoices.rows[id])
  }

  ghost function HealedOutlet(s: State, ids: set<string>, o: Outlet): Outlet
  {
    if Touches(s, ids, o.id)
    then o.(outstanding := OutletOutstanding(s.(invoices := HealedInvoices(s, ids)), o.id)) else o
  }

  ghost predicate TouchesScheme(s: State, ids: set<string>, schemeId: string)
  {
    exists id :: id in ids && id in s.invoices.rows && s.invoices.rows[id].schemeId == schemeId
  }

  ghost function HealedSchemes(s: State, ids: set<string>): Table<Scheme>
  {
    s.schemes.(rows := map id | id in s.schemes.rows ::
      if TouchesScheme(s, ids, id) then RefreshedScheme(s, s.schemes.rows[id], id) else s.schemes.rows[id])
  }

  ghost function Healed(s: State, ids: set<string>): State
  {
    s.(invoices := HealedInvoices(s, ids), schemes := HealedSchemes(s, ids),
       outlets := seq(|s.outlets|, i requires 0 <= i < |s.outlets| => HealedOutlet(s, ids, s.outlets[i])))
  }

  lemma SettledTwice(inv: Invoice, outstanding: real)
    ensures Settled(Settled(inv, outstanding), outstanding) == Settled(inv, outstanding)
    ensures IsConfirmedInvoice(Settled(inv, outstanding).status) == IsConfirmedInvoice(inv.status)
  {
  }

  /** Lists whose rows weigh the same sum to the same. */
  lemma {:induction false} MatchingAlike<T>(order: seq<string>, a: map<string, T>, b: map<string, T>,
      keep: T -> bool, w: T -> real)
    requires forall id :: id in order ==> (id in a <==> id in b)
    requires forall id :: id in order && id in a ==> keep(a[id]) == keep(b[id]) && w(a[id]) == w(b[id])
    ensures var x, y := Matching(order, a, keep), Matching(order, b, keep);
      |x| == |y| && forall k :: 0 <= k < |x| ==> w(x[k]) == w(y[k])
  {
    if order != [] {
      MatchingAlike(order[..|order| - 1], a, b, keep, w);
    }
  }

  lemma {:induction false} SumAlike<T>(x: seq<T>, y: seq<T>, w: T -> real)
    requires |x| == |y| && forall k :: 0 <= k < |x| ==> w(x[k]) == w(y[k])
    ensures SumOf(x, w) == SumOf(y, w)
  {
    if x != [] {
      SumAlike(x[..|x| - 1], y[..|y| - 1], w);
    }
  }

  lemma ListedAlike(a: Table<Invoice>, b: Table<Invoice>, w: Invoice -> real)
    requires a.order == b.order && forall id :: id in a.order ==> (id in a.rows <==> id in b.rows)
    requires forall id :: id in a.order && id in a.rows ==> w(a.rows[id]) == w(b.rows[id])
    ensures SumOf(Listed(a, InvoiceKeys, EVERYTHING), w) == SumOf(Listed(b, InvoiceKeys, EVERYTHING), w)
  {
    var keep := Accepting(InvoiceKeys, EVERYTHING);
    forall id | id in a.order && id in a.rows ensures keep(a.rows[id]) == keep(b.rows[id]) {
      assert keep(a.rows[id]) == Accepts(InvoiceKeys(a.rows[id]), EVERYTHING);
      assert keep(b.rows[id]) == Accepts(InvoiceKeys(b.rows[id]), EVERYTHING);
    }
    MatchingAlike(a.order, a.rows, b.rows, keep, w);
    SumAlike(Listed(a, InvoiceKeys, EVERYTHING), Listed(b, InvoiceKeys, EVERYTHING), w);
  }

  /** Nothing a scheme counts differs. */
  ghost predicate SameRedemption(a: Table<Invoice>, b: Table<Invoice>)
  {
    && a.order == b.order && a.rows.Keys == b.rows.Keys
    && forall id :: id in a.rows ==>
         && b.rows[id].schemeId == a.rows[id].schemeId && b.rows[id].schemeValue == a.rows[id].schemeValue
         && b.rows[id].quantity == a.rows[id].quantity
         && IsConfirmedInvoice(b.rows[id].status) == IsConfirmedInvoice(a.rows[id].status)
  }

  lemma SchemeSeesThrough(s: State, t: State, id: string)
    requires SameRedemption(s.invoices, t.invoices)
    ensures RedeemedValue(t, id) == RedeemedValue(s, id) && RedeemedVolume(t, id) == RedeemedVolume(s, id)
  {
    ListedAlike(s.invoices, t.invoices, RedeemedValueOf(id));
    ListedAlike(s.invoices, t.invoices, RedeemedVolumeOf(id));
  }

  lemma RedeemedTwice(sch: Scheme, value: real, volume: real)
    ensures Redeemed(Redeemed(sch, value, volume), value, volume) == Redeemed(sch, value, volume)
  {
  }

  lemma HealedRedemption(s: State, ids: set<string>)
    ensures SameRedemption(s.invoices, HealedInvoices(s, ids))
  {
  }

  lemma HealedOutstanding(s: State, h: State, inv: Invoice, was: Invoice)
    requires h.collects == s.collects && h.rets == s.rets
    requires was == inv || was == Settled(inv, InvoiceOutstanding(s, inv))
    ensures Settled(was, InvoiceOutstanding(h, was)) == Settled(inv, InvoiceOutstanding(s, inv))
  {
  }

  lemma HealedInvoicesStep(s: State, ids: set<string>, id: string)
    requires WellFormed(s) && id in s.invoices.rows
    ensures Updated(HealedInvoices(s, ids), id, RefreshedRow(Healed(s, ids), id)) == HealedInvoices(s, ids + {id})
  {
    var h := Healed(s, ids);
    var inv := s.invoices.rows[id];
    var settled := Settled(inv, InvoiceOutstanding(s, inv));
    SettledTwice(inv, InvoiceOutstanding(s, inv));
    assert InvoiceId(inv) == id;
    HealedOutstanding(s, h, inv, h.invoices.rows[id]);
    var a, b := Updated(HealedInvoices(s, ids), id, settled), HealedInvoices(s, ids + {id});
    forall j | j in s.invoices.rows ensures a.rows[j] == b.rows[j] {
    }
    assert a.rows == b.rows;
  }

  /** An outlet's sum changes only with its own invoices. */
  lemma HealedOutletStep(s: State, ids: set<string>, id: string, o: Outlet)
    requires WellFormed(s) && id in s.invoices.rows && o.id != ""
    ensures HealedOutlet(s, ids + {id}, o)
         == if o.id == s.invoices.rows[id].outletId
            then o.(outstanding := OutletOutstanding(s.(invoices := HealedInvoices(s, ids + {id})), o.id))
            else HealedOutlet(s, ids, o)
  {
    var inv := s.invoices.rows[id];
    if o.id == inv.outletId {
      assert Touches(s, ids + {id}, o.id);
    } else {
      assert Touches(s, ids + {id}, o.id) <==> Touches(s, ids, o.id);
      HealedInvoicesStep(s, ids, id);
      var h := s.(invoices := HealedInvoices(s, ids));
      OtherOutletsSame(h, id, RefreshedRow(Healed(s, ids), id), o.id);
    }
  }

  lemma RefreshedSchemeAgain(s: State, t: State, sch: Scheme, was: Scheme, c: string)
    requires SameRedemption(s.invoices, t.invoices)
    requires was == sch || was == RefreshedScheme(s, sch, c)
    ensures RefreshedScheme(t, was, c) == RefreshedScheme(s, sch, c)
  {
    SchemeSeesThrough(s, t, c);
    RedeemedTwice(sch, RedeemedValue(s, c), RedeemedVolume(s, c));
  }

  /** Only the refreshed invoice's scheme can change. */
  lemma HealedSchemesDiffer(s: State, ids: set<string>, id: string)
    requires id in s.invoices.rows
    ensures var c, a, b := s.invoices.rows[id].schemeId, HealedSchemes(s, ids).rows, HealedSchemes(s, ids + {id}).rows;
      && (c !in s.schemes.rows ==> a == b)
      && (c in s.schemes.rows ==> a[c := RefreshedScheme(s, s.schemes.rows[c], c)] == b)
  {
    var c, a, b := s.invoices.rows[id].schemeId, HealedSchemes(s, ids).rows, HealedSchemes(s, ids + {id}).rows;
    forall x | x in s.schemes.rows && x != c ensures a[x] == b[x] {
      assert TouchesScheme(s, ids + {id}, x) <==> TouchesScheme(s, ids, x);
    }
    if c in s.schemes.rows {
      assert TouchesScheme(s, ids + {id}, c);
    }
  }

  /** The scheme table after one more refresh. */
  lemma HealedSchemesStep(s: State, t: State, ids: set<string>, id: string)
    requires WellFormed(s) && id in s.invoices.rows
    requires t.schemes == HealedSchemes(s, ids) && t.invoices == HealedInvoices(s, ids + {id})
    ensures s.invoices.rows[id].schemeId == "" ==> HealedSchemes(s, ids + {id}) == t.schemes
    ensures RefreshScheme(t, s.invoices.rows[id].schemeId).schemes == HealedSchemes(s, ids + {id})
  {
    var c := s.invoices.rows[id].schemeId;
    HealedSchemesDiffer(s, ids, id);
    if c in s.schemes.rows {
      HealedRedemption(s, ids + {id});
      RefreshedSchemeAgain(s, t, s.schemes.rows[c], t.schemes.rows[c], c);
    }
  }

  lemma HealedOutletsStep(s: State, t: State, ids: set<string>, id: string)
    requires WellFormed(s) && id in s.invoices.rows
    requires t.outlets == Healed(s, ids).outlets && t.invoices == HealedInvoices(s, ids + {id})
    ensures RefreshOutletBalance(t, s.invoices.rows[id].outletId).outlets == Healed(s, ids + {id}).outlets
  {
    var t2 := RefreshOutletBalance(t, s.invoices.rows[id].outletId);
    var h' := Healed(s, ids + {id});
    forall i | 0 <= i < |s.outlets| ensures t2.outlets[i] == h'.outlets[i] {
      HealedOutletAt(s, t, ids, id, i);
    }
  }

  lemma HealedOutletAt(s: State, t: State, ids: set<string>, id: string, i: nat)
    requires WellFormed(s) && id in s.invoices.rows && i < |s.outlets|
    requires t.outlets == Healed(s, ids).outlets && t.invoices == HealedInvoices(s, ids + {id})
    ensures var t2 := RefreshOutletBalance(t, s.invoices.rows[id].outletId);
      |t2.outlets| == |s.outlets| && t2.outlets[i] == HealedOutlet(s, ids + {id}, s.outlets[i])
  {
    assert s.outlets[i] in s.outlets;
    HealedOutletStep(s, ids, id, s.outlets[i]);
    OutstandingReadsInvoices(t, s.(invoices := HealedInvoices(s, ids + {id})), s.outlets[i].id);
  }

  lemma OutstandingReadsInvoices(s: State, t: State, outletId: string)
    requires t.invoices == s.invoices
    ensures OutletOutstanding(t, outletId) == OutletOutstanding(s, outletId)
  {
  }

  /** One more refresh is one more id in the closed form. */
  lemma HealedStep(s: State, ids: set<string>, id: string)
    requires WellFormed(s)
    ensures RefreshInvoice(Healed(s, ids), id) == Healed(s, ids + {id})
  {
    if id in s.invoices.rows {
      var h := Healed(s, ids);
      HealedInvoicesStep(s, ids, id);
      HealedKeeps(s, ids, id);
      var t := h.(invoices := HealedInvoices(s, ids + {id}));
      HealedOutletsStep(s, t, ids, id);
      var t2 := RefreshOutletBalance(t, s.invoices.rows[id].outletId);
      HealedSchemesStep(s, t2, ids, id);
      RefreshByParts(h, id, t, t2);
    } else {
      NoSuchInvoice(s, ids, id);
    }
  }

  lemma RefreshByParts(h: State, id: string, t: State, t2: State)
    requires id in h.invoices.rows && t == h.(invoices := Updated(h.invoices, id, RefreshedRow(h, id)))
    requires t2 == RefreshOutletBalance(t, h.invoices.rows[id].outletId)
    ensures RefreshInvoice(h, id)
         == if h.invoices.rows[id].schemeId != "" then RefreshScheme(t2, h.invoices.rows[id].schemeId) else t2
  {
  }

  lemma HealedKeeps(s: State, ids: set<string>, id: string)
    requires id in s.invoices.rows
    ensures Healed(s, ids).invoices.rows[id].outletId == s.invoices.rows[id].outletId
    ensures Healed(s, ids).invoices.rows[id].schemeId == s.invoices.rows[id].schemeId
  {
  }

  lemma NoSuchInvoice(s: State, ids: set<string>, id: string)
    requires id !in s.invoices.rows
    ensures Healed(s, ids + {id}) == Healed(s, ids)
  {
    assert HealedInvoices(s, ids + {id}).rows == HealedInvoices(s, ids).rows;
    forall o: string ensures Touches(s, ids + {id}, o) <==> Touches(s, ids, o) {
    }
    forall c: string ensures TouchesScheme(s, ids + {id}, c) <==> TouchesScheme(s, ids, c) {
    }
    assert HealedSchemes(s, ids + {id}).rows == HealedSchemes(s, ids).rows;
    assert Healed(s, ids + {id}).outlets == Healed(s, ids).outlets;
  }

  lemma HealedNone(s: State)
    ensures Healed(s, {}) == s
  {
  }

  /** Which invoices were refreshed decides the state; how often and in what
      order does not. */
  lemma {:induction false} RefreshOrderIrrelevant(s: State, ids: seq<string>)
    requires WellFormed(s)
    ensures RefreshAll(s, ids) == Healed(s, Named(ids))
  {
    if ids == [] {
      HealedNone(s);
      assert Named([]) == {};
    } else {
      var n := |ids| - 1;
      RefreshOrderIrrelevant(s, ids[..n]);
      HealedStep(s, Named(ids[..n]), ids[n]);
      assert ids == ids[..n] + [ids[n]];
      assert Named(ids) == Named(ids[..n]) + {ids[n]};
    }
  }

  lemma RefreshConfluent(s: State, a: seq<string>, b: seq<string>)
    requires WellFormed(s) && forall id :: id in a <==> id in b
    ensures RefreshAll(s, a) == RefreshAll(s, b)
  {
    RefreshOrderIrrelevant(s, a);
    RefreshOrderIrrelevant(s, b);
    assert Named(a) == Named(b);
  }

  lemma RefreshIdempotent(s: State, id: string)
    requires WellFormed(s)
    ensures RefreshInvoice(RefreshInvoice(s, id), id) == RefreshInvoice(s, id)
  {
    RefreshConfluent(s, [id], [id, id]);
    assert [id][..0] == [] && [id, id][..1] == [id];
  }
}
