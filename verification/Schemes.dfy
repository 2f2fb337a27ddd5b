/** What a scheme says was redeemed is what its confirmed invoices redeemed, and
    an active scheme has budget left. */
module Schemes {
  import opened Coherence
  import opened Healing
  import opened Ids
  import opened Ledger
  import opened Money
  import opened Payments
  import opened TableLemmas
  import opened Tables
  import opened Wrappers

  function Value(s: State, schemeId: string): real
  {
    Tally(s.invoices, InvoiceKeys, EVERYTHING, RedeemedValueOf(schemeId))
  }

  function Volume(s: State, schemeId: string): real
  {
    Tally(s.invoices, InvoiceKeys, EVERYTHING, RedeemedVolumeOf(schemeId))
  }

  ghost predicate SchemeFigure(v: real)
  {
    v >= 0.0 && IsCents(v)
  }

  /** An invoice's contribution to a scheme. */
  predicate Redeems(inv: Invoice, c: string)
  {
    inv.schemeId == c && IsConfirmedInvoice(inv.status)
  }

  /** What confirmed invoices redeem under the scheme are non-negative hundredths. */
  ghost predicate FiguresOn(s: State, c: string)
  {
    forall id :: id in s.invoices.rows && Redeems(s.invoices.rows[id], c) ==>
      SchemeFigure(s.invoices.rows[id].schemeValue) && SchemeFigure(s.invoices.rows[id].quantity)
  }

  /** A scheme is counted over all invoices at once. */
  ghost predicate InvoicesFit(s: State)
  {
    |s.invoices.order| <= LIST_LIMIT
  }

  lemma RedemptionExact(s: State, c: string)
    requires FiguresOn(s, c) && InvoicesFit(s)
    ensures RedeemedValue(s, c) == Value(s, c) && RedeemedVolume(s, c) == Volume(s, c)
    ensures SchemeFigure(Value(s, c)) && SchemeFigure(Volume(s, c))
  {
    ZeroIsCents();
    KeptAtMostRows(s.invoices, InvoiceKeys, EVERYTHING);
    ListedIsKept(s.invoices, InvoiceKeys, EVERYTHING);
    TallyIsCents(s.invoices, InvoiceKeys, EVERYTHING, RedeemedValueOf(c));
    TallyNonNegative(s.invoices, InvoiceKeys, EVERYTHING, RedeemedValueOf(c));
    TallyIsCents(s.invoices, InvoiceKeys, EVERYTHING, RedeemedVolumeOf(c));
    TallyNonNegative(s.invoices, InvoiceKeys, EVERYTHING, RedeemedVolumeOf(c));
    RoundFixesCents(Value(s, c));
    RoundFixesCents(Volume(s, c));
  }

  // ---- one scheme's figures --------------------------------------------------------

  /** The stored scheme reports the sums, and is not active past a positive allocation. */
  ghost predicate Reports(s: State, c: string)
  {
    c in s.schemes.rows ==>
      var sch := s.schemes.rows[c];
      && sch.redeemedValue == Value(s, c) && sch.redeemedVolume == Volume(s, c)
      && (sch.status == Active ==> !UsedUp(sch))
  }

  /** No invoice names the scheme while its id is still to be minted. */
  ghost predicate NamedOnceThere(s: State, c: string)
  {
    forall id :: id in s.invoices.rows && s.invoices.rows[id].schemeId == c ==>
      NotYetMinted("SCH", s.schemes.counter, c)
  }

  ghost predicate SchemeCountable(s: State, c: string)
  {
    FiguresOn(s, c) && NamedOnceThere(s, c)
  }

  ghost predicate SchemeSound(s: State, c: string)
  {
    SchemeCountable(s, c) && Reports(s, c)
  }

  ghost predicate SchemesSound(s: State)
  {
    forall c :: c != "" ==> SchemeSound(s, c)
  }

  function ValueFrom(inv: Invoice, c: string): real
  {
    if Redeems(inv, c) then inv.schemeValue else 0.0
  }

  function VolumeFrom(inv: Invoice, c: string): real
  {
    if Redeems(inv, c) then inv.quantity else 0.0
  }

  lemma RedemptionAfterInsert(s: State, row: Invoice, c: string)
    requires Valid(s.invoices, InvoiceId, "SINV") && row.id == MintId("SINV", s.invoices.counter + 1)
    ensures var t := s.(invoices := Inserted(Minted(s.invoices), row.id, row));
      && Value(t, c) == Value(s, c) + ValueFrom(row, c) && Volume(t, c) == Volume(s, c) + VolumeFrom(row, c)
  {
    CreateValid(s.invoices, InvoiceId, "SINV", row);
    TallyInsert(Minted(s.invoices), row.id, row, InvoiceKeys, EVERYTHING, RedeemedValueOf(c));
    TallyInsert(Minted(s.invoices), row.id, row, InvoiceKeys, EVERYTHING, RedeemedVolumeOf(c));
  }

  lemma RedemptionAfterUpdate(s: State, row: Invoice, c: string)
    requires Valid(s.invoices, InvoiceId, "SINV") && row.id in s.invoices.rows
    ensures var t, cur := s.(invoices := Updated(s.invoices, row.id, row)), s.invoices.rows[row.id];
      && Value(t, c) == Value(s, c) - ValueFrom(cur, c) + ValueFrom(row, c)
      && Volume(t, c) == Volume(s, c) - VolumeFrom(cur, c) + VolumeFrom(row, c)
  {
    TallyUpdate(s.invoices, row.id, row, InvoiceKeys, EVERYTHING, RedeemedValueOf(c));
    TallyUpdate(s.invoices, row.id, row, InvoiceKeys, EVERYTHING, RedeemedVolumeOf(c));
  }

  lemma RedemptionAfterDelete(s: State, id: string, c: string)
    requires Valid(s.invoices, InvoiceId, "SINV") && id in s.invoices.rows
    ensures var t, cur := s.(invoices := Deleted(s.invoices, id)), s.invoices.rows[id];
      && Value(t, c) == Value(s, c) - ValueFrom(cur, c) && Volume(t, c) == Volume(s, c) - VolumeFrom(cur, c)
  {
    TallyDelete(s.invoices, id, InvoiceKeys, EVERYTHING, RedeemedValueOf(c));
    TallyDelete(s.invoices, id, InvoiceKeys, EVERYTHING, RedeemedVolumeOf(c));
  }

  // ---- refreshing --------------------------------------------------------------------

  lemma RedeemedNotUsedUp(sch: Scheme, value: real, volume: real)
    ensures var r := Redeemed(sch, value, volume);
      && r.redeemedValue == value && r.redeemedVolume == volume && (r.status == Active ==> !UsedUp(r))
  {
  }

  /** What a scheme and its counts look at, unchanged. */
  ghost predicate SameScheme(s: State, t: State, c: string)
  {
    && (c in t.schemes.rows <==> c in s.schemes.rows)
    && (c in s.schemes.rows ==> t.schemes.rows[c] == s.schemes.rows[c])
    && Value(t, c) == Value(s, c) && Volume(t, c) == Volume(s, c)
    && (SchemeCountable(s, c) ==> SchemeCountable(t, c))
  }

  lemma SameSchemeSound(s: State, t: State, c: string)
    requires SameScheme(s, t, c) && SchemeSound(s, c)
    ensures SchemeSound(t, c)
  {
  }

  /** A refresh of the scheme makes it report the sums, whatever it reported before. */
  lemma RefreshSchemeRepairs(s: State, c: string)
    requires SchemeCountable(s, c) && InvoicesFit(s)
    ensures SchemeSound(RefreshScheme(s, c), c)
  {
    RedemptionExact(s, c);
    if c in s.schemes.rows {
      RedeemedNotUsedUp(s.schemes.rows[c], Value(s, c), Volume(s, c));
    }
  }

  lemma RefreshOtherScheme(s: State, x: string, c: string)
    requires x != c
    ensures SameScheme(s, RefreshScheme(s, x), c)
  {
  }

  lemma RefreshOutletScheme(s: State, outletId: string, c: string)
    ensures SameScheme(s, RefreshOutletBalance(s, outletId), c)
  {
  }

  lemma SettledScheme(s: State, id: string, c: string)
    requires WellFormed(s) && id in s.invoices.rows
    ensures SameScheme(s, s.(invoices := Updated(s.invoices, id, RefreshedRow(s, id))), c)
  {
    assert InvoiceId(s.invoices.rows[id]) == id;
    SettledTwice(s.invoices.rows[id], InvoiceOutstanding(s, s.invoices.rows[id]));
    RedemptionAfterUpdate(s, RefreshedRow(s, id), c);
  }

  /** Refreshing an invoice recounts the scheme it is under and leaves the others alone. */
  lemma RefreshInvoiceScheme(s: State, id: string, c: string)
    requires WellFormed(s) && SchemeCountable(s, c) && InvoicesFit(s) && c != ""
    requires Reports(s, c) || (id in s.invoices.rows && s.invoices.rows[id].schemeId == c)
    ensures SchemeSound(RefreshInvoice(s, id), c)
  {
    if id in s.invoices.rows {
      var inv := s.invoices.rows[id];
      var t1 := s.(invoices := Updated(s.invoices, id, RefreshedRow(s, id)));
      var t2 := RefreshOutletBalance(t1, inv.outletId);
      SettledScheme(s, id, c);
      RefreshOutletScheme(t1, inv.outletId, c);
      RefreshByParts(s, id, t1, t2);
      SettledKeepsOrder(s, id, t2);
      RecountedScheme(s, t2, inv.schemeId, c);
    }
  }

  lemma SettledKeepsOrder(s: State, id: string, t: State)
    requires id in s.invoices.rows
    requires t == RefreshOutletBalance(s.(invoices := Updated(s.invoices, id, RefreshedRow(s, id))),
        s.invoices.rows[id].outletId)
    ensures InvoicesFit(s) ==> InvoicesFit(t)
  {
  }

  lemma RecountedScheme(s: State, t: State, x: string, c: string)
    requires SchemeCountable(s, c) && InvoicesFit(t) && c != "" && SchemeCountable(t, c)
    requires Reports(s, c) ==> Reports(t, c)
    requires Reports(s, c) || x == c
    ensures SchemeSound(if x != "" then RefreshScheme(t, x) else t, c)
  {
    if x == c {
      RefreshSchemeRepairs(t, c);
    } else if x != "" {
      RefreshOtherScheme(t, x, c);
    }
  }

  lemma RefreshKeepsScheme(s: State, id: string, c: string)
    requires WellFormed(s) && SchemeSound(s, c) && InvoicesFit(s) && c != ""
    ensures SchemeSound(RefreshInvoice(s, id), c) && WellFormed(RefreshInvoice(s, id))
    ensures InvoicesFit(RefreshInvoice(s, id))
  {
    RefreshInvoiceScheme(s, id, c);
    RefreshInvoiceWellFormed(s, id);
    RefreshInvoiceFrame(s, id);
  }

  // ---- invoices ------------------------------------------------------------------------

  lemma FoundScheme(s: State, ref: string)
    requires Valid(s.schemes, SchemeId, "SCH") && FindScheme(s, ref).Some?
    ensures var sch := FindScheme(s, ref).value;
      sch.id in s.schemes.rows && s.schemes.rows[sch.id] == sch
  {
    var sch := FindScheme(s, ref).value;
    if ref in s.schemes.rows {
      assert SchemeId(sch) == ref;
    } else {
      MatchingFrom(s.schemes.order, s.schemes.rows, Accepting(SchemeKeys, EVERYTHING));
      assert sch in Kept(s.schemes, SchemeKeys, EVERYTHING);
      var id :| id in s.schemes.order && id in s.schemes.rows && s.schemes.rows[id] == sch;
      assert SchemeId(sch) == id;
    }
  }

  /** A validated invoice names no scheme or an active one that exists. */
  lemma ValidInvoiceScheme(s: State, i: InvoiceInput, existing: Option<Invoice>)
    requires Valid(s.schemes, SchemeId, "SCH") && ValidateInvoice(s, i, existing).Success?
    ensures var c := ValidateInvoice(s, i, existing).value.schemeId;
      && NotYetMinted("SCH", s.schemes.counter, c)
      && (c != "" ==> c in s.schemes.rows && s.schemes.rows[c].status == Active)
      && (c == "" <==> i.doc.schemeId == "")
  {
    var c := ValidateInvoice(s, i, existing).value.schemeId;
    if i.doc.schemeId != "" {
      FoundScheme(s, i.doc.schemeId);
    } else {
      forall k: nat ensures MintId("SCH", k) != "" {
      }
    }
  }

  /** An invoice row is written: the scheme's sums move by what it redeemed and redeems. */
  lemma WrittenCountable(s: State, t: State, row: Invoice, c: string)
    requires SchemeCountable(s, c) && t == s.(invoices := t.invoices)
    requires forall id :: id in t.invoices.rows ==>
      t.invoices.rows[id] == row || (id in s.invoices.rows && t.invoices.rows[id] == s.invoices.rows[id])
    requires row.schemeId == c ==> NotYetMinted("SCH", s.schemes.counter, c)
    requires Redeems(row, c) ==> SchemeFigure(row.schemeValue) && SchemeFigure(row.quantity)
    ensures SchemeCountable(t, c)
  {
  }

  lemma AddInvoiceScheme(s: State, row: Invoice, c: string)
    requires WellFormed(s) && SchemeSound(s, c) && |s.invoices.order| < LIST_LIMIT && c != ""
    requires FindOutlet(s.outlets, row.outletId).Some? && row.id == MintId("SINV", s.invoices.counter + 1)
    requires Redeems(row, c) ==> SchemeFigure(row.quantity) && SchemeFigure(row.schemeValue)
    requires NotYetMinted("SCH", s.schemes.counter, row.schemeId)
    ensures SchemeSound(AddInvoice(s, row), c)
  {
    InsertedCountable(s, row, c);
    InsertedReports(s, row, c);
    RefreshInvoiceScheme(s.(invoices := Inserted(Minted(s.invoices), row.id, row)), row.id, c);
  }

  lemma InsertedCountable(s: State, row: Invoice, c: string)
    requires WellFormed(s) && SchemeCountable(s, c) && |s.invoices.order| < LIST_LIMIT
    requires FindOutlet(s.outlets, row.outletId).Some? && row.id == MintId("SINV", s.invoices.counter + 1)
    requires Redeems(row, c) ==> SchemeFigure(row.quantity) && SchemeFigure(row.schemeValue)
    requires NotYetMinted("SCH", s.schemes.counter, row.schemeId)
    ensures var t := s.(invoices := Inserted(Minted(s.invoices), row.id, row));
      WellFormed(t) && SchemeCountable(t, c) && InvoicesFit(t)
  {
    WrittenCountable(s, s.(invoices := Inserted(Minted(s.invoices), row.id, row)), row, c);
    CreateValid(s.invoices, InvoiceId, "SINV", row);
    NewOutletNamed(s, row);
  }

  lemma InsertedReports(s: State, row: Invoice, c: string)
    requires WellFormed(s) && Reports(s, c) && row.id == MintId("SINV", s.invoices.counter + 1)
    ensures row.schemeId != c ==> Reports(s.(invoices := Inserted(Minted(s.invoices), row.id, row)), c)
  {
    RedemptionAfterInsert(s, row, c);
  }

  /** A form that puts a confirmed invoice under the scheme does so in hundredths. */
  ghost predicate FormFigures(s: State, i: InvoiceInput, c: string)
  {
    NamedScheme(s, i.doc.schemeId) == c && FormConfirms(i) ==>
      SchemeFigure(i.doc.quantity) && SchemeFigure(i.doc.schemeValue)
  }

  lemma CreateInvoiceScheme(s: State, i: InvoiceInput, c: string)
    requires WellFormed(s) && SchemeSound(s, c) && c != ""
    requires CreateInvoice(s, i).1.Success? ==> |s.invoices.order| < LIST_LIMIT && FormFigures(s, i, c)
    ensures SchemeSound(CreateInvoice(s, i).0, c)
  {
    if ValidateInvoice(s, i, None).Success? {
      var d := ValidateInvoice(s, i, None).value;
      CreatedInvoice(s, i, d);
      NewInvoiceForm(s, i, d);
      AddInvoiceScheme(s, NewInvoice(s, d), c);
    }
  }

  lemma NewInvoiceForm(s: State, i: InvoiceInput, d: Invoice)
    requires WellFormed(s) && ValidateInvoice(s, i, None) == Success(d)
    ensures var row := NewInvoice(s, d);
      && FindOutlet(s.outlets, row.outletId).Some? && row.schemeId == NamedScheme(s, i.doc.schemeId)
      && NotYetMinted("SCH", s.schemes.counter, row.schemeId)
      && row.status == (if i.doc.status == Blank then Invoiced else i.doc.status)
      && row.quantity == i.doc.quantity && row.schemeValue == i.doc.schemeValue
  {
    ValidInvoiceShape(s, i, None);
    ValidInvoiceScheme(s, i, None);
    StoredScheme(s, i, None, d);
  }

  /** Value and volume are past a positive allocation, if at all, by less than the
      invoice's own part. */
  ghost predicate OvershootsByLess(s: State, t: State, inv: Invoice)
  {
    var c := inv.schemeId;
    c in s.schemes.rows &&
      var sch := s.schemes.rows[c];
      && (sch.budget > 0.0 ==> Value(t, c) < sch.budget + ValueFrom(inv, c))
      && (sch.volume > 0.0 ==> Volume(t, c) < sch.volume + VolumeFrom(inv, c))
  }

  predicate OnActive(s: State, c: string)
  {
    c in s.schemes.rows && s.schemes.rows[c].status == Active
  }

  lemma AddInvoiceOvershoot(s: State, row: Invoice)
    requires WellFormed(s) && Reports(s, row.schemeId) && row.id == MintId("SINV", s.invoices.counter + 1)
    requires OnActive(s, row.schemeId)
    ensures OvershootsByLess(s, AddInvoice(s, row), row)
  {
    AddInvoiceRedemption(s, row, row.schemeId);
  }

  lemma ReplaceInvoiceOvershoot(s: State, cur: Invoice, row: Invoice)
    requires WellFormed(s) && SchemeSound(s, row.schemeId) && row.id in s.invoices.rows
    requires cur == s.invoices.rows[row.id]
    requires OnActive(s, row.schemeId)
    ensures OvershootsByLess(s, ReplaceInvoice(s, cur, row), row)
  {
    ReplaceInvoiceRedemption(s, cur, row, row.schemeId);
  }

  lemma SameShare(s: State, t: State, a: Invoice, b: Invoice)
    requires OvershootsByLess(s, t, a)
    requires b.schemeId == a.schemeId && b.status == a.status && b.schemeValue == a.schemeValue
    requires b.quantity == a.quantity
    ensures OvershootsByLess(s, t, b)
  {
  }

  lemma ValidOnActive(s: State, i: InvoiceInput, existing: Option<Invoice>)
    requires Valid(s.schemes, SchemeId, "SCH") && ValidateInvoice(s, i, existing).Success?
    ensures var c := ValidateInvoice(s, i, existing).value.schemeId; c != "" ==> OnActive(s, c)
  {
    ValidInvoiceScheme(s, i, existing);
  }

  /** Each accepted redemption overshoots by less than the invoice's own value and
      volume: the scheme still had budget when it was accepted. */
  lemma CreateInvoiceOvershoot(s: State, i: InvoiceInput, d: Invoice)
    requires WellFormed(s) && Reports(s, d.schemeId)
    requires ValidateInvoice(s, i, None) == Success(d) && d.schemeId != ""
    ensures OvershootsByLess(s, CreateInvoice(s, i).0, d)
  {
    CreatedInvoice(s, i, d);
    ValidOnActive(s, i, None);
    AddInvoiceOvershoot(s, NewInvoice(s, d));
    SameShare(s, AddInvoice(s, NewInvoice(s, d)), NewInvoice(s, d), d);
  }

  /** The same when an update confirms a draft, enters a scheme or raises its value:
      what the stored invoice counted before only helps. */
  lemma UpdateInvoiceOvershoot(s: State, id: string, i: InvoiceInput, d: Invoice)
    requires WellFormed(s) && SchemeSound(s, d.schemeId) && id in s.invoices.rows
    requires ValidateInvoice(s, i, Some(s.invoices.rows[id])) == Success(d) && d.schemeId != ""
    requires UpdateInvoice(s, id, i).1.Success?
    ensures OvershootsByLess(s, UpdateInvoice(s, id, i).0, d)
  {
    ReplacedInvoice(s, id, i);
    ValidOnActive(s, i, Some(s.invoices.rows[id]));
    ReplaceInvoiceOvershoot(s, s.invoices.rows[id], d.(id := id));
    SameShare(s, UpdateInvoice(s, id, i).0, d.(id := id), d);
  }

  lemma AddInvoiceRedemption(s: State, row: Invoice, c: string)
    requires WellFormed(s) && row.id == MintId("SINV", s.invoices.counter + 1)
    ensures Value(AddInvoice(s, row), c) == Value(s, c) + ValueFrom(row, c)
    ensures Volume(AddInvoice(s, row), c) == Volume(s, c) + VolumeFrom(row, c)
  {
    AddInvoiceFrame(s, row);
    var settled := Settled(row, InvoiceOutstanding(s, row));
    RedemptionAfterInsert(s, settled, c);
    SettledTwice(row, InvoiceOutstanding(s, row));
    assert ValueFrom(settled, c) == ValueFrom(row, c) && VolumeFrom(settled, c) == VolumeFrom(row, c);
    assert AddInvoice(s, row).invoices == Inserted(Minted(s.invoices), settled.id, settled);
  }

  lemma ReplaceInvoiceRedemption(s: State, cur: Invoice, row: Invoice, c: string)
    requires WellFormed(s) && row.id in s.invoices.rows && cur == s.invoices.rows[row.id]
    ensures Value(ReplaceInvoice(s, cur, row), c) == Value(s, c) - ValueFrom(cur, c) + ValueFrom(row, c)
    ensures Volume(ReplaceInvoice(s, cur, row), c) == Volume(s, c) - VolumeFrom(cur, c) + VolumeFrom(row, c)
  {
    ReplaceInvoiceFrame(s, cur, row);
    var settled := Settled(row, InvoiceOutstanding(s, row));
    RedemptionAfterUpdate(s, settled, c);
    SettledTwice(row, InvoiceOutstanding(s, row));
    assert ValueFrom(settled, c) == ValueFrom(row, c) && VolumeFrom(settled, c) == VolumeFrom(row, c);
    assert ReplaceInvoice(s, cur, row).invoices == Updated(s.invoices, settled.id, settled);
  }

  lemma SchemeKeysStay(s: State, id: string)
    ensures RefreshInvoice(s, id).schemes.rows.Keys == s.schemes.rows.Keys
  {
  }

  /** The id of the scheme a form names, by id or by name; blank for none. */
  function NamedScheme(s: State, ref: string): string
  {
    match FindScheme(s, ref) case None => "" case Some(sch) => sch.id
  }

  lemma StoredScheme(s: State, i: InvoiceInput, existing: Option<Invoice>, d: Invoice)
    requires ValidateInvoice(s, i, existing) == Success(d)
    ensures d.schemeId == NamedScheme(s, i.doc.schemeId)
  {
  }

  /** The invoice's stored row takes nothing from its scheme by going under `next`. */
  ghost predicate LeavesNothing(s: State, cur: Invoice, next: string)
  {
    || next == cur.schemeId
    || cur.schemeId !in s.schemes.rows
    || !IsConfirmedInvoice(cur.status)
    || (cur.schemeValue == 0.0 && cur.quantity == 0.0)
  }

  lemma StoredCountable(s: State, cur: Invoice, row: Invoice, c: string)
    requires WellFormed(s) && SchemeCountable(s, c) && FindOutlet(s.outlets, row.outletId).Some?
    requires row.id in s.invoices.rows && cur == s.invoices.rows[row.id]
    requires Redeems(row, c) ==> SchemeFigure(row.quantity) && SchemeFigure(row.schemeValue)
    requires NotYetMinted("SCH", s.schemes.counter, row.schemeId)
    ensures var t := s.(invoices := Updated(s.invoices, row.id, row));
      WellFormed(t) && SchemeCountable(t, c) && (InvoicesFit(s) ==> InvoicesFit(t))
  {
    WrittenCountable(s, s.(invoices := Updated(s.invoices, row.id, row)), row, c);
    UpdateValid(s.invoices, InvoiceId, "SINV", row);
    NewOutletNamed(s, row);
  }

  /** Replacing an invoice recounts the scheme it is now under. */
  lemma EnteredScheme(s: State, cur: Invoice, row: Invoice, c: string)
    requires WellFormed(s) && SchemeCountable(s, c) && InvoicesFit(s) && FindOutlet(s.outlets, row.outletId).Some?
    requires row.id in s.invoices.rows && cur == s.invoices.rows[row.id] && row.schemeId == c != ""
    requires Redeems(row, c) ==> SchemeFigure(row.quantity) && SchemeFigure(row.schemeValue)
    requires NotYetMinted("SCH", s.schemes.counter, c)
    ensures SchemeSound(ReplaceInvoice(s, cur, row), c)
  {
    var t := s.(invoices := Updated(s.invoices, row.id, row));
    StoredCountable(s, cur, row, c);
    RefreshInvoiceScheme(t, row.id, c);
    LeftOutletScheme(RefreshInvoice(t, row.id), cur, row, c);
  }

  /** The refresh of the outlet an invoice left is no business of its scheme. */
  lemma LeftOutletScheme(t: State, cur: Invoice, row: Invoice, c: string)
    requires SchemeSound(t, c)
    ensures SchemeSound(if cur.outletId != row.outletId then RefreshOutletBalance(t, cur.outletId) else t, c)
  {
    RefreshOutletScheme(t, cur.outletId, c);
  }

  /** A scheme an invoice is not put under keeps its figures, and they are right exactly
      when the invoice counted nothing towards it. */
  lemma LeftSchemeIff(s: State, cur: Invoice, row: Invoice, c: string)
    requires WellFormed(s) && SchemeSound(s, c) && row.id in s.invoices.rows && cur == s.invoices.rows[row.id]
    requires row.schemeId != c && c != ""
    ensures SchemeSound(ReplaceInvoice(s, cur, row), c)
       <==> c !in s.schemes.rows || (ValueFrom(cur, c) == 0.0 && VolumeFrom(cur, c) == 0.0)
  {
    LeftCountable(s, cur, row, c);
    LeftReports(s, cur, row, c);
  }

  lemma LeftReports(s: State, cur: Invoice, row: Invoice, c: string)
    requires WellFormed(s) && Reports(s, c) && row.id in s.invoices.rows && cur == s.invoices.rows[row.id]
    requires row.schemeId != c && c != ""
    ensures Reports(ReplaceInvoice(s, cur, row), c)
       <==> c !in s.schemes.rows || (ValueFrom(cur, c) == 0.0 && VolumeFrom(cur, c) == 0.0)
  {
    SchemeKept(s, cur, row, c);
    if c in s.schemes.rows {
      ReplaceInvoiceRedemption(s, cur, row, c);
      StaleFigures(s.schemes.rows[c], Value(s, c), Volume(s, c), ValueFrom(cur, c), VolumeFrom(cur, c));
    }
  }

  lemma LeftCountable(s: State, cur: Invoice, row: Invoice, c: string)
    requires WellFormed(s) && SchemeCountable(s, c) && row.id in s.invoices.rows && cur == s.invoices.rows[row.id]
    requires row.schemeId != c
    ensures SchemeCountable(ReplaceInvoice(s, cur, row), c)
  {
    ReplaceInvoiceFrame(s, cur, row);
    CounterKept(s, cur, row);
  }

  lemma CounterKept(s: State, cur: Invoice, row: Invoice)
    ensures ReplaceInvoice(s, cur, row).schemes.counter == s.schemes.counter
  {
  }

  lemma SchemeKept(s: State, cur: Invoice, row: Invoice, c: string)
    requires row.id in s.invoices.rows && c != row.schemeId
    ensures c in ReplaceInvoice(s, cur, row).schemes.rows <==> c in s.schemes.rows
    ensures c in s.schemes.rows ==> ReplaceInvoice(s, cur, row).schemes.rows[c] == s.schemes.rows[c]
  {
    RefreshLeavesScheme(s.(invoices := Updated(s.invoices, row.id, row)), row.id, c);
  }

  lemma RefreshLeavesScheme(s: State, id: string, c: string)
    requires id in s.invoices.rows && s.invoices.rows[id].schemeId != c
    ensures c in RefreshInvoice(s, id).schemes.rows <==> c in s.schemes.rows
    ensures c in s.schemes.rows ==> RefreshInvoice(s, id).schemes.rows[c] == s.schemes.rows[c]
  {
  }

  /** Counts that moved make a stored figure wrong, counts that did not leave it right. */
  lemma StaleFigures(sch: Scheme, value: real, volume: real, lostValue: real, lostVolume: real)
    requires sch.redeemedValue == value && sch.redeemedVolume == volume && (sch.status == Active ==> !UsedUp(sch))
    ensures (sch.redeemedValue == value - lostValue && sch.redeemedVolume == volume - lostVolume
             && (sch.status == Active ==> !UsedUp(sch)))
       <==> (lostValue == 0.0 && lostVolume == 0.0)
  {
  }

  lemma ReplacedInvoice(s: State, id: string, i: InvoiceInput)
    requires WellFormed(s) && UpdateInvoice(s, id, i).1.Success?
    ensures id in s.invoices.rows
    ensures var cur := s.invoices.rows[id];
      var row := ValidateInvoice(s, i, Some(cur)).value.(id := id);
      && UpdateInvoice(s, id, i).0 == ReplaceInvoice(s, cur, row) && FindOutlet(s.outlets, row.outletId).Some?
      && row.schemeId == NamedScheme(s, i.doc.schemeId) && NotYetMinted("SCH", s.schemes.counter, row.schemeId)
      && row.status == (if i.doc.status == Blank then Invoiced else i.doc.status)
      && row.quantity == i.doc.quantity && row.schemeValue == i.doc.schemeValue
  {
    var cur := s.invoices.rows[id];
    assert InvoiceId(cur) == id;
    ValidInvoiceShape(s, i, Some(cur));
    ValidInvoiceScheme(s, i, Some(cur));
    StoredScheme(s, i, Some(cur), ValidateInvoice(s, i, Some(cur)).value);
  }

  lemma UpdateInvoiceScheme(s: State, id: string, i: InvoiceInput, c: string)
    requires WellFormed(s) && SchemeSound(s, c) && c != ""
    requires UpdateInvoice(s, id, i).1.Success? ==>
      && InvoicesFit(s) && FormFigures(s, i, c)
      && (s.invoices.rows[id].schemeId == c ==> LeavesNothing(s, s.invoices.rows[id], NamedScheme(s, i.doc.schemeId)))
    ensures SchemeSound(UpdateInvoice(s, id, i).0, c)
  {
    if UpdateInvoice(s, id, i).1.Success? {
      var cur := s.invoices.rows[id];
      ReplacedInvoice(s, id, i);
      var row := ValidateInvoice(s, i, Some(cur)).value.(id := id);
      if row.schemeId == c {
        EnteredScheme(s, cur, row, c);
      } else {
        LeftSchemeIff(s, cur, row, c);
      }
    }
  }

  /** An accepted update keeps the figures of the scheme the invoice was under exactly when
      it does not take a counted invoice away from it: the scheme left is not refreshed.
      Others stay right. */
  lemma UpdateInvoiceSchemesIff(s: State, id: string, i: InvoiceInput)
    requires WellFormed(s) && InvoicesFit(s) && UpdateInvoice(s, id, i).1.Success? && id in s.invoices.rows
    requires var c := s.invoices.rows[id].schemeId; c != "" && SchemeSound(s, c) && FormFigures(s, i, c)
    ensures SchemeSound(UpdateInvoice(s, id, i).0, s.invoices.rows[id].schemeId)
       <==> LeavesNothing(s, s.invoices.rows[id], NamedScheme(s, i.doc.schemeId))
    ensures forall c :: c != "" && c != s.invoices.rows[id].schemeId && SchemeSound(s, c) && FormFigures(s, i, c) ==>
      SchemeSound(UpdateInvoice(s, id, i).0, c)
  {
    var cur := s.invoices.rows[id];
    forall c | c != "" && c != cur.schemeId && SchemeSound(s, c) && FormFigures(s, i, c)
      ensures SchemeSound(UpdateInvoice(s, id, i).0, c) {
      UpdateInvoiceScheme(s, id, i, c);
    }
    ReplacedInvoice(s, id, i);
    var row := ValidateInvoice(s, i, Some(cur)).value.(id := id);
    if row.schemeId == cur.schemeId {
      EnteredScheme(s, cur, row, cur.schemeId);
    } else {
      LeftSchemeIff(s, cur, row, cur.schemeId);
    }
  }

  lemma DeleteInvoiceScheme(s: State, id: string, c: string)
    requires WellFormed(s) && SchemeSound(s, c)
    ensures SchemeSound(DeleteInvoice(s, id).0, c)
  {
    if DeleteInvoice(s, id).1.Success? {
      var t := s.(invoices := Deleted(s.invoices, id));
      RedemptionAfterDelete(s, id, c);
      SameSchemeSound(s, t, c);
      RefreshOutletScheme(t, s.invoices.rows[id].outletId, c);
      SameSchemeSound(t, DeleteInvoice(s, id).0, c);
    }
  }

  // ---- schemes -----------------------------------------------------------------------------

  lemma CreateSchemeSound(s: State, sch: Scheme, c: string)
    requires WellFormed(s) && SchemeSound(s, c)
    ensures SchemeSound(CreateScheme(s, sch).0, c)
  {
    if CreateScheme(s, sch).1.Success? {
      var row := CreateScheme(s, sch).1.value;
      LaterNames(s, c);
      if c == row.id {
        NothingRedeems(s, c);
      }
    }
  }

  lemma LaterNames(s: State, c: string)
    requires NamedOnceThere(s, c)
    ensures forall id :: id in s.invoices.rows && s.invoices.rows[id].schemeId == c ==>
      NotYetMinted("SCH", s.schemes.counter + 1, c)
  {
  }

  lemma NothingRedeems(s: State, c: string)
    requires NamedOnceThere(s, c) && c == MintId("SCH", s.schemes.counter + 1)
    ensures Value(s, c) == 0.0 && Volume(s, c) == 0.0
  {
    assert !NotYetMinted("SCH", s.schemes.counter, c);
    assert forall id :: id in s.invoices.rows ==> !Redeems(s.invoices.rows[id], c);
    TallyZero(s.invoices, InvoiceKeys, EVERYTHING, RedeemedValueOf(c));
    TallyZero(s.invoices, InvoiceKeys, EVERYTHING, RedeemedVolumeOf(c));
  }

  lemma UpdateSchemeSound(s: State, x: string, sch: Scheme, c: string)
    requires WellFormed(s) && SchemeSound(s, c)
    requires x == c && UpdateScheme(s, x, sch).1.Success? ==> InvoicesFit(s)
    ensures SchemeSound(UpdateScheme(s, x, sch).0, c)
  {
    if UpdateScheme(s, x, sch).1.Success? {
      assert SchemeId(s.schemes.rows[x]) == x;
      var row := sch.(id := x, status := if sch.status == Blank then s.schemes.rows[x].status else sch.status);
      var t := s.(schemes := Updated(s.schemes, x, row));
      if x == c {
        RefreshSchemeRepairs(t, c);
      } else {
        SameSchemeSound(s, t, c);
        RefreshOtherScheme(t, x, c);
      }
    }
  }

  lemma DeleteSchemeSound(s: State, x: string, c: string)
    requires SchemeSound(s, c)
    ensures SchemeSound(DeleteScheme(s, x).0, c)
  {
  }

  // ---- runs --------------------------------------------------------------------------------

  /** What an accepted call must meet for the scheme: redemptions in non-negative
      hundredths, no counted invoice taken from it, and a table of at most 5000 invoices
      when something under it may be recounted. Refused calls are free. */
  ghost predicate SchemeOrderly(s: State, op: Op, c: string)
  {
    match op
    case OpCreateInvoice(i) => CreateInvoice(s, i).1.Success? ==>
      |s.invoices.order| < LIST_LIMIT && FormFigures(s, i, c)
    case OpUpdateInvoice(x, i) =>
      UpdateInvoice(s, x, i).1.Success? ==>
        && InvoicesFit(s) && FormFigures(s, i, c)
        && (s.invoices.rows[x].schemeId == c ==> LeavesNothing(s, s.invoices.rows[x], NamedScheme(s, i.doc.schemeId)))
    case OpUpdateScheme(x, sch) => x == c && UpdateScheme(s, x, sch).1.Success? ==> InvoicesFit(s)
    case _ => OnBooks(op) && !op.OpDeleteInvoice? ==> InvoicesFit(s)
  }

  ghost predicate SchemeOrderlyOn(s: State, ops: seq<Op>, c: string)
    decreases |ops|
  {
    ops == [] || (SchemeOrderly(s, ops[0], c) && SchemeOrderlyOn(Step(s, ops[0]), ops[1..], c))
  }

  ghost predicate SchemeOrderlyRun(s: State, ops: seq<Op>)
  {
    forall c :: c != "" ==> SchemeOrderlyOn(s, ops, c)
  }

  /** Another table is written, then an invoice refreshed. */
  lemma WriteThenRefreshScheme(s: State, t: State, id: string, c: string)
    requires SchemeSound(s, c) && InvoicesFit(s) && WellFormed(t) && c != ""
    requires t.invoices == s.invoices && t.schemes == s.schemes
    ensures SchemeSound(RefreshInvoice(t, id), c) && WellFormed(RefreshInvoice(t, id))
    ensures InvoicesFit(RefreshInvoice(t, id))
  {
    SameSchemeSound(s, t, c);
    RefreshKeepsScheme(t, id, c);
  }

  lemma CreateCollectionScheme(s: State, d: Collection, c: string)
    requires WellFormed(s) && Coherent(s) && SchemeSound(s, c) && InvoicesFit(s) && c != ""
    ensures SchemeSound(CreateCollection(s, d).0, c)
  {
    if CreateCollection(s, d).1.Success? {
      var row := CreateCollection(s, d).1.value;
      CreatedRow(s, d, row);
      InsertCollectionBreaks(s, row);
      WriteThenRefreshScheme(s, WithCollection(s, row), row.invoiceId, c);
    }
  }

  lemma UpdateCollectionScheme(s: State, x: string, d: Collection, c: string)
    requires WellFormed(s) && Coherent(s) && SchemeSound(s, c) && InvoicesFit(s) && c != ""
    ensures SchemeSound(UpdateCollection(s, x, d).0, c)
  {
    if UpdateCollection(s, x, d).1.Success? {
      var row := UpdateCollection(s, x, d).1.value;
      UpdatedRow(s, x, d, row);
      UpdateCollectionBreaks(s, row);
      WriteThenRefreshScheme(s, Recollected(s, row), row.invoiceId, c);
      RefreshKeepsScheme(RefreshInvoice(Recollected(s, row), row.invoiceId), s.collects.rows[x].invoiceId, c);
    }
  }

  lemma DeleteCollectionScheme(s: State, x: string, c: string)
    requires WellFormed(s) && Coherent(s) && SchemeSound(s, c) && InvoicesFit(s) && c != ""
    ensures SchemeSound(DeleteCollection(s, x).0, c)
  {
    if DeleteCollection(s, x).1.Success? {
      DeleteCollectionBreaks(s, x);
      WriteThenRefreshScheme(s, s.(collects := Deleted(s.collects, x)), s.collects.rows[x].invoiceId, c);
    }
  }

  lemma ReturnWriteScheme(s: State, t: State, id: string, c: string)
    requires SchemeSound(s, c) && InvoicesFit(s) && WellFormed(t) && t == s.(rets := t.rets) && c != ""
    ensures SchemeSound(RefreshNamed(t, id), c) && WellFormed(RefreshNamed(t, id)) && InvoicesFit(RefreshNamed(t, id))
  {
    SameSchemeSound(s, t, c);
    if id != "" {
      RefreshKeepsScheme(t, id, c);
    }
  }

  lemma CreateReturnScheme(s: State, r: OutletReturn, c: string)
    requires WellFormed(s) && SchemeSound(s, c) && InvoicesFit(s) && c != ""
    ensures SchemeSound(CreateReturn(s, r).0, c)
  {
    if CreateReturn(s, r).1.Success? {
      var row := CreateReturn(s, r).1.value;
      CreateValid(s.rets, ReturnId, "RET", row);
      ReturnWriteScheme(s, s.(rets := Inserted(Minted(s.rets), row.id, row)), row.invoiceId, c);
    }
  }

  lemma UpdateReturnScheme(s: State, x: string, r: OutletReturn, c: string)
    requires WellFormed(s) && SchemeSound(s, c) && InvoicesFit(s) && c != ""
    ensures SchemeSound(UpdateReturn(s, x, r).0, c)
  {
    if UpdateReturn(s, x, r).1.Success? {
      var row := UpdateReturn(s, x, r).1.value;
      assert ReturnId(s.rets.rows[x]) == x;
      UpdateValid(s.rets, ReturnId, "RET", row);
      var t := s.(rets := Updated(s.rets, x, row));
      ReturnWriteScheme(s, t, row.invoiceId, c);
      var t1 := RefreshNamed(t, row.invoiceId);
      ReturnWriteScheme(t1, t1, s.rets.rows[x].invoiceId, c);
    }
  }

  lemma DeleteReturnScheme(s: State, x: string, c: string)
    requires WellFormed(s) && SchemeSound(s, c) && InvoicesFit(s) && c != ""
    ensures SchemeSound(DeleteReturn(s, x).0, c)
  {
    if DeleteReturn(s, x).1.Success? {
      DeleteValid(s.rets, ReturnId, "RET", x);
      ReturnWriteScheme(s, s.(rets := Deleted(s.rets, x)), s.rets.rows[x].invoiceId, c);
    }
  }

  lemma OtherCallsSchemes(s: State, op: Op)
    requires op.OpCreateLoad? || op.OpUpdateLoad? || op.OpDeleteLoad? || op.OpCreateRecon? || op.OpUpdateRecon?
      || op.OpDeleteRecon? || op.OpCreateOutlet? || op.OpPatchOutlet? || op.OpDeleteOutlet?
    ensures Step(s, op).invoices == s.invoices && Step(s, op).schemes == s.schemes
  {
  }

  lemma BookStepScheme(s: State, op: Op, c: string)
    requires WellFormed(s) && Coherent(s) && SchemeSound(s, c) && SchemeOrderly(s, op, c) && OnBooks(op) && c != ""
    ensures SchemeSound(BookStep(s, op), c)
  {
    match op
    case OpCreateInvoice(i) => CreateInvoiceScheme(s, i, c);
    case OpUpdateInvoice(x, i) => UpdateInvoiceScheme(s, x, i, c);
    case OpDeleteInvoice(x) => DeleteInvoiceScheme(s, x, c);
    case OpCreateCollection(d) => CreateCollectionScheme(s, d, c);
    case OpUpdateCollection(x, d) => UpdateCollectionScheme(s, x, d, c);
    case OpDeleteCollection(x) => DeleteCollectionScheme(s, x, c);
    case OpCreateReturn(r) => CreateReturnScheme(s, r, c);
    case OpUpdateReturn(x, r) => UpdateReturnScheme(s, x, r, c);
    case OpDeleteReturn(x) => DeleteReturnScheme(s, x, c);
  }

  lemma StepScheme(s: State, op: Op, c: string)
    requires WellFormed(s) && Coherent(s) && SchemeSound(s, c) && SchemeOrderly(s, op, c) && c != ""
    ensures SchemeSound(Step(s, op), c)
  {
    if OnBooks(op) {
      BookStepScheme(s, op, c);
    } else {
      match op
      case OpCreateScheme(sch) => CreateSchemeSound(s, sch, c);
      case OpUpdateScheme(x, sch) => UpdateSchemeSound(s, x, sch, c);
      case OpDeleteScheme(x) => DeleteSchemeSound(s, x, c);
      case _ => OtherCallsSchemes(s, op); SameSchemeSound(s, Step(s, op), c);
    }
  }

  /** Over every run orderly for one scheme, whatever happens to the others, what it reports
      as redeemed is the sum over its confirmed invoices, and while active it is strictly
      below each positive allocation. */
  lemma {:induction false} SchemeSoundOverRuns(s: State, ops: seq<Op>, c: string)
    requires WellFormed(s) && Coherent(s) && SchemeSound(s, c) && SchemeOrderlyOn(s, ops, c) && c != ""
    ensures SchemeSound(Run(s, ops), c)
    decreases |ops|
  {
    if ops != [] {
      StepScheme(s, ops[0], c);
      StepCoherent(s, ops[0]);
      SchemeSoundOverRuns(Step(s, ops[0]), ops[1..], c);
    }
  }

  /** So over every orderly run, all of them. */
  lemma SchemesSoundOverRuns(s: State, ops: seq<Op>)
    requires WellFormed(s) && Coherent(s) && SchemesSound(s) && SchemeOrderlyRun(s, ops)
    ensures SchemesSound(Run(s, ops))
  {
    forall c | c != "" ensures SchemeSound(Run(s, ops), c) {
      SchemeSoundOverRuns(s, ops, c);
    }
  }
}
