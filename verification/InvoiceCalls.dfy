/** What an invoice call does with the form it is given: when it is refused and how, and
    what is stored, said on the caller's own fields. */
module InvoiceCalls {
  import opened Coherence
  import opened Credit
  import opened DeskCalls
  import opened Ids
  import opened Ledger
  import opened Money
  import Paging
  import opened Payments
  import opened Tables
  import opened Wrappers

  // ---- words and lookups ----------------------------------------------------------------

  /** The word stands somewhere in the text. */
  ghost predicate Says(text: string, word: string)
  {
    exists before, after :: text == before + word + after
  }

  lemma {:induction false} ContainsIff(text: string, word: string)
    ensures Contains(text, word) <==> Says(text, word)
  {
    if word <= text {
      assert text == [] + word + text[|word|..];
    } else if text != "" {
      ContainsIff(text[1..], word);
      if Says(text, word) {
        var before, after :| text == before + word + after;
        assert before != [] && text[1..] == before[1..] + word + after;
      }
      if Says(text[1..], word) {
        var before, after :| text[1..] == before + word + after;
        assert text == ([text[0]] + before) + word + after;
      }
    }
  }

  /** Terms that give credit name none of the three words for payment at once. */
  ghost predicate GivesCredit(terms: string)
  {
    !Says(terms, "cash") && !Says(terms, "cod") && !Says(terms, "immediate")
  }

  lemma CreditTerms(terms: string)
    ensures GivesCredit(terms) <==> !IsCashTerms(terms)
  {
    ContainsIff(terms, "cash");
    ContainsIff(terms, "cod");
    ContainsIff(terms, "immediate");
  }

  /** The first outlet with the id. */
  predicate IsOutlet(outlets: seq<Outlet>, id: string, o: Outlet)
  {
    exists k: nat | k < |outlets| :: FirstAt(outlets, id, k) && outlets[k] == o
  }

  lemma FindOutletIff(outlets: seq<Outlet>, id: string, o: Outlet)
    ensures FindOutlet(outlets, id) == Some(o) <==> IsOutlet(outlets, id, o)
  {
    if IsOutlet(outlets, id, o) {
      var k: nat :| k < |outlets| && FirstAt(outlets, id, k) && outlets[k] == o;
      FoundFirst(outlets, id, k);
    } else if FindOutlet(outlets, id) == Some(o) {
      var k := FirstOne(outlets, id);
      FoundFirst(outlets, id, k);
    }
  }

  /** The first of the listed schemes with the name. */
  predicate IsFirstNamed(rows: seq<Scheme>, name: string, sch: Scheme)
  {
    sch.name == name && exists k :: 0 <= k < |rows| && rows[k] == sch && forall j :: 0 <= j < k ==> rows[j].name != name
  }

  lemma {:induction false} FirstNamedIff(rows: seq<Scheme>, name: string, sch: Scheme)
    ensures FirstNamed(rows, name) == Some(sch) <==> IsFirstNamed(rows, name, sch)
  {
    if rows != [] && rows[0].name != name {
      FirstNamedIff(rows[1..], name, sch);
      if IsFirstNamed(rows, name, sch) {
        var k :| 0 <= k < |rows| && rows[k] == sch && forall j :: 0 <= j < k ==> rows[j].name != name;
        assert rows[1..][k - 1] == sch && forall j :: 0 <= j < k - 1 ==> rows[1..][j].name != name;
      }
      if IsFirstNamed(rows[1..], name, sch) {
        var k :| 0 <= k < |rows[1..]| && rows[1..][k] == sch && forall j :: 0 <= j < k ==> rows[1..][j].name != name;
        assert rows[k + 1] == sch;
        assert forall j :: 0 <= j < k + 1 ==> rows[j].name != name by {
          forall j | 0 < j < k + 1 ensures rows[j].name != name {
            assert rows[1..][j - 1].name != name;
          }
        }
      }
    }
  }

  /** A reference is an id if there is a scheme with it, and otherwise the name of the
      newest of the 5000 schemes listed. */
  predicate IsScheme(s: State, ref: string, sch: Scheme)
  {
    if ref in s.schemes.rows then s.schemes.rows[ref] == sch
    else IsFirstNamed(Listed(s.schemes, SchemeKeys, DocFilter("", "", "", 5000, 0)), ref, sch)
  }

  lemma FindSchemeIff(s: State, ref: string, sch: Scheme)
    requires ref != ""
    ensures FindScheme(s, ref) == Some(sch) <==> IsScheme(s, ref, sch)
  {
    FirstNamedIff(Listed(s.schemes, SchemeKeys, EVERYTHING), ref, sch);
  }

  // ---- the objections to a form -----------------------------------------------------------

  /** Quantity times price in hundredths if both are given, else the typed amount. */
  ghost predicate Bills(f: Invoice, amount: real)
  {
    if f.quantity > 0.0 && f.unitPrice > 0.0 then RoundsTo(f.quantity * f.unitPrice, amount) else amount == f.amount
  }

  /** The form asks for an invoiced, paid or confirmed invoice; blank means invoiced. */
  predicate AsksConfirmed(f: Invoice)
  {
    f.status in {Blank, Invoiced, Paid, Confirmed}
  }

  predicate StandsConfirmed(existing: Option<Invoice>)
  {
    existing.Some? && existing.value.status in {Invoiced, Paid, Confirmed}
  }

  /** A confirmed amount would change. */
  ghost predicate RewritesHistory(existing: Option<Invoice>, amount: real)
  {
    StandsConfirmed(existing) && !RoundsTo(existing.value.amount, amount)
  }

  predicate SellsFromVan(f: Invoice)
  {
    f.vanLoadId != "" && f.quantity > 0.0
  }

  /** More is asked for than is on the van, what the stored invoice took there set aside. */
  predicate ShortOnVan(s: State, f: Invoice, existing: Option<Invoice>)
  {
    var own := if StandsConfirmed(existing) && existing.value.vanLoadId == f.vanLoadId
               then existing.value.quantity else 0.0;
    SellsFromVan(f) && VanOnHand(s, f.vanLoadId).Success? && f.quantity > VanOnHand(s, f.vanLoadId).value + own + 0.009
  }

  /** The form's terms, or with a blank form the outlet's, give credit. */
  ghost predicate BuysOnCredit(f: Invoice, o: Outlet)
  {
    if f.terms != "" then GivesCredit(f.terms) else o.terms != "" && GivesCredit(o.terms)
  }

  /** With the invoice the outlet would owe more than its limit, what the stored invoice
      owes set aside. */
  predicate PassesLimit(s: State, o: Outlet, amount: real, existing: Option<Invoice>)
  {
    var own := if StandsConfirmed(existing) then existing.value.outstanding else 0.0;
    OutletOutstanding(s, o.id) - own + amount >= o.creditLimit + 0.005
  }

  /** A supervisor answers for it, and says why. */
  predicate Answered(i: InvoiceInput)
  {
    i.doc.creditOverride && i.doc.overrideReason != "" && i.canOverride
  }

  ghost predicate NoCredit(s: State, i: InvoiceInput, o: Outlet, amount: real, existing: Option<Invoice>)
  {
    && AsksConfirmed(i.doc) && BuysOnCredit(i.doc, o)
    && (!o.kycApproved || (PassesLimit(s, o, amount, existing) && !Answered(i)))
  }

  /** Segment and tier of the scheme are blank or the outlet's. */
  predicate Fits(sch: Scheme, o: Outlet)
  {
    sch.segment in {"", o.segment} && sch.volumeTier in {"", o.volumeTier}
  }

  ghost predicate UnknownScheme(s: State, ref: string)
  {
    ref != "" && forall sch :: !IsScheme(s, ref, sch)
  }

  ghost predicate ClosedScheme(s: State, ref: string, o: Outlet)
  {
    ref != "" && exists sch :: IsScheme(s, ref, sch) && (sch.status != Active || !Fits(sch, o))
  }

  // ---- the checks, one by one ---------------------------------------------------------------

  function BilledAmount(f: Invoice): real
  {
    if f.quantity > 0.0 && f.unitPrice > 0.0 then LineAmount(f.quantity, f.unitPrice) else f.amount
  }

  lemma LineMeans(quantity: real, price: real, amount: real)
    ensures RoundsTo(quantity * price, amount) <==> amount == LineAmount(quantity, price)
  {
    var product := quantity * price;
    RoundMeans(product, amount);
  }

  lemma BillsIff(f: Invoice, amount: real)
    ensures Bills(f, amount) <==> amount == BilledAmount(f)
  {
    LineMeans(f.quantity, f.unitPrice, amount);
  }

  lemma RewritesIff(existing: Option<Invoice>, amount: real)
    ensures RewritesHistory(existing, amount) <==> StandsConfirmed(existing) && Round2(existing.value.amount) != amount
  {
    if existing.Some? {
      RoundMeans(existing.value.amount, amount);
    }
  }

  lemma PriceChecked(s: State, f: Invoice, existing: Option<Invoice>)
    requires f.outletId != "" && FindOutlet(s.outlets, f.outletId).Some?
    ensures PricedInvoice(s, f, existing)
         == var amount := BilledAmount(f);
            if amount <= 0.0 then Failure(Invalid)
            else if StandsConfirmed(existing) && Round2(existing.value.amount) != amount then Failure(Conflict)
            else Success(f.(status := if f.status == Blank then Invoiced else f.status, amount := amount))
  {
  }

  lemma StockChecked(s: State, d: Invoice, existing: Option<Invoice>)
    ensures StockCheck(s, d, existing)
         == if SellsFromVan(d) && d.vanLoadId !in s.loads.rows then Failure(Invalid)
            else if ShortOnVan(s, d, existing) then Failure(Conflict) else Success(())
  {
  }

  lemma CashOnDeliveryIsCash()
    ensures !GivesCredit("cash on delivery")
  {
    assert "cash on delivery" == [] + "cash" + " on delivery";
  }

  lemma EffectiveCredit(f: Invoice, o: Outlet)
    ensures BuysOnCredit(f, o) <==> !IsCashTerms(EffectiveTerms(f, o))
  {
    CreditTerms(EffectiveTerms(f, o));
    CashOnDeliveryIsCash();
  }

  lemma RoundsPast(v: real)
    ensures Round2(v) > 0.009 <==> v >= 0.005
  {
  }

  lemma OverLimitIff(s: State, d: Invoice, o: Outlet, existing: Option<Invoice>)
    ensures OverLimit(s, d, o, existing) > 0.009 <==> PassesLimit(s, o, d.amount, existing)
  {
    var own := if StandsConfirmed(existing) then existing.value.outstanding else 0.0;
    RoundsPast(OutletOutstanding(s, o.id) - own + d.amount - o.creditLimit);
  }

  /** The terms kept, and who answered for the limit: the name typed, else the caller's. */
  ghost predicate CreditFields(s: State, i: InvoiceInput, o: Outlet, existing: Option<Invoice>, d: Invoice)
  {
    && d == i.doc.(terms := d.terms, overrideBy := d.overrideBy)
    && d.terms == (if i.doc.terms != "" then i.doc.terms else if o.terms != "" then o.terms else "cash on delivery")
    && d.overrideBy == (if i.doc.overrideBy == "" && AsksConfirmed(i.doc) && BuysOnCredit(i.doc, o)
                           && PassesLimit(s, o, i.doc.amount, existing) then i.actor else i.doc.overrideBy)
  }

  lemma CreditChecked(s: State, i: InvoiceInput, o: Outlet, existing: Option<Invoice>)
    requires i.doc.status != Blank
    ensures var r := CreditCheck(s, i, o, existing);
      if NoCredit(s, i, o, i.doc.amount, existing) then r == Failure(Conflict)
      else r.Success? && CreditFields(s, i, o, existing, r.value)
  {
    EffectiveCredit(i.doc, o);
    OverLimitIff(s, i.doc.(terms := EffectiveTerms(i.doc, o)), o, existing);
  }

  lemma SchemeChecked(s: State, d: Invoice, o: Outlet)
    ensures var r := SchemeCheck(s, d, o);
      if UnknownScheme(s, d.schemeId) then r == Failure(Invalid)
      else if ClosedScheme(s, d.schemeId, o) then r == Failure(Conflict)
      else r.Success? && r.value == d.(schemeId := r.value.schemeId)
           && (if d.schemeId == "" then r.value.schemeId == ""
               else exists sch :: IsScheme(s, d.schemeId, sch) && r.value.schemeId == sch.id)
  {
    if d.schemeId != "" {
      match FindScheme(s, d.schemeId)
      case None =>
        forall sch ensures !IsScheme(s, d.schemeId, sch) {
          FindSchemeIff(s, d.schemeId, sch);
        }
      case Some(found) =>
        FindSchemeIff(s, d.schemeId, found);
        forall sch | IsScheme(s, d.schemeId, sch) ensures sch == found {
          FindSchemeIff(s, d.schemeId, sch);
        }
    }
  }

  // ---- the verdict ------------------------------------------------------------------------------

  /** The form names a known outlet and comes to an amount. */
  ghost predicate Billable(s: State, f: Invoice, o: Outlet, amount: real)
  {
    f.outletId != "" && IsOutlet(s.outlets, f.outletId, o) && Bills(f, amount) && amount > 0.0
  }

  ghost predicate Objected(s: State, i: InvoiceInput, o: Outlet, amount: real, existing: Option<Invoice>)
  {
    || RewritesHistory(existing, amount)
    || (SellsFromVan(i.doc) && i.doc.vanLoadId !in s.loads.rows) || ShortOnVan(s, i.doc, existing)
    || NoCredit(s, i, o, amount, existing)
    || UnknownScheme(s, i.doc.schemeId) || ClosedScheme(s, i.doc.schemeId, o)
  }

  /** Of several objections the first in the order history, van, credit, scheme decides:
      an unknown load or scheme makes the form invalid, anything else is a conflict. */
  ghost predicate ObjectedAsInvalid(s: State, i: InvoiceInput, o: Outlet, amount: real, existing: Option<Invoice>)
  {
    && !RewritesHistory(existing, amount)
    && ((SellsFromVan(i.doc) && i.doc.vanLoadId !in s.loads.rows)
        || (!ShortOnVan(s, i.doc, existing) && !NoCredit(s, i, o, amount, existing)
            && UnknownScheme(s, i.doc.schemeId)))
  }

  /** What is kept of an accepted form: blanks filled in, the amount worked out, the
      scheme's id in place of its name. */
  ghost predicate Completes(s: State, i: InvoiceInput, o: Outlet, amount: real, existing: Option<Invoice>, d: Invoice)
  {
    && d == i.doc.(status := d.status, amount := d.amount, terms := d.terms, overrideBy := d.overrideBy,
                   schemeId := d.schemeId)
    && d.status == (if i.doc.status == Blank then Invoiced else i.doc.status) && d.amount == amount
    && d.terms == (if i.doc.terms != "" then i.doc.terms else if o.terms != "" then o.terms else "cash on delivery")
    && d.overrideBy == (if i.doc.overrideBy == "" && AsksConfirmed(i.doc) && BuysOnCredit(i.doc, o)
                           && PassesLimit(s, o, amount, existing) then i.actor else i.doc.overrideBy)
    && (if i.doc.schemeId == "" then d.schemeId == ""
        else exists sch :: IsScheme(s, i.doc.schemeId, sch) && d.schemeId == sch.id)
  }

  lemma UnbillableInvalid(s: State, i: InvoiceInput, existing: Option<Invoice>)
    requires forall o, amount :: !Billable(s, i.doc, o, amount)
    ensures ValidateInvoice(s, i, existing) == Failure(Invalid)
  {
    var f := i.doc;
    if f.outletId != "" && FindOutlet(s.outlets, f.outletId).Some? {
      var o := FindOutlet(s.outlets, f.outletId).value;
      FindOutletIff(s.outlets, f.outletId, o);
      BillsIff(f, BilledAmount(f));
      assert !Billable(s, f, o, BilledAmount(f));
      PriceChecked(s, f, existing);
    }
  }

  /** A form as its checks see it. */
  function PricedForm(i: InvoiceInput): InvoiceInput
  {
    i.(doc := i.doc.(status := if i.doc.status == Blank then Invoiced else i.doc.status, amount := BilledAmount(i.doc)))
  }

  /** The checks in turn. */
  lemma InTurn(s: State, i: InvoiceInput, o: Outlet, existing: Option<Invoice>)
    requires Billable(s, i.doc, o, BilledAmount(i.doc))
    ensures var p := PricedForm(i);
      ValidateInvoice(s, i, existing)
        == if RewritesHistory(existing, p.doc.amount) then Failure(Conflict)
           else if StockCheck(s, p.doc, existing).Failure? then Failure(StockCheck(s, p.doc, existing).error)
           else if CreditCheck(s, p, o, existing).Failure? then Failure(CreditCheck(s, p, o, existing).error)
           else SchemeCheck(s, CreditCheck(s, p, o, existing).value, o)
  {
    FindOutletIff(s.outlets, i.doc.outletId, o);
    PriceChecked(s, i.doc, existing);
    RewritesIff(existing, BilledAmount(i.doc));
  }

  /** Pricing changes neither what is sold nor on what terms. */
  lemma SameObjections(s: State, i: InvoiceInput, o: Outlet, existing: Option<Invoice>)
    ensures var p := PricedForm(i);
      && SellsFromVan(p.doc) == SellsFromVan(i.doc) && ShortOnVan(s, p.doc, existing) == ShortOnVan(s, i.doc, existing)
      && BuysOnCredit(p.doc, o) == BuysOnCredit(i.doc, o) && AsksConfirmed(p.doc) == AsksConfirmed(i.doc)
      && NoCredit(s, p, o, p.doc.amount, existing) == NoCredit(s, i, o, p.doc.amount, existing)
  {
  }

  lemma VerdictAt(s: State, i: InvoiceInput, o: Outlet, existing: Option<Invoice>)
    requires Billable(s, i.doc, o, BilledAmount(i.doc))
    ensures var r, amount := ValidateInvoice(s, i, existing), BilledAmount(i.doc);
      && (r.Success? <==> !Objected(s, i, o, amount, existing))
      && (r == Failure(Invalid) <==> ObjectedAsInvalid(s, i, o, amount, existing))
      && r != Failure(NotFound)
      && (r.Success? ==> Completes(s, i, o, amount, existing, r.value))
  {
    var p := PricedForm(i);
    InTurn(s, i, o, existing);
    SameObjections(s, i, o, existing);
    StockChecked(s, p.doc, existing);
    CreditChecked(s, p, o, existing);
    if CreditCheck(s, p, o, existing).Success? {
      SchemeChecked(s, CreditCheck(s, p, o, existing).value, o);
    }
  }

  /** A form is accepted exactly when nothing is objected to, and what is kept of it is
      what was typed with the blanks filled in. */
  lemma InvoiceVerdict(s: State, i: InvoiceInput, o: Outlet, amount: real, existing: Option<Invoice>)
    requires Billable(s, i.doc, o, amount)
    ensures var r := ValidateInvoice(s, i, existing);
      && (r.Success? <==> !Objected(s, i, o, amount, existing))
      && (r == Failure(Invalid) <==> ObjectedAsInvalid(s, i, o, amount, existing))
      && r != Failure(NotFound)
      && (r.Success? ==> Completes(s, i, o, amount, existing, r.value))
  {
    BillsIff(i.doc, amount);
    VerdictAt(s, i, o, existing);
  }

  // ---- what is stored ---------------------------------------------------------------------------

  /** The completed form under an id, with what is owed on it and the status that goes with that. */
  ghost predicate StoredAs(s: State, d: Invoice, id: string, row: Invoice)
  {
    && row == d.(id := id, outstanding := row.outstanding, status := row.status)
    && row.outstanding == InvoiceOutstanding(s, d.(id := id))
    && row.status ==
         if d.status !in {Invoiced, Paid} then d.status else if row.outstanding == 0.0 then Paid else Invoiced
  }

  lemma SettledIsStored(s: State, d: Invoice, id: string, row: Invoice)
    requires row == d.(id := id, outstanding := row.outstanding)
    ensures StoredAs(s, d, id, Settled(row, InvoiceOutstanding(s, row)))
  {
    OutstandingIsCents(s, row);
  }

  /** A create appends the completed form under the next number, or changes nothing. */
  lemma CreateStores(s: State, i: InvoiceInput)
    requires WellFormed(s)
    ensures var (t, r), checked, id := CreateInvoice(s, i), ValidateInvoice(s, i, None),
                                       MintId("SINV", s.invoices.counter + 1);
      && (r.Success? <==> checked.Success?)
      && (r.Failure? ==> t == s && r.error == checked.error)
      && (r.Success? ==>
            && StoredAs(s, checked.value, id, r.value) && SameBut(s, t)
            && t.invoices == Table(s.invoices.rows[id := r.value], s.invoices.order + [id], s.invoices.counter + 1))
  {
    if ValidateInvoice(s, i, None).Success? {
      var d := ValidateInvoice(s, i, None).value;
      CreatedInvoice(s, i, d);
      AddInvoiceFrame(s, NewInvoice(s, d));
      SettledIsStored(s, d, NewInvoice(s, d).id, NewInvoice(s, d));
    }
  }

  /** The last collection naming the invoice to be stored is live. */
  predicate NewestLive(t: Table<Collection>, id: string)
  {
    exists k :: 0 <= k < |t.order| && LiveOn(t, t.order[k], id)
      && forall j :: k < j < |t.order| ==> !Names(t, t.order[j], id)
  }

  predicate Names(t: Table<Collection>, c: string, id: string)
  {
    c in t.rows && t.rows[c].invoiceId == id
  }

  predicate LiveOn(t: Table<Collection>, c: string, id: string)
  {
    Names(t, c, id) && t.rows[c].status != Void
  }

  lemma {:induction false} NewestListed(t: Table<Collection>, id: string)
    requires id != ""
    ensures var all := Kept(t, CollectionKeys, ByRef(id)); all != [] && all[0].status != Void <==> NewestLive(t, id)
    ensures Kept(t, CollectionKeys, ByRef(id)) == [] <==> forall k :: 0 <= k < |t.order| ==> !Names(t, t.order[k], id)
    decreases |t.order|
  {
    if t.order != [] {
      var n := |t.order| - 1;
      var older := t.(order := t.order[..n]);
      NewestListed(older, id);
      if t.order[n] in t.rows {
        ListsInvoiceOfCollection(t.rows[t.order[n]], id);
      }
      if NewestLive(older, id) && !Names(t, t.order[n], id) {
        var k :| 0 <= k < n && LiveOn(older, older.order[k], id)
          && forall j :: k < j < n ==> !Names(older, older.order[j], id);
        assert LiveOn(t, t.order[k], id) && forall j :: k < j < |t.order| ==> !Names(t, t.order[j], id);
      }
    }
  }

  lemma HasCollectionsIff(s: State, id: string)
    requires id != ""
    ensures HasCollections(s, id) <==> NewestLive(s.collects, id)
  {
    NewestListed(s.collects, id);
    Paging.SameTotalOnEveryPage(s.collects, CollectionKeys, ByRef(id), 1, 0);
  }

  /** An update is refused for want of the invoice, for what the checks object to, or for
      voiding an invoice whose newest collection is live; otherwise the completed form
      replaces the invoice under its id. */
  lemma UpdateStores(s: State, id: string, i: InvoiceInput)
    requires WellFormed(s)
    ensures var (t, r) := UpdateInvoice(s, id, i);
      && (r == Failure(NotFound) <==> id !in s.invoices.rows)
      && (r.Failure? ==> t == s)
      && (id in s.invoices.rows ==>
            var checked := ValidateInvoice(s, i, Some(s.invoices.rows[id]));
            && (r.Success? <==> checked.Success? && !(i.doc.status == Void && NewestLive(s.collects, id)))
            && (r.Failure? ==> r.error == if checked.Failure? then checked.error else Conflict)
            && (r.Success? ==>
                  && StoredAs(s, checked.value, id, r.value) && SameBut(s, t)
                  && t.invoices == s.invoices.(rows := s.invoices.rows[id := r.value])))
  {
    if id in s.invoices.rows {
      var cur := s.invoices.rows[id];
      assert InvoiceId(cur) == id && id != "";
      HasCollectionsIff(s, id);
      if ValidateInvoice(s, i, Some(cur)).Success? {
        UpdateAccepted(s, id, i);
      } else {
        CheckedErrors(s, i, Some(cur));
      }
    }
  }

  lemma CheckedErrors(s: State, i: InvoiceInput, existing: Option<Invoice>)
    ensures ValidateInvoice(s, i, existing) != Failure(NotFound)
  {
    if o, amount :| Billable(s, i.doc, o, amount) {
      InvoiceVerdict(s, i, o, amount, existing);
    } else {
      UnbillableInvalid(s, i, existing);
    }
  }

  lemma UpdateAccepted(s: State, id: string, i: InvoiceInput)
    requires WellFormed(s) && id in s.invoices.rows && ValidateInvoice(s, i, Some(s.invoices.rows[id])).Success?
    ensures var (t, r), d := UpdateInvoice(s, id, i), ValidateInvoice(s, i, Some(s.invoices.rows[id])).value;
      && (r.Failure? <==> i.doc.status == Void && HasCollections(s, id)) && (r.Failure? ==> r.error == Conflict)
      && (r.Success? ==>
            && StoredAs(s, d, id, r.value) && SameBut(s, t)
            && t.invoices == s.invoices.(rows := s.invoices.rows[id := r.value]))
  {
    var cur := s.invoices.rows[id];
    var d := ValidateInvoice(s, i, Some(cur)).value;
    UpdateCarriedOut(s, id, i, d);
    ReplaceInvoiceFrame(s, cur, d.(id := id));
    SettledIsStored(s, d, id, d.(id := id));
  }

  /** An update in terms of the row it stores. */
  lemma UpdateCarriedOut(s: State, id: string, i: InvoiceInput, d: Invoice)
    requires WellFormed(s) && id in s.invoices.rows && ValidateInvoice(s, i, Some(s.invoices.rows[id])) == Success(d)
    ensures var cur, row := s.invoices.rows[id], d.(id := id);
      UpdateInvoice(s, id, i)
        == if i.doc.status == Void && HasCollections(s, id) then (s, Failure(Conflict))
           else (ReplaceInvoice(s, cur, row), Success(Settled(row, InvoiceOutstanding(s, row))))
  {
    assert InvoiceId(s.invoices.rows[id]) == id;
    ValidInvoiceShape(s, i, Some(s.invoices.rows[id]));
  }

  /** Only an invoice that is not confirmed is deleted. */
  lemma DeleteVerdict(s: State, id: string)
    ensures var (t, r) := DeleteInvoice(s, id);
      && (r == Failure(NotFound) <==> id !in s.invoices.rows)
      && (r == Failure(Conflict) <==>
            id in s.invoices.rows && s.invoices.rows[id].status in {Invoiced, Paid, Confirmed})
      && r != Failure(Invalid) && (r.Failure? ==> t == s)
      && (r.Success? ==> t.invoices.rows == s.invoices.rows - {id} && SameBut(s, t))
  {
    if id in s.invoices.rows {
      RefreshOutletFrame(s.(invoices := Deleted(s.invoices, id)), s.invoices.rows[id].outletId);
    }
  }

  // ---- terms and credit ---------------------------------------------------------------------------

  /** The terms stored are the form's, else the outlet's, else cash on delivery. */
  lemma TermsStored(s: State, i: InvoiceInput, o: Outlet)
    requires WellFormed(s) && IsOutlet(s.outlets, i.doc.outletId, o) && CreateInvoice(s, i).1.Success?
    ensures var row := CreateInvoice(s, i).1.value;
      && row.id in CreateInvoice(s, i).0.invoices.rows && CreateInvoice(s, i).0.invoices.rows[row.id] == row
      && (i.doc.terms != "" ==> row.terms == i.doc.terms)
      && (i.doc.terms == "" && o.terms != "" ==> row.terms == o.terms)
      && (i.doc.terms == "" && o.terms == "" ==> row.terms == "cash on delivery")
  {
    CreateStores(s, i);
    AcceptedCompletes(s, i, o, None);
  }

  lemma AcceptedCompletes(s: State, i: InvoiceInput, o: Outlet, existing: Option<Invoice>)
    requires ValidateInvoice(s, i, existing).Success? && IsOutlet(s.outlets, i.doc.outletId, o)
    ensures Billable(s, i.doc, o, BilledAmount(i.doc)) && !Objected(s, i, o, BilledAmount(i.doc), existing)
    ensures Completes(s, i, o, BilledAmount(i.doc), existing, ValidateInvoice(s, i, existing).value)
  {
    if x, amount :| Billable(s, i.doc, x, amount) {
      FindOutletIff(s.outlets, i.doc.outletId, x);
      FindOutletIff(s.outlets, i.doc.outletId, o);
      BillsIff(i.doc, amount);
      InvoiceVerdict(s, i, o, amount, existing);
    } else {
      UnbillableInvalid(s, i, existing);
    }
  }

  /** What holds of an outlet that was sold to on credit. */
  ghost predicate CreditHonoured(t: State, o: Outlet, i: InvoiceInput)
  {
    && o.kycApproved
    && (Answered(i)
        || (Owes(t, o.id) < o.creditLimit + 0.01 && (IsCents(o.creditLimit) ==> Owes(t, o.id) <= o.creditLimit)))
  }

  lemma OnCreditTerms(s: State, i: InvoiceInput, o: Outlet, existing: Option<Invoice>, d: Invoice)
    requires Completes(s, i, o, BilledAmount(i.doc), existing, d) && AsksConfirmed(i.doc) && BuysOnCredit(i.doc, o)
    ensures IsConfirmedInvoice(d.status) && !IsCashTerms(d.terms) && d.outletId == i.doc.outletId
    ensures Overridden(d, i.canOverride) == Answered(i)
  {
    CreditTerms(d.terms);
  }

  /** A form on credit terms, its own or with a blank form the outlet's, is accepted as a
      confirmed invoice only for an approved outlet, and leaves what it owes within its
      limit unless a supervisor answers. */
  lemma CreateHonoursCredit(s: State, i: InvoiceInput, o: Outlet)
    requires WellFormed(s) && Coherent(s) && NoNegativePayments(s) && OutletListFits(s, o.id)
    requires IsOutlet(s.outlets, i.doc.outletId, o) && AsksConfirmed(i.doc) && BuysOnCredit(i.doc, o)
    requires CreateInvoice(s, i).1.Success?
    ensures CreditHonoured(CreateInvoice(s, i).0, o, i)
  {
    CreateStores(s, i);
    var d := ValidateInvoice(s, i, None).value;
    AcceptedCompletes(s, i, o, None);
    OnCreditTerms(s, i, o, None, d);
    FindOutletIff(s.outlets, i.doc.outletId, o);
    CreateCreditGate(s, i, d);
  }

  /** So is an update that keeps the invoice's outlet. */
  lemma UpdateHonoursCredit(s: State, id: string, i: InvoiceInput, o: Outlet)
    requires WellFormed(s) && Coherent(s) && NoNegativePayments(s) && OutletListFits(s, o.id)
    requires IsOutlet(s.outlets, i.doc.outletId, o) && AsksConfirmed(i.doc) && BuysOnCredit(i.doc, o)
    requires UpdateInvoice(s, id, i).1.Success? && s.invoices.rows[id].outletId == i.doc.outletId
    ensures CreditHonoured(UpdateInvoice(s, id, i).0, o, i)
  {
    UpdateStores(s, id, i);
    var cur := s.invoices.rows[id];
    var d := ValidateInvoice(s, i, Some(cur)).value;
    AcceptedCompletes(s, i, o, Some(cur));
    OnCreditTerms(s, i, o, Some(cur), d);
    FindOutletIff(s.outlets, i.doc.outletId, o);
    UpdateCreditGate(s, id, i, d);
  }
}
