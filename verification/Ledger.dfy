/** The secondary-sales ledger as a value: what every public method of
    internal/store/secondary.go computes from the state it finds. The class
    Repository carries the same operations out step by step over tables in the
    heap and is proved equal to these functions. Text is modelled after `lower`
    (trimmed, lower case), as every comparison in the source sees it. */
module Ledger {
  import opened Fefo
  import opened Ids
  import opened Money
  import opened Tables
  import opened Wrappers

  // ---- documents ----------------------------------------------------------

  /** The status vocabulary of all document types; Other is any further text. */
  datatype Status =
    | Blank
    | Draft | Invoiced | Paid | Confirmed | Void
    | Collected | Received | Credited | Cancelled
    | Active | Exhausted | Inactive
    | Open | Balanced | Exception | Loaded
    | Other(text: string)

  function StatusText(s: Status): string
  {
    match s
    case Blank => "" case Draft => "draft" case Invoiced => "invoiced" case Paid => "paid"
    case Confirmed => "confirmed" case Void => "void" case Collected => "collected"
    case Received => "received" case Credited => "credited" case Cancelled => "cancelled"
    case Active => "active" case Exhausted => "exhausted" case Inactive => "inactive"
    case Open => "open" case Balanced => "balanced" case Exception => "exception"
    case Loaded => "loaded" case Other(text) => text
  }

  datatype LoadBatch = LoadBatch(batch: string, expiry: string, quantity: real)

  datatype VanLoad = VanLoad(
    id: string, vehicleId: string, quantity: real, batch: string, expiry: string,
    batches: seq<LoadBatch>, status: Status)

  datatype Invoice = Invoice(
    id: string, outletId: string, vanLoadId: string, quantity: real, unitPrice: real, amount: real,
    terms: string, schemeId: string, schemeValue: real, creditOverride: bool,
    overrideReason: string, overrideBy: string, outstanding: real, status: Status)

  /** The create/update payload plus who is acting. */
  datatype InvoiceInput = InvoiceInput(doc: Invoice, actor: string, canOverride: bool)

  datatype Collection = Collection(
    id: string, outletId: string, invoiceId: string, amount: real,
    remainingOnInvoice: real, status: Status)

  datatype Disposition = Unset | StockReceipt | WriteOff

  datatype OutletReturn = OutletReturn(
    id: string, outletId: string, invoiceId: string, vanLoadId: string, quantity: real,
    reason: string, disposition: Disposition, credit: real, status: Status)

  datatype VanRecon = VanRecon(
    id: string, vanId: string, vanLoadId: string,
    loaded: real, sold: real, returned: real, remaining: real,
    stockVariance: real, stockBalanced: bool, stockExplanation: string,
    collectedCash: real, depositedCash: real,
    cashVariance: real, cashBalanced: bool, cashExplanation: string, status: Status)

  datatype Scheme = Scheme(
    id: string, name: string, budget: real, volume: real, redeemedValue: real, redeemedVolume: real,
    segment: string, volumeTier: string, status: Status)

  datatype Outlet = Outlet(
    id: string, distributorId: string, beatId: string, creditLimit: real, terms: string,
    segment: string, volumeTier: string, kycApproved: bool, outstanding: real)

  datatype OutletInput = OutletInput(
    distributorId: string, beatId: string, creditLimit: real, terms: string,
    segment: string, volumeTier: string, kycApproved: bool)

  datatype OutletPatch = OutletPatch(
    beatId: Option<string>, creditLimit: Option<real>, terms: Option<string>,
    segment: Option<string>, volumeTier: Option<string>, kycApproved: Option<bool>)

  function LoadKeys(v: VanLoad): Keys { Keys(StatusText(v.status), "", v.vehicleId) }
  function InvoiceKeys(v: Invoice): Keys { Keys(StatusText(v.status), v.outletId, v.vanLoadId) }
  function CollectionKeys(c: Collection): Keys { Keys(StatusText(c.status), c.outletId, c.invoiceId) }
  function ReturnKeys(r: OutletReturn): Keys { Keys(StatusText(r.status), r.outletId, r.invoiceId) }
  function ReconKeys(v: VanRecon): Keys { Keys(StatusText(v.status), "", v.vanLoadId) }
  function SchemeKeys(s: Scheme): Keys { Keys(StatusText(s.status), "", "") }

  function LoadId(v: VanLoad): string { v.id }
  function InvoiceId(v: Invoice): string { v.id }
  function CollectionId(c: Collection): string { c.id }
  function ReturnId(r: OutletReturn): string { r.id }
  function ReconId(v: VanRecon): string { v.id }
  function SchemeId(s: Scheme): string { s.id }

  // ---- state --------------------------------------------------------------

  datatype State = State(
    loads: Table<VanLoad>, invoices: Table<Invoice>, collects: Table<Collection>,
    rets: Table<OutletReturn>, recons: Table<VanRecon>, schemes: Table<Scheme>,
    outlets: seq<Outlet>, nextOutlet: nat, distributors: set<string>, beats: set<string>)

  // ---- vocabulary ---------------------------------------------------------

  predicate IsConfirmedInvoice(s: Status)
  {
    s == Invoiced || s == Paid || s == Confirmed
  }

  predicate Contains(s: string, sub: string)
  {
    sub <= s || (s != "" && Contains(s[1..], sub))
  }

  /** cash|cod|immediate anywhere in the terms. */
  predicate IsCashTerms(terms: string)
  {
    Contains(terms, "cash") || Contains(terms, "cod") || Contains(terms, "immediate")
  }

  const CASH_ON_DELIVERY := "cash on delivery"

  // ---- weights of the sums ------------------------------------------------

  function ConfirmedQuantity(inv: Invoice): real
  {
    if IsConfirmedInvoice(inv.status) then inv.quantity else 0.0
  }

  function ConfirmedOutstanding(inv: Invoice): real
  {
    if IsConfirmedInvoice(inv.status) then inv.outstanding else 0.0
  }

  function LiveAmount(c: Collection): real
  {
    if c.status != Void then c.amount else 0.0
  }

  function CreditedAmount(r: OutletReturn): real
  {
    if r.status == Credited then r.credit else 0.0
  }

  function BackOn(loadId: string): OutletReturn -> real
  {
    (r: OutletReturn) => if r.vanLoadId == loadId && r.status != Cancelled then r.quantity else 0.0
  }

  function RedeemedValueOf(schemeId: string): Invoice -> real
  {
    (inv: Invoice) => if inv.schemeId == schemeId && IsConfirmedInvoice(inv.status) then inv.schemeValue else 0.0
  }

  function RedeemedVolumeOf(schemeId: string): Invoice -> real
  {
    (inv: Invoice) => if inv.schemeId == schemeId && IsConfirmedInvoice(inv.status) then inv.quantity else 0.0
  }

  // ---- van stock ----------------------------------------------------------

  function VanSold(s: State, loadId: string): real
  {
    Round2(SumOf(Listed(s.invoices, InvoiceKeys, ByRef(loadId)), ConfirmedQuantity))
  }

  function VanReturned(s: State, loadId: string): real
  {
    Round2(SumOf(Listed(s.rets, ReturnKeys, EVERYTHING), BackOn(loadId)))
  }

  function OnHand(loaded: real, sold: real, back: real): real
  {
    Round2(Max(0.0, loaded - sold + back))
  }

  function VanOnHand(s: State, loadId: string): Result<real>
  {
    match Get(s.loads, loadId)
    case None => Failure(NotFound)
    case Some(load) => Success(OnHand(load.quantity, VanSold(s, loadId), VanReturned(s, loadId)))
  }

  // ---- refreshing the caches ----------------------------------------------

  function OutletOutstanding(s: State, outletId: string): real
  {
    Round2(SumOf(Listed(s.invoices, InvoiceKeys, ByOutlet(outletId)), ConfirmedOutstanding))
  }

  /** Live collections and credited returns. */
  function PaidOn(s: State, invoiceId: string): real
  {
    SumOf(Listed(s.collects, CollectionKeys, ByRef(invoiceId)), LiveAmount)
    + SumOf(Listed(s.rets, ReturnKeys, ByRef(invoiceId)), CreditedAmount)
  }

  function Unpaid(amount: real, paid: real): real
  {
    Round2(Max(0.0, amount - paid))
  }

  function InvoiceOutstanding(s: State, inv: Invoice): real
  {
    if !IsConfirmedInvoice(inv.status) then 0.0 else Unpaid(inv.amount, PaidOn(s, inv.id))
  }

  /** Settled invoices flip to paid, reopened ones back to invoiced. */
  function Settled(inv: Invoice, outstanding: real): Invoice
  {
    var status :=
      if outstanding <= 0.009 && inv.status == Invoiced then Paid
      else if outstanding > 0.009 && inv.status == Paid then Invoiced
      else inv.status;
    inv.(outstanding := outstanding, status := status)
  }

  function SetBalance(outlets: seq<Outlet>, outletId: string, total: real): (out: seq<Outlet>)
    ensures |out| == |outlets|
    ensures forall i :: 0 <= i < |out| ==>
      out[i] == if outlets[i].id == outletId then outlets[i].(outstanding := total) else outlets[i]
  {
    if outlets == [] then []
    else
      var last := outlets[|outlets| - 1];
      SetBalance(outlets[..|outlets| - 1], outletId, total)
      + [if last.id == outletId then last.(outstanding := total) else last]
  }

  function RefreshOutletBalance(s: State, outletId: string): State
  {
    if outletId == "" then s
    else s.(outlets := SetBalance(s.outlets, outletId, OutletOutstanding(s, outletId)))
  }

  predicate UsedUp(sch: Scheme)
  {
    || (sch.budget > 0.0 && sch.redeemedValue >= sch.budget)
    || (sch.volume > 0.0 && sch.redeemedVolume >= sch.volume)
  }

  function RedeemedValue(s: State, id: string): real
  {
    Round2(SumOf(Listed(s.invoices, InvoiceKeys, EVERYTHING), RedeemedValueOf(id)))
  }

  function RedeemedVolume(s: State, id: string): real
  {
    Round2(SumOf(Listed(s.invoices, InvoiceKeys, EVERYTHING), RedeemedVolumeOf(id)))
  }

  /** The scheme with its redemption; it flips to exhausted and back as the figures say. */
  function Redeemed(sch: Scheme, value: real, volume: real): Scheme
  {
    var counted := sch.(redeemedValue := value, redeemedVolume := volume);
    if UsedUp(counted) && counted.status == Active then counted.(status := Exhausted)
    else if !UsedUp(counted) && counted.status == Exhausted then counted.(status := Active)
    else counted
  }

  function RefreshedScheme(s: State, sch: Scheme, id: string): Scheme
  {
    Redeemed(sch, RedeemedValue(s, id), RedeemedVolume(s, id))
  }

  function RefreshScheme(s: State, id: string): State
  {
    match Get(s.schemes, id)
    case None => s
    case Some(sch) => s.(schemes := Updated(s.schemes, id, RefreshedScheme(s, sch, id)))
  }

  /** The invoice's caches, then the outlet's balance, then the scheme. */
  function RefreshInvoice(s: State, id: string): State
  {
    match Get(s.invoices, id)
    case None => s
    case Some(inv) =>
      var inv' := Settled(inv, InvoiceOutstanding(s, inv));
      var s1 := s.(invoices := Updated(s.invoices, id, inv'));
      var s2 := RefreshOutletBalance(s1, inv.outletId);
      if inv.schemeId != "" then RefreshScheme(s2, inv.schemeId) else s2
  }

  // ---- outlets ------------------------------------------------------------

  function FindOutlet(outlets: seq<Outlet>, id: string): (o: Option<Outlet>)
    ensures o.Some? ==> o.value in outlets && o.value.id == id
    ensures o.None? ==> forall x :: x in outlets ==> x.id != id
  {
    if outlets == [] then None
    else if outlets[0].id == id then Some(outlets[0])
    else FindOutlet(outlets[1..], id)
  }

  predicate BeatKnown(s: State, beat: string)
  {
    beat == "" || beat in s.beats
  }

  function OutletFromInput(id: string, o: OutletInput): Outlet
  {
    Outlet(id, o.distributorId, o.beatId, o.creditLimit, o.terms, o.segment, o.volumeTier, o.kycApproved, 0.0)
  }

  function CreateOutlet(s: State, o: OutletInput): (State, Result<Outlet>)
  {
    if o.distributorId !in s.distributors || !BeatKnown(s, o.beatId) then (s, Failure(Invalid))
    else
      var row := OutletFromInput(MintId("OUT", s.nextOutlet + 1), o);
      (s.(outlets := s.outlets + [row], nextOutlet := s.nextOutlet + 1), Success(row))
  }

  function Or<T>(patch: Option<T>, old_: T): T
  {
    match patch case None => old_ case Some(v) => v
  }

  function Patched(o: Outlet, p: OutletPatch): Outlet
  {
    o.(beatId := Or(p.beatId, o.beatId), creditLimit := Or(p.creditLimit, o.creditLimit),
       terms := Or(p.terms, o.terms), segment := Or(p.segment, o.segment),
       volumeTier := Or(p.volumeTier, o.volumeTier), kycApproved := Or(p.kycApproved, o.kycApproved))
  }

  function PatchFirst(outlets: seq<Outlet>, id: string, p: OutletPatch): seq<Outlet>
  {
    if outlets == [] then []
    else if outlets[0].id == id then [Patched(outlets[0], p)] + outlets[1..]
    else [outlets[0]] + PatchFirst(outlets[1..], id, p)
  }

  function PatchOutlet(s: State, id: string, p: OutletPatch): (State, Result<Outlet>)
  {
    if p.beatId.Some? && !BeatKnown(s, p.beatId.value) then (s, Failure(Invalid))
    else match FindOutlet(s.outlets, id)
      case None => (s, Failure(NotFound))
      case Some(o) => (s.(outlets := PatchFirst(s.outlets, id, p)), Success(Patched(o, p)))
  }

  function RemoveFirst(outlets: seq<Outlet>, id: string): seq<Outlet>
  {
    if outlets == [] then []
    else if outlets[0].id == id then outlets[1..]
    else [outlets[0]] + RemoveFirst(outlets[1..], id)
  }

  function DeleteOutlet(s: State, id: string): (State, Result<()>)
  {
    match FindOutlet(s.outlets, id)
    case None => (s, Failure(NotFound))
    case Some(_) => (s.(outlets := RemoveFirst(s.outlets, id)), Success(()))
  }

  // ---- van loads ----------------------------------------------------------

  function BatchExpiry(b: LoadBatch): string { b.expiry }
  function BatchQuantity(b: LoadBatch): real { b.quantity }

  function NormaliseVanLoad(v: VanLoad): Result<VanLoad>
  {
    if v.quantity <= 0.0 && v.batches == [] then Failure(Invalid)
    else
      var batches := SortByExpiry(v.batches, BatchExpiry);
      var v1 := v.(status := if v.status == Blank then Loaded else v.status, batches := batches);
      var v2 :=
        if batches == [] then v1
        else
          var q := if v.quantity <= 0.0 then SumOf(batches, BatchQuantity) else v.quantity;
          if v.batch == "" then v1.(quantity := q, batch := batches[0].batch, expiry := batches[0].expiry)
          else v1.(quantity := q);
      Success(v2.(quantity := Round2(v2.quantity)))
  }

  function CreateVanLoad(s: State, v: VanLoad): (State, Result<VanLoad>)
  {
    match NormaliseVanLoad(v)
    case Failure(e) => (s, Failure(e))
    case Success(n) =>
      if n.vehicleId == "" then (s, Failure(Invalid))
      else
        var row := n.(id := MintId("VAN", s.loads.counter + 1));
        (s.(loads := Inserted(Minted(s.loads), row.id, row)), Success(row))
  }

  function UpdateVanLoad(s: State, id: string, v: VanLoad): (State, Result<VanLoad>)
  {
    match Get(s.loads, id)
    case None => (s, Failure(NotFound))
    case Some(cur) =>
      match NormaliseVanLoad(v.(id := cur.id))
      case Failure(e) => (s, Failure(e))
      case Success(row) =>
        if row.quantity != cur.quantity && VanSold(s, id) > 0.0 then (s, Failure(Conflict))
        else (s.(loads := Updated(s.loads, row.id, row)), Success(row))
  }

  function DeleteVanLoad(s: State, id: string): (State, Result<()>)
  {
    if VanSold(s, id) > 0.0 then (s, Failure(Conflict))
    else if id !in s.loads.rows then (s, Failure(NotFound))
    else (s.(loads := Deleted(s.loads, id)), Success(()))
  }

  // ---- secondary invoices -------------------------------------------------

  function FirstNamed(rows: seq<Scheme>, name: string): (r: Option<Scheme>)
    ensures r.Some? ==> r.value in rows
  {
    if rows == [] then None
    else if rows[0].name == name then Some(rows[0])
    else FirstNamed(rows[1..], name)
  }

  function FindScheme(s: State, ref: string): Option<Scheme>
  {
    if ref == "" then None
    else if ref in s.schemes.rows then Some(s.schemes.rows[ref])
    else FirstNamed(Listed(s.schemes, SchemeKeys, EVERYTHING), ref)
  }

  predicate SchemeEligible(sch: Scheme, o: Outlet)
  {
    && (sch.segment == "" || sch.segment == o.segment)
    && (sch.volumeTier == "" || sch.volumeTier == o.volumeTier)
  }

  function LineAmount(quantity: real, unitPrice: real): real
  {
    Round2(quantity * unitPrice)
  }

  /** Status, outlet and amount. */
  function PricedInvoice(s: State, d: Invoice, existing: Option<Invoice>): Result<Invoice>
  {
    var d1 := d.(status := if d.status == Blank then Invoiced else d.status);
    if d1.outletId == "" || FindOutlet(s.outlets, d1.outletId).None? then Failure(Invalid)
    else
      var d2 := if d1.quantity > 0.0 && d1.unitPrice > 0.0
                then d1.(amount := LineAmount(d1.quantity, d1.unitPrice)) else d1;
      if d2.amount <= 0.0 then Failure(Invalid)
      else if existing.Some? && IsConfirmedInvoice(existing.value.status)
              && Round2(existing.value.amount) != d2.amount then Failure(Conflict)
      else Success(d2)
  }

  /** Sell only what is on that van. */
  function StockCheck(s: State, d: Invoice, existing: Option<Invoice>): Result<()>
  {
    if d.vanLoadId == "" || d.quantity <= 0.0 then Success(())
    else match VanOnHand(s, d.vanLoadId)
      case Failure(_) => Failure(Invalid)
      case Success(onHand) =>
        var own := if existing.Some? && existing.value.vanLoadId == d.vanLoadId
                      && IsConfirmedInvoice(existing.value.status) then existing.value.quantity else 0.0;
        if d.quantity > onHand + own + 0.009 then Failure(Conflict) else Success(())
  }

  function EffectiveTerms(d: Invoice, o: Outlet): string
  {
    if d.terms != "" then d.terms else if o.terms != "" then o.terms else CASH_ON_DELIVERY
  }

  /** How far the invoice would take the outlet past its limit. */
  function OverLimit(s: State, d: Invoice, o: Outlet, existing: Option<Invoice>): real
  {
    var own := if existing.Some? && IsConfirmedInvoice(existing.value.status)
               then existing.value.outstanding else 0.0;
    Round2(OutletOutstanding(s, o.id) - own + d.amount - o.creditLimit)
  }

  function CreditCheck(s: State, i: InvoiceInput, o: Outlet, existing: Option<Invoice>): Result<Invoice>
  {
    var d := i.doc.(terms := EffectiveTerms(i.doc, o));
    if IsCashTerms(d.terms) || !IsConfirmedInvoice(d.status) then Success(d)
    else if !o.kycApproved then Failure(Conflict)
    else if OverLimit(s, d, o, existing) > 0.009 then
      if !d.creditOverride || d.overrideReason == "" || !i.canOverride then Failure(Conflict)
      else Success(if d.overrideBy == "" then d.(overrideBy := i.actor) else d)
    else Success(d)
  }

  function SchemeCheck(s: State, d: Invoice, o: Outlet): Result<Invoice>
  {
    if d.schemeId == "" then Success(d)
    else match FindScheme(s, d.schemeId)
      case None => Failure(Invalid)
      case Some(sch) =>
        if !SchemeEligible(sch, o) || sch.status != Active then Failure(Conflict)
        else Success(d.(schemeId := sch.id))
  }

  function ValidateInvoice(s: State, i: InvoiceInput, existing: Option<Invoice>): Result<Invoice>
  {
    match PricedInvoice(s, i.doc, existing)
    case Failure(e) => Failure(e)
    case Success(d) =>
      var o := FindOutlet(s.outlets, d.outletId).value;
      match StockCheck(s, d, existing)
      case Failure(e) => Failure(e)
      case Success(_) =>
        match CreditCheck(s, i.(doc := d), o, existing)
        case Failure(e) => Failure(e)
        case Success(d1) => SchemeCheck(s, d1, o)
  }

  function CreateInvoice(s: State, i: InvoiceInput): (State, Result<Invoice>)
  {
    match ValidateInvoice(s, i, None)
    case Failure(e) => (s, Failure(e))
    case Success(d) =>
      var row := NewInvoice(s, d);
      (AddInvoice(s, row), Success(Settled(row, InvoiceOutstanding(s, row))))
  }

  function NewInvoice(s: State, d: Invoice): Invoice
  {
    d.(id := MintId("SINV", s.invoices.counter + 1),
       outstanding := if IsConfirmedInvoice(d.status) then d.amount else 0.0)
  }

  function AddInvoice(s: State, row: Invoice): State
  {
    RefreshInvoice(s.(invoices := Inserted(Minted(s.invoices), row.id, row)), row.id)
  }

  /** Looks at the newest collection only, as the source does. */
  predicate HasCollections(s: State, id: string)
  {
    var newest := Listed(s.collects, CollectionKeys, ByRef(id).(limit := 1));
    newest != [] && newest[0].status != Void
  }

  function UpdateInvoice(s: State, id: string, i: InvoiceInput): (State, Result<Invoice>)
  {
    match Get(s.invoices, id)
    case None => (s, Failure(NotFound))
    case Some(cur) =>
      match ValidateInvoice(s, i, Some(cur))
      case Failure(e) => (s, Failure(e))
      case Success(d) =>
        var row := d.(id := cur.id);
        if row.status == Void && HasCollections(s, id) then (s, Failure(Conflict))
        else (ReplaceInvoice(s, cur, row), Success(Settled(row, InvoiceOutstanding(s, row))))
  }

  /** Store an edited invoice and refresh what hangs on it: its own caches, its
      outlet, and the outlet it left. The scheme it left is not refreshed. */
  function ReplaceInvoice(s: State, cur: Invoice, row: Invoice): State
  {
    var s1 := RefreshInvoice(s.(invoices := Updated(s.invoices, row.id, row)), row.id);
    if cur.outletId != row.outletId then RefreshOutletBalance(s1, cur.outletId) else s1
  }

  function DeleteInvoice(s: State, id: string): (State, Result<()>)
  {
    match Get(s.invoices, id)
    case None => (s, Failure(NotFound))
    case Some(cur) =>
      if IsConfirmedInvoice(cur.status) then (s, Failure(Conflict))
      else (RefreshOutletBalance(s.(invoices := Deleted(s.invoices, id)), cur.outletId), Success(()))
  }

  // ---- collections --------------------------------------------------------

  /** A payment may not exceed what is owed, its own earlier amount set aside. */
  function PaymentWithin(c: Collection, inv: Invoice, existing: Option<Collection>): Result<Collection>
  {
    var own := if existing.Some? && existing.value.status != Void && existing.value.invoiceId == inv.id
               then existing.value.amount else 0.0;
    if c.amount > inv.outstanding + own + 0.009 then Failure(Conflict)
    else Success(c.(remainingOnInvoice := Round2(inv.outstanding + own - c.amount)))
  }

  function ValidateCollection(s: State, c: Collection, existing: Option<Collection>): Result<Collection>
  {
    var c1 := c.(status := if c.status == Blank then Collected else c.status);
    if c1.invoiceId == "" || c1.invoiceId !in s.invoices.rows then Failure(Invalid)
    else
      var inv := s.invoices.rows[c1.invoiceId];
      if !IsConfirmedInvoice(inv.status) then Failure(Conflict)
      else
        var c2 := c1.(outletId := inv.outletId);
        if c2.amount <= 0.0 then Failure(Invalid)
        else if c2.status == Void then Success(c2)
        else PaymentWithin(c2, inv, existing)
  }

  function CreateCollection(s: State, c: Collection): (State, Result<Collection>)
  {
    match ValidateCollection(s, c, None)
    case Failure(e) => (s, Failure(e))
    case Success(d) =>
      var row := d.(id := MintId("COL", s.collects.counter + 1));
      (RefreshInvoice(WithCollection(s, row), row.invoiceId), Success(row))
  }

  function WithCollection(s: State, row: Collection): State
  {
    s.(collects := Inserted(Minted(s.collects), row.id, row))
  }

  /** Blank amount and invoice of an update fall back to the stored ones. */
  function DefaultedCollection(c: Collection, cur: Collection): Collection
  {
    c.(amount := if c.amount <= 0.0 then cur.amount else c.amount,
       invoiceId := if c.invoiceId == "" then cur.invoiceId else c.invoiceId)
  }

  function UpdateCollection(s: State, id: string, c: Collection): (State, Result<Collection>)
  {
    match Get(s.collects, id)
    case None => (s, Failure(NotFound))
    case Some(cur) =>
      if cur.status != Void && c.amount > 0.0 && Round2(c.amount) != Round2(cur.amount) then (s, Failure(Conflict))
      else match ValidateCollection(s, DefaultedCollection(c, cur), Some(cur))
        case Failure(e) => (s, Failure(e))
        case Success(d) =>
          var row := d.(id := cur.id);
          (RefreshBoth(s.(collects := Updated(s.collects, row.id, row)), row.invoiceId, cur.invoiceId), Success(row))
  }

  /** The invoice a collection is on now, and the one it came from. */
  function RefreshBoth(s: State, invoiceId: string, fromId: string): State
  {
    var s1 := RefreshInvoice(s, invoiceId);
    if fromId != invoiceId then RefreshInvoice(s1, fromId) else s1
  }

  function DeleteCollection(s: State, id: string): (State, Result<()>)
  {
    match Get(s.collects, id)
    case None => (s, Failure(NotFound))
    case Some(cur) =>
      if cur.status != Void then (s, Failure(Conflict))
      else (RefreshInvoice(s.(collects := Deleted(s.collects, id)), cur.invoiceId), Success(()))
  }

  // ---- outlet returns -----------------------------------------------------

  function DispositionOf(reason: string): Option<Disposition>
  {
    if reason == "unsold-slow-mover" || reason == "other" then Some(StockReceipt)
    else if reason == "expired" || reason == "damaged-in-transit" || reason == "quality-complaint" then Some(WriteOff)
    else None
  }

  function AtPrice(price: real, quantity: real): real
  {
    price * quantity
  }

  function PriceOf(inv: Invoice): real
    requires inv.quantity > 0.0
  {
    inv.amount / inv.quantity
  }

  /** The credit a returned quantity is worth at the invoice's own price. */
  function ProRata(inv: Invoice, quantity: real): real
    requires inv.quantity > 0.0
  {
    Round2(AtPrice(PriceOf(inv), quantity))
  }

  /** What a return inherits from the invoice it names. */
  function FromInvoice(r: OutletReturn, inv: Invoice): OutletReturn
  {
    r.(outletId := if r.outletId == "" then inv.outletId else r.outletId,
       vanLoadId := if r.vanLoadId == "" then inv.vanLoadId else r.vanLoadId,
       credit := if r.credit <= 0.0 && inv.quantity > 0.0 then ProRata(inv, r.quantity) else r.credit)
  }

  function ValidateReturn(s: State, r: OutletReturn): Result<OutletReturn>
  {
    var r1 := r.(status := if r.status == Blank then Received else r.status);
    match DispositionOf(r1.reason)
    case None => Failure(Invalid)
    case Some(disposition) =>
      if r1.quantity <= 0.0 then Failure(Invalid)
      else if r1.invoiceId != "" && r1.invoiceId !in s.invoices.rows then Failure(Invalid)
      else
        var r2 := r1.(disposition := disposition);
        var r3 := if r2.invoiceId != "" then FromInvoice(r2, s.invoices.rows[r2.invoiceId]) else r2;
        if r3.outletId == "" || FindOutlet(s.outlets, r3.outletId).None? then Failure(Invalid) else Success(r3)
  }

  /** The refresh of a return's invoice; a return need not name one. */
  function RefreshNamed(s: State, invoiceId: string): State
  {
    if invoiceId == "" then s else RefreshInvoice(s, invoiceId)
  }

  function CreateReturn(s: State, r: OutletReturn): (State, Result<OutletReturn>)
  {
    match ValidateReturn(s, r)
    case Failure(e) => (s, Failure(e))
    case Success(d) =>
      var row := d.(id := MintId("RET", s.rets.counter + 1));
      (RefreshNamed(s.(rets := Inserted(Minted(s.rets), row.id, row)), row.invoiceId), Success(row))
  }

  predicate EditsCredited(cur: OutletReturn, r: OutletReturn)
  {
    && cur.status == Credited && r.status != Cancelled
    && (Round2(r.quantity) != Round2(cur.quantity) || (r.credit > 0.0 && Round2(r.credit) != Round2(cur.credit)))
  }

  function UpdateReturn(s: State, id: string, r: OutletReturn): (State, Result<OutletReturn>)
  {
    match Get(s.rets, id)
    case None => (s, Failure(NotFound))
    case Some(cur) =>
      if EditsCredited(cur, r) then (s, Failure(Conflict))
      else match ValidateReturn(s, r)
        case Failure(e) => (s, Failure(e))
        case Success(d) =>
          var row := d.(id := cur.id);
          var s1 := RefreshNamed(s.(rets := Updated(s.rets, row.id, row)), row.invoiceId);
          (RefreshNamed(s1, cur.invoiceId), Success(row))
  }

  function DeleteReturn(s: State, id: string): (State, Result<()>)
  {
    match Get(s.rets, id)
    case None => (s, Failure(NotFound))
    case Some(cur) =>
      if cur.status == Credited then (s, Failure(Conflict))
      else (RefreshNamed(s.(rets := Deleted(s.rets, id)), cur.invoiceId), Success(()))
  }

  // ---- van closes ---------------------------------------------------------

  /** Sales net of what outlets sent back onto the van. */
  function NetSold(s: State, loadId: string): real
  {
    NetOf(VanSold(s, loadId), VanReturned(s, loadId))
  }

  function NetOf(sold: real, back: real): real
  {
    Round2(sold - back)
  }

  /** Loaded and sold come from the ledger, not from the form. */
  function LedgerFigures(s: State, v: VanRecon, load: VanLoad): VanRecon
  {
    v.(loaded := load.quantity,
       sold := NetSold(s, v.vanLoadId),
       vanId := if v.vanId == "" then load.vehicleId else v.vanId)
  }

  predicate Negligible(v: real)
  {
    -0.005 < v < 0.005
  }

  function WithVariances(v: VanRecon): VanRecon
  {
    var stock := Round2(v.loaded - v.sold - v.returned - v.remaining);
    var cash := Round2(v.collectedCash - v.depositedCash);
    v.(stockVariance := stock, cashVariance := cash,
       stockBalanced := Negligible(stock), cashBalanced := Negligible(cash))
  }

  /** Loaded and sold from the ledger when the close names a load. */
  function FilledFromLedger(s: State, v: VanRecon): Result<VanRecon>
  {
    if v.vanLoadId == "" then Success(v)
    else match Get(s.loads, v.vanLoadId)
      case None => Failure(Invalid)
      case Some(load) => Success(LedgerFigures(s, v, load))
  }

  /** A confirmation must be balanced or explained; any other close gets its status from the flags. */
  function Concluded(v: VanRecon): Result<VanRecon>
  {
    if v.status == Confirmed then
      if (!v.stockBalanced && v.stockExplanation == "") || (!v.cashBalanced && v.cashExplanation == "")
      then Failure(Conflict) else Success(v)
    else Success(v.(status := if v.stockBalanced && v.cashBalanced then Balanced else Exception))
  }

  function CloseVanRecon(s: State, v: VanRecon): Result<VanRecon>
  {
    match FilledFromLedger(s, v)
    case Failure(e) => Failure(e)
    case Success(filled) => Concluded(WithVariances(filled))
  }

  function CreateVanRecon(s: State, v: VanRecon): (State, Result<VanRecon>)
  {
    if v.vanLoadId == "" then (s, Failure(Invalid))
    else match CloseVanRecon(s, v)
      case Failure(e) => (s, Failure(e))
      case Success(d) =>
        var row := d.(id := MintId("VRC", s.recons.counter + 1));
        (s.(recons := Inserted(Minted(s.recons), row.id, row)), Success(row))
  }

  function UpdateVanRecon(s: State, id: string, v: VanRecon): (State, Result<VanRecon>)
  {
    match Get(s.recons, id)
    case None => (s, Failure(NotFound))
    case Some(cur) =>
      if cur.status == Confirmed then (s, Failure(Conflict))
      else match CloseVanRecon(s, v.(vanLoadId := if v.vanLoadId == "" then cur.vanLoadId else v.vanLoadId))
        case Failure(e) => (s, Failure(e))
        case Success(d) =>
          var row := d.(id := cur.id);
          (s.(recons := Updated(s.recons, row.id, row)), Success(row))
  }

  function DeleteVanRecon(s: State, id: string): (State, Result<()>)
  {
    match Get(s.recons, id)
    case None => (s, Failure(NotFound))
    case Some(cur) =>
      if cur.status == Confirmed then (s, Failure(Conflict))
      else (s.(recons := Deleted(s.recons, id)), Success(()))
  }

  // ---- schemes ------------------------------------------------------------

  function CreateScheme(s: State, c: Scheme): (State, Result<Scheme>)
  {
    if c.name == "" then (s, Failure(Invalid))
    else
      var row := c.(id := MintId("SCH", s.schemes.counter + 1), redeemedValue := 0.0, redeemedVolume := 0.0,
                    status := if c.status == Blank then Active else c.status);
      (s.(schemes := Inserted(Minted(s.schemes), row.id, row)), Success(row))
  }

  function UpdateScheme(s: State, id: string, c: Scheme): (State, Result<Scheme>)
  {
    match Get(s.schemes, id)
    case None => (s, Failure(NotFound))
    case Some(cur) =>
      var row := c.(id := cur.id, status := if c.status == Blank then cur.status else c.status);
      (RefreshScheme(s.(schemes := Updated(s.schemes, row.id, row)), id), Success(RefreshedScheme(s, row, id)))
  }

  predicate AnyRedeemed(rows: seq<Invoice>, id: string)
  {
    exists i | 0 <= i < |rows| :: rows[i].schemeId == id && IsConfirmedInvoice(rows[i].status)
  }

  function DeleteScheme(s: State, id: string): (State, Result<()>)
  {
    if AnyRedeemed(Listed(s.invoices, InvoiceKeys, EVERYTHING), id) then (s, Failure(Conflict))
    else if id !in s.schemes.rows then (s, Failure(NotFound))
    else (s.(schemes := Deleted(s.schemes, id)), Success(()))
  }

  // ---- runs ---------------------------------------------------------------

  datatype Op =
    | OpCreateLoad(load: VanLoad) | OpUpdateLoad(id: string, load: VanLoad) | OpDeleteLoad(id: string)
    | OpCreateInvoice(input: InvoiceInput)
    | OpUpdateInvoice(id: string, input: InvoiceInput)
    | OpDeleteInvoice(id: string)
    | OpCreateCollection(col: Collection)
    | OpUpdateCollection(id: string, col: Collection)
    | OpDeleteCollection(id: string)
    | OpCreateReturn(ret: OutletReturn) | OpUpdateReturn(id: string, ret: OutletReturn) | OpDeleteReturn(id: string)
    | OpCreateRecon(recon: VanRecon) | OpUpdateRecon(id: string, recon: VanRecon) | OpDeleteRecon(id: string)
    | OpCreateScheme(scheme: Scheme) | OpUpdateScheme(id: string, scheme: Scheme) | OpDeleteScheme(id: string)
    | OpCreateOutlet(outlet: OutletInput) | OpPatchOutlet(id: string, patch: OutletPatch) | OpDeleteOutlet(id: string)

  /** Calls on invoices and what is paid or sent back on them. */
  predicate OnBooks(op: Op)
  {
    || op.OpCreateInvoice? || op.OpUpdateInvoice? || op.OpDeleteInvoice?
    || op.OpCreateCollection? || op.OpUpdateCollection? || op.OpDeleteCollection?
    || op.OpCreateReturn? || op.OpUpdateReturn? || op.OpDeleteReturn?
  }

  function BookStep(s: State, op: Op): State
    requires OnBooks(op)
  {
    match op
    case OpCreateInvoice(i) => CreateInvoice(s, i).0
    case OpUpdateInvoice(id, i) => UpdateInvoice(s, id, i).0
    case OpDeleteInvoice(id) => DeleteInvoice(s, id).0
    case OpCreateCollection(c) => CreateCollection(s, c).0
    case OpUpdateCollection(id, c) => UpdateCollection(s, id, c).0
    case OpDeleteCollection(id) => DeleteCollection(s, id).0
    case OpCreateReturn(r) => CreateReturn(s, r).0
    case OpUpdateReturn(id, r) => UpdateReturn(s, id, r).0
    case OpDeleteReturn(id) => DeleteReturn(s, id).0
  }

  predicate OnVans(op: Op)
  {
    || op.OpCreateLoad? || op.OpUpdateLoad? || op.OpDeleteLoad?
    || op.OpCreateRecon? || op.OpUpdateRecon? || op.OpDeleteRecon?
  }

  /** Calls on van loads and closes, schemes and outlets. */
  function DeskStep(s: State, op: Op): State
    requires !OnBooks(op)
  {
    match op
    case OpCreateLoad(v) => CreateVanLoad(s, v).0
    case OpUpdateLoad(id, v) => UpdateVanLoad(s, id, v).0
    case OpDeleteLoad(id) => DeleteVanLoad(s, id).0
    case OpCreateRecon(v) => CreateVanRecon(s, v).0
    case OpUpdateRecon(id, v) => UpdateVanRecon(s, id, v).0
    case OpDeleteRecon(id) => DeleteVanRecon(s, id).0
    case OpCreateScheme(c) => CreateScheme(s, c).0
    case OpUpdateScheme(id, c) => UpdateScheme(s, id, c).0
    case OpDeleteScheme(id) => DeleteScheme(s, id).0
    case OpCreateOutlet(o) => CreateOutlet(s, o).0
    case OpPatchOutlet(id, p) => PatchOutlet(s, id, p).0
    case OpDeleteOutlet(id) => DeleteOutlet(s, id).0
  }

  /** The state one call leaves; refused calls leave it as it was. */
  function Step(s: State, op: Op): State
  {
    if OnBooks(op) then BookStep(s, op) else DeskStep(s, op)
  }

  function Run(s: State, ops: seq<Op>): State
    decreases |ops|
  {
    if ops == [] then s else Run(Step(s, ops[0]), ops[1..])
  }

  /** The empty store, before anything but the fixture is in it. */
  function Fresh(outlets: seq<Outlet>, distributors: set<string>, beats: set<string>): State
  {
    State(Table(map[], [], 0), Table(map[], [], 0), Table(map[], [], 0), Table(map[], [], 0),
          Table(map[], [], 0), Table(map[], [], 0), outlets, 2849, distributors, beats)
  }
}
