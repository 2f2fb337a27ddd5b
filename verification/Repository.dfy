/** The service's store in memory mode: the tables and the outlet slice live in the
    heap and every public method changes them step by step, as
    internal/store/secondary.go does. Each method is proved to leave exactly the
    state, and return exactly the result, of its specification in Ledger; what the
    other modules prove of Ledger's runs therefore holds of this class. */
module Repositories {
  import opened Coherence
  import opened DocTables
  import opened Fefo
  import Ids
  import opened Ledger
  import opened Money
  import opened TableLemmas
  import opened Tables
  import opened Wrappers

  // ---- the specifications a loop meets ------------------------------------------

  lemma SumNext<T>(rows: seq<T>, i: nat, w: T -> real)
    requires i < |rows|
    ensures SumOf(rows[..i + 1], w) == SumOf(rows[..i], w) + w(rows[i])
  {
    assert rows[..i + 1][..i] == rows[..i];
  }

  lemma {:induction false} PatchAt(outlets: seq<Outlet>, id: string, p: OutletPatch, i: nat)
    requires i < |outlets| && outlets[i].id == id && forall k :: 0 <= k < i ==> outlets[k].id != id
    ensures FindOutlet(outlets, id) == Some(outlets[i])
    ensures PatchFirst(outlets, id, p) == outlets[i := Patched(outlets[i], p)]
  {
    if i > 0 {
      PatchAt(outlets[1..], id, p, i - 1);
    }
  }

  lemma {:induction false} RemoveAt(outlets: seq<Outlet>, id: string, i: nat)
    requires i < |outlets| && outlets[i].id == id && forall k :: 0 <= k < i ==> outlets[k].id != id
    ensures FindOutlet(outlets, id) == Some(outlets[i])
    ensures RemoveFirst(outlets, id) == outlets[..i] + outlets[i + 1..]
  {
    if i > 0 {
      RemoveAt(outlets[1..], id, i - 1);
      assert [outlets[0]] + (outlets[1..][..i - 1] + outlets[1..][i..]) == outlets[..i] + outlets[i + 1..];
    }
  }

  // ---- the accumulating loops -----------------------------------------------------

  method SumConfirmedQuantity(rows: seq<Invoice>) returns (sold: real)
    ensures sold == SumOf(rows, ConfirmedQuantity)
  {
    sold := 0.0;
    for i := 0 to |rows|
      invariant sold == SumOf(rows[..i], ConfirmedQuantity)
    {
      SumNext(rows, i, ConfirmedQuantity);
      if IsConfirmedInvoice(rows[i].status) {
        sold := sold + rows[i].quantity;
      }
    }
    assert rows[..|rows|] == rows;
  }

  method SumConfirmedOutstanding(rows: seq<Invoice>) returns (total: real)
    ensures total == SumOf(rows, ConfirmedOutstanding)
  {
    total := 0.0;
    for i := 0 to |rows|
      invariant total == SumOf(rows[..i], ConfirmedOutstanding)
    {
      SumNext(rows, i, ConfirmedOutstanding);
      if IsConfirmedInvoice(rows[i].status) {
        total := total + rows[i].outstanding;
      }
    }
    assert rows[..|rows|] == rows;
  }

  method SumBackOn(rows: seq<OutletReturn>, loadId: string) returns (back: real)
    ensures back == SumOf(rows, BackOn(loadId))
  {
    back := 0.0;
    for i := 0 to |rows|
      invariant back == SumOf(rows[..i], BackOn(loadId))
    {
      SumNext(rows, i, BackOn(loadId));
      if rows[i].vanLoadId == loadId && rows[i].status != Cancelled {
        back := back + rows[i].quantity;
      }
    }
    assert rows[..|rows|] == rows;
  }

  /** Live collections, then credited returns on top of them. */
  method SumPaid(cols: seq<Collection>, back: seq<OutletReturn>) returns (paid: real)
    ensures paid == SumOf(cols, LiveAmount) + SumOf(back, CreditedAmount)
  {
    paid := 0.0;
    for i := 0 to |cols|
      invariant paid == SumOf(cols[..i], LiveAmount)
    {
      SumNext(cols, i, LiveAmount);
      if cols[i].status != Void {
        paid := paid + cols[i].amount;
      }
    }
    assert cols[..|cols|] == cols;
    for i := 0 to |back|
      invariant paid == SumOf(cols, LiveAmount) + SumOf(back[..i], CreditedAmount)
    {
      SumNext(back, i, CreditedAmount);
      if back[i].status == Credited {
        paid := paid + back[i].credit;
      }
    }
    assert back[..|back|] == back;
  }

  method SumRedeemed(rows: seq<Invoice>, id: string) returns (value: real, volume: real)
    ensures value == SumOf(rows, RedeemedValueOf(id)) && volume == SumOf(rows, RedeemedVolumeOf(id))
  {
    value, volume := 0.0, 0.0;
    for i := 0 to |rows|
      invariant value == SumOf(rows[..i], RedeemedValueOf(id)) && volume == SumOf(rows[..i], RedeemedVolumeOf(id))
    {
      SumNext(rows, i, RedeemedValueOf(id));
      SumNext(rows, i, RedeemedVolumeOf(id));
      if rows[i].schemeId == id && IsConfirmedInvoice(rows[i].status) {
        value, volume := value + rows[i].schemeValue, volume + rows[i].quantity;
      }
    }
    assert rows[..|rows|] == rows;
  }

  /** One pass over the outlet slice. */
  method WithBalance(outlets: seq<Outlet>, outletId: string, total: real) returns (out: seq<Outlet>)
    ensures out == SetBalance(outlets, outletId, total)
  {
    out := outlets;
    for i := 0 to |outlets|
      invariant |out| == |outlets|
      invariant forall k :: 0 <= k < i ==> out[k] == SetBalance(outlets, outletId, total)[k]
      invariant forall k :: i <= k < |outlets| ==> out[k] == outlets[k]
    {
      if out[i].id == outletId {
        out := out[i := out[i].(outstanding := total)];
      }
    }
  }

  /** The scheme with its counts, flipped as they say. */
  method Recounted(was: Scheme, value: real, volume: real) returns (sch: Scheme)
    ensures sch == Redeemed(was, value, volume)
  {
    sch := was.(redeemedValue := value, redeemedVolume := volume);
    var exhausted := UsedUp(sch);
    if exhausted && sch.status == Active {
      sch := sch.(status := Exhausted);
    } else if !exhausted && sch.status == Exhausted {
      sch := sch.(status := Active);
    }
  }

  /** The invoice with its outstanding, flipped to paid when settled and back. */
  method Restated(was: Invoice, owed: real) returns (inv: Invoice)
    ensures inv == Settled(was, owed)
  {
    inv := was.(outstanding := owed);
    if inv.outstanding <= 0.009 && inv.status == Invoiced {
      inv := inv.(status := Paid);
    } else if inv.outstanding > 0.009 && inv.status == Paid {
      inv := inv.(status := Invoiced);
    }
  }

  method SumBatches(batches: seq<LoadBatch>) returns (total: real)
    ensures total == SumOf(batches, BatchQuantity)
  {
    total := 0.0;
    for i := 0 to |batches|
      invariant total == SumOf(batches[..i], BatchQuantity)
    {
      SumNext(batches, i, BatchQuantity);
      total := total + batches[i].quantity;
    }
    assert batches[..|batches|] == batches;
  }

  // ---- the searching loops --------------------------------------------------------

  method SearchOutlet(outlets: seq<Outlet>, id: string) returns (o: Option<Outlet>)
    ensures o == FindOutlet(outlets, id)
  {
    for i := 0 to |outlets|
      invariant FindOutlet(outlets, id) == FindOutlet(outlets[i..], id)
    {
      if outlets[i].id == id {
        return Some(outlets[i]);
      }
      assert outlets[i..][1..] == outlets[i + 1..];
    }
    o := None;
  }

  /** The first outlet of that id, or one past the end. */
  method PositionOfOutlet(outlets: seq<Outlet>, id: string) returns (at: nat)
    ensures at <= |outlets| && (at < |outlets| ==> outlets[at].id == id)
    ensures forall k :: 0 <= k < at ==> outlets[k].id != id
    ensures at == |outlets| <==> FindOutlet(outlets, id).None?
  {
    at := 0;
    while at < |outlets| && outlets[at].id != id
      invariant at <= |outlets| && forall k :: 0 <= k < at ==> outlets[k].id != id
    {
      at := at + 1;
    }
    assert at < |outlets| ==> outlets[at] in outlets;
  }

  method SearchName(rows: seq<Scheme>, name: string) returns (sch: Option<Scheme>)
    ensures sch == FirstNamed(rows, name)
  {
    for i := 0 to |rows|
      invariant FirstNamed(rows, name) == FirstNamed(rows[i..], name)
    {
      if rows[i].name == name {
        return Some(rows[i]);
      }
      assert rows[i..][1..] == rows[i + 1..];
    }
    sch := None;
  }

  method AnyLive(cols: seq<Collection>) returns (live: bool)
    ensures live <==> exists k :: 0 <= k < |cols| && cols[k].status != Void
  {
    for i := 0 to |cols|
      invariant forall k :: 0 <= k < i ==> cols[k].status == Void
    {
      if cols[i].status != Void {
        return true;
      }
    }
    live := false;
  }

  method SearchRedeemed(rows: seq<Invoice>, id: string) returns (found: bool)
    ensures found == AnyRedeemed(rows, id)
  {
    for i := 0 to |rows|
      invariant forall k :: 0 <= k < i ==> !(rows[k].schemeId == id && IsConfirmedInvoice(rows[k].status))
    {
      if rows[i].schemeId == id && IsConfirmedInvoice(rows[i].status) {
        return true;
      }
    }
    found := false;
  }

  // ---- sorting ----------------------------------------------------------------------

  method SortBatches(batches: seq<LoadBatch>) returns (sorted: seq<LoadBatch>)
    ensures sorted == SortByExpiry(batches, BatchExpiry)
  {
    var a := new LoadBatch[|batches|](i requires 0 <= i < |batches| => batches[i]);
    assert a[..] == batches;
    SortInPlace(a, BatchExpiry);
    sorted := a[..];
  }

  lemma CreatedCollection(s: State, c: Collection, d: Collection, row: Collection)
    requires Ledger.ValidateCollection(s, c, None) == Success(d)
    requires row == d.(id := Ids.MintId("COL", s.collects.counter + 1))
    ensures CreateCollection(s, c) == (RefreshInvoice(WithCollection(s, row), row.invoiceId), Success(row))
  {
  }

  lemma RefusedRecon(s: State, v: VanRecon, e: Error)
    requires v.vanLoadId != "" && CloseVanRecon(s, v) == Failure(e)
    ensures CreateVanRecon(s, v) == (s, Failure(e))
  {
  }

  lemma CreatedRecon(s: State, v: VanRecon, d: VanRecon, row: VanRecon)
    requires v.vanLoadId != "" && CloseVanRecon(s, v) == Success(d)
    requires row == d.(id := Ids.MintId("VRC", s.recons.counter + 1))
    ensures CreateVanRecon(s, v) == (s.(recons := Inserted(Minted(s.recons), row.id, row)), Success(row))
  {
  }

  /** Empty tables over the fixture are the fresh store. */
  lemma AllEmpty(s: State)
    requires s.loads == Table(map[], [], 0) && s.invoices == Table(map[], [], 0) && s.collects == Table(map[], [], 0)
    requires s.rets == Table(map[], [], 0) && s.recons == Table(map[], [], 0) && s.schemes == Table(map[], [], 0)
    requires s.nextOutlet == 2849
    ensures s == Fresh(s.outlets, s.distributors, s.beats)
  {
  }

  function LoadToStore(v: VanLoad): Result<VanLoad>
  {
    match NormaliseVanLoad(v)
    case Failure(e) => Failure(e)
    case Success(n) => if n.vehicleId == "" then Failure(Invalid) else Success(n)
  }

  /** A create in terms of what the checks leave. */
  lemma CreatedLoad(s: State, v: VanLoad, r: Result<VanLoad>)
    requires r == LoadToStore(v)
    ensures r.Failure? ==> CreateVanLoad(s, v) == (s, r)
    ensures r.Success? ==>
      var row := r.value.(id := Ids.MintId("VAN", s.loads.counter + 1));
      CreateVanLoad(s, v) == (s.(loads := Inserted(Minted(s.loads), row.id, row)), Success(row))
  {
  }

  lemma UpdatedLoad(s: State, id: string, v: VanLoad, row: VanLoad)
    requires id in s.loads.rows && NormaliseVanLoad(v.(id := s.loads.rows[id].id)) == Success(row)
    requires row.quantity == s.loads.rows[id].quantity || VanSold(s, id) <= 0.0
    ensures UpdateVanLoad(s, id, v) == (s.(loads := Updated(s.loads, row.id, row)), Success(row))
  {
  }

  ghost predicate Wired<T>(t: DocTable<T>, idOf: T -> string, keysOf: T -> Keys, prefix: string)
    reads t
  {
    t.Valid() && t.idOf == idOf && t.keysOf == keysOf && t.prefix == prefix
  }

  class Repository {
    const loads: DocTable<VanLoad>
    const invoices: DocTable<Invoice>
    const collects: DocTable<Collection>
    const rets: DocTable<OutletReturn>
    const recons: DocTable<VanRecon>
    const schemes: DocTable<Scheme>

    var outlets: seq<Outlet>
    var nextOutlet: nat
    const distributors: set<string>
    const beats: set<string>

    ghost function View(): State
      reads this, loads, invoices, collects, rets, recons, schemes
    {
      State(loads.View(), invoices.View(), collects.View(), rets.View(), recons.View(), schemes.View(),
            outlets, nextOutlet, distributors, beats)
    }

    ghost predicate Valid()
      reads this, loads, invoices, collects, rets, recons, schemes
    {
      && Wired(loads, LoadId, LoadKeys, "VAN") && Wired(invoices, InvoiceId, InvoiceKeys, "SINV")
      && Wired(collects, CollectionId, CollectionKeys, "COL") && Wired(rets, ReturnId, ReturnKeys, "RET")
      && Wired(recons, ReconId, ReconKeys, "VRC") && Wired(schemes, SchemeId, SchemeKeys, "SCH")
    }

    constructor (outlets: seq<Outlet>, distributors: set<string>, beats: set<string>)
      ensures Valid() && View() == Fresh(outlets, distributors, beats)
      ensures fresh(loads) && fresh(invoices) && fresh(collects) && fresh(rets) && fresh(recons) && fresh(schemes)
    {
      this.outlets, nextOutlet := outlets, 2849;
      this.distributors, this.beats := distributors, beats;
      loads := new DocTable(LoadId, LoadKeys, "VAN");
      invoices := new DocTable(InvoiceId, InvoiceKeys, "SINV");
      collects := new DocTable(CollectionId, CollectionKeys, "COL");
      rets := new DocTable(ReturnId, ReturnKeys, "RET");
      recons := new DocTable(ReconId, ReconKeys, "VRC");
      schemes := new DocTable(SchemeId, SchemeKeys, "SCH");
      new;
      AllEmpty(View());
    }

    // ---- van stock ----------------------------------------------------------------

    method VanSold(loadId: string) returns (sold: real)
      requires Valid()
      ensures sold == Ledger.VanSold(View(), loadId)
    {
      var rows, _ := invoices.List(ByRef(loadId));
      sold := SumConfirmedQuantity(rows);
      sold := Round2(sold);
    }

    method VanReturned(loadId: string) returns (back: real)
      requires Valid()
      ensures back == Ledger.VanReturned(View(), loadId)
    {
      var rows, _ := rets.List(EVERYTHING);
      back := SumBackOn(rows, loadId);
      back := Round2(back);
    }

    method VanOnHand(loadId: string) returns (r: Result<real>)
      requires Valid()
      ensures r == Ledger.VanOnHand(View(), loadId)
    {
      var load := loads.Get(loadId);
      if load.None? {
        return Failure(NotFound);
      }
      var sold := VanSold(loadId);
      var back := VanReturned(loadId);
      r := Success(OnHand(load.value.quantity, sold, back));
    }

    // ---- the caches -----------------------------------------------------------------

    method OutletOutstanding(outletId: string) returns (total: real)
      requires Valid()
      ensures total == Ledger.OutletOutstanding(View(), outletId)
    {
      var rows, _ := invoices.List(ByOutlet(outletId));
      total := SumConfirmedOutstanding(rows);
      total := Round2(total);
    }

    method PaidOn(invoiceId: string) returns (paid: real)
      requires Valid()
      ensures paid == Ledger.PaidOn(View(), invoiceId)
    {
      var cols, _ := collects.List(ByRef(invoiceId));
      var back, _ := rets.List(ByRef(invoiceId));
      paid := SumPaid(cols, back);
    }

    method InvoiceOutstanding(inv: Invoice) returns (owed: real)
      requires Valid()
      ensures owed == Ledger.InvoiceOutstanding(View(), inv)
    {
      if !IsConfirmedInvoice(inv.status) {
        return 0.0;
      }
      var paid := PaidOn(inv.id);
      owed := Unpaid(inv.amount, paid);
    }

    method RefreshOutletBalance(outletId: string)
      requires Valid()
      modifies this`outlets
      ensures Valid() && View() == Ledger.RefreshOutletBalance(old(View()), outletId)
    {
      if outletId == "" {
        return;
      }
      var total := OutletOutstanding(outletId);
      outlets := WithBalance(outlets, outletId, total);
    }

    method CountRedeemed(id: string) returns (value: real, volume: real)
      requires Valid()
      ensures value == RedeemedValue(View(), id) && volume == RedeemedVolume(View(), id)
    {
      var rows, _ := invoices.List(EVERYTHING);
      value, volume := SumRedeemed(rows, id);
      value, volume := Round2(value), Round2(volume);
    }

    method RefreshScheme(id: string)
      requires Valid()
      modifies schemes
      ensures Valid() && View() == Ledger.RefreshScheme(old(View()), id)
    {
      var got := schemes.Get(id);
      if got.None? {
        return;
      }
      assert SchemeId(got.value) == id;
      var value, volume := CountRedeemed(id);
      var sch := Recounted(got.value, value, volume);
      UpdateStoredScheme(sch);
    }

    method UpdateStoredScheme(sch: Scheme)
      requires Valid() && sch.id in schemes.rows
      modifies schemes
      ensures Valid() && View() == old(View()).(schemes := Updated(old(View()).schemes, sch.id, sch))
    {
      var _ := schemes.Update(sch);
    }

    /** Recomputes the outstanding, flips paid and invoiced, and pushes the outlet's
        balance and the scheme's redemption along. */
    method RefreshInvoice(id: string) returns (r: Result<Invoice>)
      requires Valid()
      modifies this`outlets, invoices, schemes
      ensures Valid() && View() == Ledger.RefreshInvoice(old(View()), id)
      ensures r == match Tables.Get(old(View()).invoices, id)
                   case None => Failure(NotFound)
                   case Some(inv) => Success(Settled(inv, Ledger.InvoiceOutstanding(old(View()), inv)))
    {
      var got := invoices.Get(id);
      if got.None? {
        return Failure(NotFound);
      }
      assert InvoiceId(got.value) == id;
      var owed := InvoiceOutstanding(got.value);
      var inv := Restated(got.value, owed);
      var _ := invoices.Update(inv);
      RefreshOutletBalance(inv.outletId);
      if inv.schemeId != "" {
        RefreshScheme(inv.schemeId);
      }
      r := Success(inv);
    }

    /** A refresh whose row the caller does not need. */
    method Refresh(id: string)
      requires Valid()
      modifies this`outlets, invoices, schemes
      ensures Valid() && View() == Ledger.RefreshInvoice(old(View()), id)
    {
      var _ := RefreshInvoice(id);
    }

    // ---- outlets ----------------------------------------------------------------------

    method CreateOutlet(o: OutletInput) returns (r: Result<Outlet>)
      requires Valid()
      modifies this`outlets, this`nextOutlet
      ensures Valid() && (View(), r) == Ledger.CreateOutlet(old(View()), o)
    {
      if o.distributorId !in distributors {
        return Failure(Invalid);
      }
      if o.beatId != "" && o.beatId !in beats {
        return Failure(Invalid);
      }
      nextOutlet := nextOutlet + 1;
      var row := OutletFromInput(Ids.MintId("OUT", nextOutlet), o);
      outlets := outlets + [row];
      r := Success(row);
    }

    method PatchOutlet(id: string, p: OutletPatch) returns (r: Result<Outlet>)
      requires Valid()
      modifies this`outlets
      ensures Valid() && (View(), r) == Ledger.PatchOutlet(old(View()), id, p)
    {
      if p.beatId.Some? && p.beatId.value != "" && p.beatId.value !in beats {
        return Failure(Invalid);
      }
      var at := PositionOfOutlet(outlets, id);
      if at == |outlets| {
        return Failure(NotFound);
      }
      PatchAt(outlets, id, p, at);
      outlets := outlets[at := Patched(outlets[at], p)];
      r := Success(outlets[at]);
    }

    method DeleteOutlet(id: string) returns (r: Result<()>)
      requires Valid()
      modifies this`outlets
      ensures Valid() && (View(), r) == Ledger.DeleteOutlet(old(View()), id)
    {
      var at := PositionOfOutlet(outlets, id);
      if at == |outlets| {
        return Failure(NotFound);
      }
      RemoveAt(outlets, id, at);
      outlets := outlets[..at] + outlets[at + 1..];
      r := Success(());
    }

    // ---- van loads --------------------------------------------------------------------

    /** Sorts the batches, then fills in what the caller left blank. */
    static method NormaliseVanLoad(in_: VanLoad) returns (r: Result<VanLoad>)
      ensures r == Ledger.NormaliseVanLoad(in_)
    {
      var v := in_;
      if v.status == Blank {
        v := v.(status := Loaded);
      }
      if v.quantity <= 0.0 && |v.batches| == 0 {
        return Failure(Invalid);
      }
      var batches := SortBatches(v.batches);
      v := v.(batches := batches);
      if |batches| > 0 {
        var total := SumBatches(batches);
        if v.quantity <= 0.0 {
          v := v.(quantity := total);
        }
        if v.batch == "" {
          v := v.(batch := batches[0].batch, expiry := batches[0].expiry);
        }
      }
      r := Success(v.(quantity := Round2(v.quantity)));
    }

    method StoreLoad(d: VanLoad) returns (row: VanLoad)
      requires Valid()
      modifies loads
      ensures Valid() && row == d.(id := Ids.MintId("VAN", old(View()).loads.counter + 1))
      ensures View() == old(View()).(loads := Inserted(Minted(old(View()).loads), row.id, row))
    {
      var id := loads.NextId();
      row := d.(id := id);
      loads.Insert(row);
    }

    method CreateVanLoad(v: VanLoad) returns (r: Result<VanLoad>)
      requires Valid()
      modifies loads
      ensures Valid() && (View(), r) == Ledger.CreateVanLoad(old(View()), v)
    {
      r := CheckLoad(v);
      CreatedLoad(View(), v, r);
      if r.Success? {
        var row := StoreLoad(r.value);
        r := Success(row);
      }
    }

    static method CheckLoad(v: VanLoad) returns (r: Result<VanLoad>)
      ensures r == LoadToStore(v)
    {
      r := NormaliseVanLoad(v);
      if r.Success? {
        if r.value.vehicleId == "" {
          r := Failure(Invalid);
        }
      }
    }

    method UpdateVanLoad(id: string, v: VanLoad) returns (r: Result<VanLoad>)
      requires Valid()
      modifies loads
      ensures Valid() && (View(), r) == Ledger.UpdateVanLoad(old(View()), id, v)
    {
      var cur := loads.Get(id);
      if cur.None? {
        return Failure(NotFound);
      }
      r := NormaliseVanLoad(v.(id := cur.value.id));
      if r.Success? {
        r := StoreEditedLoad(id, v, cur.value, r.value);
      }
    }

    /** Quantity on a load that already has invoices against it is history. */
    method StoreEditedLoad(id: string, v: VanLoad, cur: VanLoad, row: VanLoad) returns (r: Result<VanLoad>)
      requires Valid() && id in loads.rows && cur == loads.rows[id]
      requires Ledger.NormaliseVanLoad(v.(id := cur.id)) == Success(row)
      modifies loads
      ensures Valid() && (View(), r) == Ledger.UpdateVanLoad(old(View()), id, v)
    {
      assert LoadId(cur) == id;
      if row.quantity != cur.quantity {
        var sold := VanSold(id);
        if sold > 0.0 {
          return Failure(Conflict);
        }
      }
      UpdatedLoad(View(), id, v, row);
      ReplaceLoad(row);
      r := Success(row);
    }

    method ReplaceLoad(row: VanLoad)
      requires Valid() && row.id in loads.rows
      modifies loads
      ensures Valid() && View() == old(View()).(loads := Updated(old(View()).loads, row.id, row))
    {
      var _ := loads.Update(row);
    }

    method DeleteVanLoad(id: string) returns (r: Result<()>)
      requires Valid()
      modifies loads
      ensures Valid() && (View(), r) == Ledger.DeleteVanLoad(old(View()), id)
    {
      var sold := VanSold(id);
      if sold > 0.0 {
        return Failure(Conflict);
      }
      var found := loads.Delete(id);
      r := if found then Success(()) else Failure(NotFound);
    }

    // ---- secondary invoices -------------------------------------------------------------

    method FindScheme(ref: string) returns (sch: Option<Scheme>)
      requires Valid()
      ensures sch == Ledger.FindScheme(View(), ref)
    {
      if ref == "" {
        return None;
      }
      sch := schemes.Get(ref);
      if sch.None? {
        var rows, _ := schemes.List(EVERYTHING);
        sch := SearchName(rows, ref);
      }
    }

    method CheckPrice(doc: Invoice, existing: Option<Invoice>) returns (r: Result<Invoice>)
      requires Valid()
      ensures r == PricedInvoice(View(), doc, existing)
    {
      var d := doc;
      if d.status == Blank {
        d := d.(status := Invoiced);
      }
      if d.outletId == "" {
        return Failure(Invalid);
      }
      var o := SearchOutlet(outlets, d.outletId);
      if o.None? {
        return Failure(Invalid);
      }
      if d.quantity > 0.0 && d.unitPrice > 0.0 {
        d := d.(amount := LineAmount(d.quantity, d.unitPrice));
      }
      if d.amount <= 0.0 {
        return Failure(Invalid);
      }
      if existing.Some? && IsConfirmedInvoice(existing.value.status) && Round2(existing.value.amount) != d.amount {
        return Failure(Conflict);
      }
      r := Success(d);
    }

    method CheckStock(d: Invoice, existing: Option<Invoice>) returns (r: Result<()>)
      requires Valid()
      ensures r == StockCheck(View(), d, existing)
    {
      if d.vanLoadId != "" && d.quantity > 0.0 {
        var onVan := VanOnHand(d.vanLoadId);
        if onVan.Failure? {
          return Failure(Invalid);
        }
        var available := onVan.value;
        if existing.Some? && existing.value.vanLoadId == d.vanLoadId && IsConfirmedInvoice(existing.value.status) {
          available := available + existing.value.quantity;
        }
        if d.quantity > available + 0.009 {
          return Failure(Conflict);
        }
      }
      r := Success(());
    }

    method CheckCredit(i: InvoiceInput, o: Outlet, existing: Option<Invoice>) returns (r: Result<Invoice>)
      requires Valid()
      ensures r == CreditCheck(View(), i, o, existing)
    {
      var d := i.doc.(terms := EffectiveTerms(i.doc, o));
      if !IsCashTerms(d.terms) && IsConfirmedInvoice(d.status) {
        if !o.kycApproved {
          return Failure(Conflict);
        }
        var current := OutletOutstanding(o.id);
        if existing.Some? && IsConfirmedInvoice(existing.value.status) {
          current := current - existing.value.outstanding;
        }
        var over := Round2(current + d.amount - o.creditLimit);
        assert over == OverLimit(View(), d, o, existing);
        if over > 0.009 {
          if !d.creditOverride || d.overrideReason == "" || !i.canOverride {
            return Failure(Conflict);
          }
          if d.overrideBy == "" {
            d := d.(overrideBy := i.actor);
          }
        }
      }
      r := Success(d);
    }

    method CheckScheme(d: Invoice, o: Outlet) returns (r: Result<Invoice>)
      requires Valid()
      ensures r == SchemeCheck(View(), d, o)
    {
      if d.schemeId == "" {
        return Success(d);
      }
      var sch := FindScheme(d.schemeId);
      if sch.None? {
        return Failure(Invalid);
      }
      if !SchemeEligible(sch.value, o) || sch.value.status != Active {
        return Failure(Conflict);
      }
      r := Success(d.(schemeId := sch.value.id));
    }

    /** Fills the input in and refuses it, in the order the source checks. */
    method ValidateInvoice(i: InvoiceInput, existing: Option<Invoice>) returns (r: Result<Invoice>)
      requires Valid()
      ensures r == Ledger.ValidateInvoice(View(), i, existing)
    {
      r := CheckPrice(i.doc, existing);
      if r.Failure? {
        return;
      }
      var d := r.value;
      var o := SearchOutlet(outlets, d.outletId);
      var stock := CheckStock(d, existing);
      if stock.Failure? {
        return Failure(stock.error);
      }
      r := CheckCredit(i.(doc := d), o.value, existing);
      if r.Success? {
        r := CheckScheme(r.value, o.value);
      }
    }

    method CreateInvoice(i: InvoiceInput) returns (r: Result<Invoice>)
      requires Valid()
      modifies this`outlets, invoices, schemes
      ensures Valid() && (View(), r) == Ledger.CreateInvoice(old(View()), i)
    {
      r := ValidateInvoice(i, None);
      if r.Failure? {
        return;
      }
      r := StoreInvoice(r.value);
    }

    /** Mints the id, inserts, refreshes. */
    method StoreInvoice(d: Invoice) returns (r: Result<Invoice>)
      requires Valid()
      modifies this`outlets, invoices, schemes
      ensures var row := NewInvoice(old(View()), d);
        && Valid() && View() == AddInvoice(old(View()), row)
        && r == Success(Settled(row, Ledger.InvoiceOutstanding(old(View()), row)))
    {
      var row := InsertInvoice(d);
      SameListsSameOutstanding(old(View()), View(), row);
      r := RefreshInvoice(row.id);
    }

    method NextInvoiceId() returns (id: string)
      requires Valid()
      modifies invoices
      ensures Valid() && id == Ids.MintId("SINV", old(View()).invoices.counter + 1) && invoices.Insertable(id)
      ensures View() == old(View()).(invoices := Minted(old(View()).invoices))
    {
      id := invoices.NextId();
    }

    method PutInvoice(row: Invoice)
      requires Valid() && invoices.Insertable(row.id)
      modifies invoices
      ensures Valid() && View() == old(View()).(invoices := Inserted(old(View()).invoices, row.id, row))
    {
      invoices.Insert(row);
    }

    static method Opened(d: Invoice, id: string) returns (row: Invoice)
      ensures row == d.(id := id, outstanding := if IsConfirmedInvoice(d.status) then d.amount else 0.0)
    {
      row := d.(id := id, outstanding := 0.0);
      if IsConfirmedInvoice(row.status) {
        row := row.(outstanding := row.amount);
      }
    }

    method InsertInvoice(d: Invoice) returns (row: Invoice)
      requires Valid()
      modifies invoices
      ensures Valid() && row == NewInvoice(old(View()), d)
      ensures View() == old(View()).(invoices := Inserted(Minted(old(View()).invoices), row.id, row))
    {
      var id := NextInvoiceId();
      row := Opened(d, id);
      PutInvoice(row);
    }

    method HasCollections(id: string) returns (has: bool)
      requires Valid()
      ensures has == Ledger.HasCollections(View(), id)
    {
      var cols, _ := collects.List(ByRef(id).(limit := 1));
      has := AnyLive(cols);
    }

    method UpdateInvoice(id: string, i: InvoiceInput) returns (r: Result<Invoice>)
      requires Valid()
      modifies this`outlets, invoices, schemes
      ensures Valid() && (View(), r) == Ledger.UpdateInvoice(old(View()), id, i)
    {
      var cur := invoices.Get(id);
      if cur.None? {
        return Failure(NotFound);
      }
      assert InvoiceId(cur.value) == id;
      r := ValidateInvoice(i, cur);
      if r.Failure? {
        return;
      }
      var inv := r.value.(id := cur.value.id);
      if inv.status == Void {
        var has := HasCollections(id);
        if has {
          return Failure(Conflict);
        }
      }
      r := StoreEdited(cur.value, inv);
    }

    /** Stores an edited row, refreshes it, and refreshes the outlet it left. */
    method StoreEdited(cur: Invoice, inv: Invoice) returns (r: Result<Invoice>)
      requires Valid() && inv.id in invoices.rows
      modifies this`outlets, invoices, schemes
      ensures Valid() && View() == ReplaceInvoice(old(View()), cur, inv)
      ensures r == Success(Settled(inv, Ledger.InvoiceOutstanding(old(View()), inv)))
    {
      UpdateStored(inv);
      SameListsSameOutstanding(old(View()), View(), inv);
      r := RefreshInvoice(inv.id);
      if cur.outletId != inv.outletId {
        RefreshOutletBalance(cur.outletId);
      }
    }

    method UpdateStored(inv: Invoice)
      requires Valid() && inv.id in invoices.rows
      modifies invoices
      ensures Valid() && View() == old(View()).(invoices := Updated(old(View()).invoices, inv.id, inv))
    {
      var _ := invoices.Update(inv);
    }

    method DeleteInvoice(id: string) returns (r: Result<()>)
      requires Valid()
      modifies this`outlets, invoices
      ensures Valid() && (View(), r) == Ledger.DeleteInvoice(old(View()), id)
    {
      var cur := invoices.Get(id);
      if cur.None? {
        return Failure(NotFound);
      }
      if IsConfirmedInvoice(cur.value.status) {
        return Failure(Conflict);
      }
      var _ := invoices.Delete(id);
      RefreshOutletBalance(cur.value.outletId);
      r := Success(());
    }

    // ---- collections ----------------------------------------------------------------------

    /** A payment may not exceed what is owed, its own earlier amount set aside. */
    method CheckPayment(c: Collection, inv: Invoice, existing: Option<Collection>) returns (r: Result<Collection>)
      ensures r == PaymentWithin(c, inv, existing)
    {
      var remaining := inv.outstanding;
      if existing.Some? && existing.value.status != Void && existing.value.invoiceId == inv.id {
        remaining := remaining + existing.value.amount;
      }
      if c.amount > remaining + 0.009 {
        return Failure(Conflict);
      }
      r := Success(c.(remainingOnInvoice := Round2(remaining - c.amount)));
    }

    method ValidateCollection(in_: Collection, existing: Option<Collection>) returns (r: Result<Collection>)
      requires Valid()
      ensures r == Ledger.ValidateCollection(View(), in_, existing)
    {
      var c := in_;
      if c.status == Blank {
        c := c.(status := Collected);
      }
      if c.invoiceId == "" {
        return Failure(Invalid);
      }
      var inv := invoices.Get(c.invoiceId);
      if inv.None? {
        return Failure(Invalid);
      }
      if !IsConfirmedInvoice(inv.value.status) {
        return Failure(Conflict);
      }
      c := c.(outletId := inv.value.outletId);
      if c.amount <= 0.0 {
        return Failure(Invalid);
      }
      if c.status == Void {
        return Success(c);
      }
      r := CheckPayment(c, inv.value, existing);
    }

    method StoreCollection(d: Collection) returns (row: Collection)
      requires Valid()
      modifies collects
      ensures Valid() && row == d.(id := Ids.MintId("COL", old(View()).collects.counter + 1))
      ensures View() == WithCollection(old(View()), row)
    {
      var id := collects.NextId();
      row := d.(id := id);
      collects.Insert(row);
    }

    method CreateCollection(c: Collection) returns (r: Result<Collection>)
      requires Valid()
      modifies this`outlets, invoices, collects, schemes
      ensures Valid() && (View(), r) == Ledger.CreateCollection(old(View()), c)
    {
      r := ValidateCollection(c, None);
      if r.Failure? {
        return;
      }
      var row := StoreCollection(r.value);
      CreatedCollection(old(View()), c, r.value, row);
      Refresh(row.invoiceId);
      r := Success(row);
    }

    method UpdateCollection(id: string, in_: Collection) returns (r: Result<Collection>)
      requires Valid()
      modifies this`outlets, invoices, collects, schemes
      ensures Valid() && (View(), r) == Ledger.UpdateCollection(old(View()), id, in_)
    {
      var got := collects.Get(id);
      if got.None? {
        return Failure(NotFound);
      }
      var cur := got.value;
      assert CollectionId(cur) == id;
      if cur.status != Void && in_.amount > 0.0 && Round2(in_.amount) != Round2(cur.amount) {
        return Failure(Conflict);
      }
      var c := in_;
      if c.amount <= 0.0 {
        c := c.(amount := cur.amount);
      }
      if c.invoiceId == "" {
        c := c.(invoiceId := cur.invoiceId);
      }
      assert c == DefaultedCollection(in_, cur);
      r := ValidateCollection(c, got);
      if r.Failure? {
        return;
      }
      var row := r.value.(id := cur.id);
      UpdateStoredCollection(row);
      RefreshMoved(row.invoiceId, cur.invoiceId);
      r := Success(row);
    }

    method UpdateStoredCollection(row: Collection)
      requires Valid() && row.id in collects.rows
      modifies collects
      ensures Valid() && View() == old(View()).(collects := Updated(old(View()).collects, row.id, row))
    {
      var _ := collects.Update(row);
    }

    /** The invoice a collection is on now, then the one it came from. */
    method RefreshMoved(invoiceId: string, fromId: string)
      requires Valid()
      modifies this`outlets, invoices, schemes
      ensures Valid() && View() == RefreshBoth(old(View()), invoiceId, fromId)
    {
      Refresh(invoiceId);
      if fromId != invoiceId {
        Refresh(fromId);
      }
    }

    method DeleteCollection(id: string) returns (r: Result<()>)
      requires Valid()
      modifies this`outlets, invoices, collects, schemes
      ensures Valid() && (View(), r) == Ledger.DeleteCollection(old(View()), id)
    {
      var cur := collects.Get(id);
      if cur.None? {
        return Failure(NotFound);
      }
      if cur.value.status != Void {
        return Failure(Conflict);
      }
      var _ := collects.Delete(id);
      Refresh(cur.value.invoiceId);
      r := Success(());
    }

    // ---- outlet returns ---------------------------------------------------------------------

    static method Inherit(in_: OutletReturn, inv: Invoice) returns (ret: OutletReturn)
      ensures ret == FromInvoice(in_, inv)
    {
      ret := in_;
      if ret.outletId == "" {
        ret := ret.(outletId := inv.outletId);
      }
      if ret.vanLoadId == "" {
        ret := ret.(vanLoadId := inv.vanLoadId);
      }
      if ret.credit <= 0.0 && inv.quantity > 0.0 {
        ret := ret.(credit := ProRata(inv, ret.quantity));
      }
    }

    method ValidateReturn(in_: OutletReturn) returns (r: Result<OutletReturn>)
      requires Valid()
      ensures r == Ledger.ValidateReturn(View(), in_)
    {
      var ret := in_;
      if ret.status == Blank {
        ret := ret.(status := Received);
      }
      var disposition := DispositionOf(ret.reason);
      if disposition.None? {
        return Failure(Invalid);
      }
      if ret.quantity <= 0.0 {
        return Failure(Invalid);
      }
      ret := ret.(disposition := disposition.value);
      if ret.invoiceId != "" {
        var inv := invoices.Get(ret.invoiceId);
        if inv.None? {
          return Failure(Invalid);
        }
        ret := Inherit(ret, inv.value);
      }
      if ret.outletId == "" {
        return Failure(Invalid);
      }
      var o := SearchOutlet(outlets, ret.outletId);
      r := if o.None? then Failure(Invalid) else Success(ret);
    }

    method RefreshIfNamed(invoiceId: string)
      requires Valid()
      modifies this`outlets, invoices, schemes
      ensures Valid() && View() == RefreshNamed(old(View()), invoiceId)
    {
      if invoiceId != "" {
        Refresh(invoiceId);
      }
    }

    method StoreReturn(d: OutletReturn) returns (row: OutletReturn)
      requires Valid()
      modifies rets
      ensures Valid() && row == d.(id := Ids.MintId("RET", old(View()).rets.counter + 1))
      ensures View() == old(View()).(rets := Inserted(Minted(old(View()).rets), row.id, row))
    {
      var id := rets.NextId();
      row := d.(id := id);
      rets.Insert(row);
    }

    method CreateReturn(in_: OutletReturn) returns (r: Result<OutletReturn>)
      requires Valid()
      modifies this`outlets, invoices, rets, schemes
      ensures Valid() && (View(), r) == Ledger.CreateReturn(old(View()), in_)
    {
      r := ValidateReturn(in_);
      if r.Success? {
        r := StoreValidReturn(in_, r.value);
      }
    }

    method StoreValidReturn(in_: OutletReturn, d: OutletReturn) returns (r: Result<OutletReturn>)
      requires Valid() && Ledger.ValidateReturn(View(), in_) == Success(d)
      modifies this`outlets, invoices, rets, schemes
      ensures Valid() && (View(), r) == Ledger.CreateReturn(old(View()), in_)
    {
      var row := StoreReturn(d);
      RefreshIfNamed(row.invoiceId);
      r := Success(row);
    }

    method UpdateReturn(id: string, in_: OutletReturn) returns (r: Result<OutletReturn>)
      requires Valid()
      modifies this`outlets, invoices, rets, schemes
      ensures Valid() && (View(), r) == Ledger.UpdateReturn(old(View()), id, in_)
    {
      var got := rets.Get(id);
      if got.None? {
        return Failure(NotFound);
      }
      var cur := got.value;
      assert ReturnId(cur) == id;
      if EditsCredited(cur, in_) {
        return Failure(Conflict);
      }
      r := ValidateReturn(in_);
      if r.Failure? {
        return;
      }
      var row := r.value.(id := cur.id);
      var _ := rets.Update(row);
      RefreshIfNamed(row.invoiceId);
      RefreshIfNamed(cur.invoiceId);
      r := Success(row);
    }

    method DeleteReturn(id: string) returns (r: Result<()>)
      requires Valid()
      modifies this`outlets, invoices, rets, schemes
      ensures Valid() && (View(), r) == Ledger.DeleteReturn(old(View()), id)
    {
      var cur := rets.Get(id);
      if cur.None? {
        return Failure(NotFound);
      }
      if cur.value.status == Credited {
        return Failure(Conflict);
      }
      var _ := rets.Delete(id);
      RefreshIfNamed(cur.value.invoiceId);
      r := Success(());
    }

    // ---- van closes ---------------------------------------------------------------------------

    method NetSold(loadId: string) returns (sold: real)
      requires Valid()
      ensures sold == Ledger.NetSold(View(), loadId)
    {
      sold := VanSold(loadId);
      var back := VanReturned(loadId);
      sold := NetOf(sold, back);
    }

    /** Loaded and sold come from the ledger when the close names a load. */
    method FillFromLedger(in_: VanRecon) returns (r: Result<VanRecon>)
      requires Valid()
      ensures r == FilledFromLedger(View(), in_)
    {
      var v := in_;
      if v.vanLoadId != "" {
        var load := loads.Get(v.vanLoadId);
        if load.None? {
          return Failure(Invalid);
        }
        var sold := NetSold(v.vanLoadId);
        v := v.(loaded := load.value.quantity, sold := sold);
        if v.vanId == "" {
          v := v.(vanId := load.value.vehicleId);
        }
      }
      r := Success(v);
    }

    method CloseVanRecon(in_: VanRecon) returns (r: Result<VanRecon>)
      requires Valid()
      ensures r == Ledger.CloseVanRecon(View(), in_)
    {
      r := FillFromLedger(in_);
      if r.Failure? {
        return;
      }
      var v := WithVariances(r.value);
      var explained := (v.stockBalanced || v.stockExplanation != "") && (v.cashBalanced || v.cashExplanation != "");
      if v.status == Confirmed {
        if !explained {
          return Failure(Conflict);
        }
      } else if v.stockBalanced && v.cashBalanced {
        v := v.(status := Balanced);
      } else {
        v := v.(status := Exception);
      }
      r := Success(v);
    }

    method StoreRecon(d: VanRecon) returns (row: VanRecon)
      requires Valid()
      modifies recons
      ensures Valid() && row == d.(id := Ids.MintId("VRC", old(View()).recons.counter + 1))
      ensures View() == old(View()).(recons := Inserted(Minted(old(View()).recons), row.id, row))
    {
      var id := recons.NextId();
      row := d.(id := id);
      recons.Insert(row);
    }

    method CreateVanRecon(v: VanRecon) returns (r: Result<VanRecon>)
      requires Valid()
      modifies recons
      ensures Valid() && (View(), r) == Ledger.CreateVanRecon(old(View()), v)
    {
      if v.vanLoadId == "" {
        return Failure(Invalid);
      }
      r := CloseVanRecon(v);
      if r.Failure? {
        RefusedRecon(View(), v, r.error);
      } else {
        r := StoreClosed(v, r.value);
      }
    }

    method StoreClosed(v: VanRecon, d: VanRecon) returns (r: Result<VanRecon>)
      requires Valid() && v.vanLoadId != "" && Ledger.CloseVanRecon(View(), v) == Success(d)
      modifies recons
      ensures Valid() && (View(), r) == Ledger.CreateVanRecon(old(View()), v)
    {
      ghost var before := View();
      var row := StoreRecon(d);
      CreatedRecon(before, v, d, row);
      r := Success(row);
    }

    method UpdateVanRecon(id: string, in_: VanRecon) returns (r: Result<VanRecon>)
      requires Valid()
      modifies recons
      ensures Valid() && (View(), r) == Ledger.UpdateVanRecon(old(View()), id, in_)
    {
      var cur := recons.Get(id);
      if cur.None? {
        return Failure(NotFound);
      }
      if cur.value.status == Confirmed {
        return Failure(Conflict);
      }
      var v := in_;
      if v.vanLoadId == "" {
        v := v.(vanLoadId := cur.value.vanLoadId);
      }
      r := CloseVanRecon(v);
      if r.Success? {
        r := StoreReclosed(cur.value, r.value);
      }
    }

    method StoreReclosed(cur: VanRecon, d: VanRecon) returns (r: Result<VanRecon>)
      requires Valid() && cur.id in recons.rows
      modifies recons
      ensures var row := d.(id := cur.id);
        && Valid() && r == Success(row)
        && View() == old(View()).(recons := Updated(old(View()).recons, row.id, row))
    {
      var row := d.(id := cur.id);
      var _ := recons.Update(row);
      r := Success(row);
    }

    method DeleteVanRecon(id: string) returns (r: Result<()>)
      requires Valid()
      modifies recons
      ensures Valid() && (View(), r) == Ledger.DeleteVanRecon(old(View()), id)
    {
      var cur := recons.Get(id);
      if cur.None? {
        return Failure(NotFound);
      }
      if cur.value.status == Confirmed {
        return Failure(Conflict);
      }
      var _ := recons.Delete(id);
      r := Success(());
    }

    // ---- schemes --------------------------------------------------------------------------------

    method StoreScheme(d: Scheme) returns (row: Scheme)
      requires Valid()
      modifies schemes
      ensures Valid() && row == d.(id := Ids.MintId("SCH", old(View()).schemes.counter + 1))
      ensures View() == old(View()).(schemes := Inserted(Minted(old(View()).schemes), row.id, row))
    {
      var id := schemes.NextId();
      row := d.(id := id);
      schemes.Insert(row);
    }

    method CreateScheme(in_: Scheme) returns (r: Result<Scheme>)
      requires Valid()
      modifies schemes
      ensures Valid() && (View(), r) == Ledger.CreateScheme(old(View()), in_)
    {
      if in_.name == "" {
        return Failure(Invalid);
      }
      var sch := in_;
      if sch.status == Blank {
        sch := sch.(status := Active);
      }
      sch := sch.(redeemedValue := 0.0, redeemedVolume := 0.0);
      sch := StoreScheme(sch);
      r := Success(sch);
    }

    method UpdateScheme(id: string, in_: Scheme) returns (r: Result<Scheme>)
      requires Valid()
      modifies schemes
      ensures Valid() && (View(), r) == Ledger.UpdateScheme(old(View()), id, in_)
    {
      var cur := schemes.Get(id);
      if cur.None? {
        return Failure(NotFound);
      }
      assert SchemeId(cur.value) == id;
      var sch := in_.(id := cur.value.id);
      if sch.status == Blank {
        sch := sch.(status := cur.value.status);
      }
      r := StoreAndRecount(sch);
    }

    method StoreAndRecount(sch: Scheme) returns (r: Result<Scheme>)
      requires Valid() && sch.id in schemes.rows
      modifies schemes
      ensures var stored := old(View()).(schemes := Updated(old(View()).schemes, sch.id, sch));
        && Valid() && View() == Ledger.RefreshScheme(stored, sch.id)
        && r == Success(RefreshedScheme(old(View()), sch, sch.id))
    {
      UpdateStoredScheme(sch);
      RefreshScheme(sch.id);
      var now := schemes.Get(sch.id);
      r := Success(now.value);
    }

    method DeleteScheme(id: string) returns (r: Result<()>)
      requires Valid()
      modifies schemes
      ensures Valid() && (View(), r) == Ledger.DeleteScheme(old(View()), id)
    {
      var rows, _ := invoices.List(EVERYTHING);
      var redeemed := SearchRedeemed(rows, id);
      if redeemed {
        return Failure(Conflict);
      }
      var found := schemes.Delete(id);
      r := if found then Success(()) else Failure(NotFound);
    }

    // ---- any call -------------------------------------------------------------------------------

    method ServeBooks(op: Op)
      requires Valid() && OnBooks(op)
      modifies this`outlets, invoices, collects, rets, schemes
      ensures Valid() && View() == BookStep(old(View()), op)
    {
      match op
      case OpCreateInvoice(i) => var _ := CreateInvoice(i);
      case OpUpdateInvoice(id, i) => var _ := UpdateInvoice(id, i);
      case OpDeleteInvoice(id) => var _ := DeleteInvoice(id);
      case OpCreateCollection(c) => var _ := CreateCollection(c);
      case OpUpdateCollection(id, c) => var _ := UpdateCollection(id, c);
      case OpDeleteCollection(id) => var _ := DeleteCollection(id);
      case OpCreateReturn(ret) => var _ := CreateReturn(ret);
      case OpUpdateReturn(id, ret) => var _ := UpdateReturn(id, ret);
      case OpDeleteReturn(id) => var _ := DeleteReturn(id);
    }

    method ServeVans(op: Op)
      requires Valid() && OnVans(op)
      modifies loads, recons
      ensures Valid() && View() == DeskStep(old(View()), op)
    {
      match op
      case OpCreateLoad(v) => var _ := CreateVanLoad(v);
      case OpUpdateLoad(id, v) => var _ := UpdateVanLoad(id, v);
      case OpDeleteLoad(id) => var _ := DeleteVanLoad(id);
      case OpCreateRecon(v) => var _ := CreateVanRecon(v);
      case OpUpdateRecon(id, v) => var _ := UpdateVanRecon(id, v);
      case OpDeleteRecon(id) => var _ := DeleteVanRecon(id);
    }

    method ServeDesk(op: Op)
      requires Valid() && !OnBooks(op) && !OnVans(op)
      modifies this`outlets, this`nextOutlet, schemes
      ensures Valid() && View() == DeskStep(old(View()), op)
    {
      match op
      case OpCreateScheme(c) => var _ := CreateScheme(c);
      case OpUpdateScheme(id, c) => var _ := UpdateScheme(id, c);
      case OpDeleteScheme(id) => var _ := DeleteScheme(id);
      case OpCreateOutlet(o) => var _ := CreateOutlet(o);
      case OpPatchOutlet(id, p) => var _ := PatchOutlet(id, p);
      case OpDeleteOutlet(id) => var _ := DeleteOutlet(id);
    }

    /** Serves one call. The state it leaves is the specification's step, so every
        run of calls on this object is a Ledger run, and coherent caches stay so. */
    method Serve(op: Op)
      requires Valid()
      modifies this`outlets, this`nextOutlet, loads, invoices, collects, rets, recons, schemes
      ensures Valid() && View() == Step(old(View()), op)
      ensures old(WellFormed(View()) && Coherent(View())) ==> WellFormed(View()) && Coherent(View())
    {
      ghost var before := View();
      if OnBooks(op) {
        ServeBooks(op);
      } else if OnVans(op) {
        ServeVans(op);
      } else {
        ServeDesk(op);
      }
      if WellFormed(before) && Coherent(before) {
        StepCoherent(before, op);
      }
    }
  }
}
