/** What calls on schemes and outlets do with the form they are given, said on the
    caller's own fields. */
module DeskCalls {
  import opened Coherence
  import opened Ids
  import opened Ledger
  import opened Schemes
  import opened Tables
  import opened Wrappers

  // ---- schemes ----------------------------------------------------------------------------------

  /** A positive allocation is used up by these sums. */
  predicate Spent(sch: Scheme, value: real, volume: real)
  {
    (sch.budget > 0.0 && value >= sch.budget) || (sch.volume > 0.0 && volume >= sch.volume)
  }

  /** A recount stores the sums; active turns exhausted once an allocation is used up, and
      exhausted active once none is. */
  ghost predicate Recounted(was: Scheme, value: real, volume: real, now: Scheme)
  {
    && now == was.(redeemedValue := value, redeemedVolume := volume, status := now.status)
    && now.status ==
         match was.status
         case Active => if Spent(was, value, volume) then Exhausted else Active
         case Exhausted => if Spent(was, value, volume) then Exhausted else Active
         case other => other
  }

  lemma RedeemedIsRecounted(sch: Scheme, value: real, volume: real)
    ensures Recounted(sch, value, volume, Redeemed(sch, value, volume))
  {
  }

  /** Refreshing an invoice recounts the scheme it is under, over the confirmed invoices. */
  lemma RefreshRecounts(s: State, id: string)
    requires WellFormed(s) && id in s.invoices.rows && s.invoices.rows[id].schemeId != "" && InvoicesFit(s)
    requires s.invoices.rows[id].schemeId in s.schemes.rows && FiguresOn(s, s.invoices.rows[id].schemeId)
    ensures var t, c := RefreshInvoice(s, id), s.invoices.rows[id].schemeId;
      c in t.schemes.rows && Recounted(s.schemes.rows[c], Value(s, c), Volume(s, c), t.schemes.rows[c])
  {
    var inv := s.invoices.rows[id];
    var t1 := s.(invoices := Updated(s.invoices, id, RefreshedRow(s, id)));
    var t2 := RefreshOutletBalance(t1, inv.outletId);
    SettledScheme(s, id, inv.schemeId);
    SettledFigures(s, id, inv.schemeId);
    RedemptionExact(t2, inv.schemeId);
    RedeemedIsRecounted(s.schemes.rows[inv.schemeId], Value(s, inv.schemeId), Volume(s, inv.schemeId));
  }

  lemma SettledFigures(s: State, id: string, c: string)
    requires WellFormed(s) && id in s.invoices.rows && FiguresOn(s, c) && InvoicesFit(s)
    ensures var t := RefreshOutletBalance(s.(invoices := Updated(s.invoices, id, RefreshedRow(s, id))),
                                          s.invoices.rows[id].outletId);
      && FiguresOn(t, c) && InvoicesFit(t) && t.schemes == s.schemes
      && Value(t, c) == Value(s, c) && Volume(t, c) == Volume(s, c)
  {
    SettledScheme(s, id, c);
  }

  lemma CreateSchemeVerdict(s: State, c: Scheme)
    ensures var (t, r), id := CreateScheme(s, c), MintId("SCH", s.schemes.counter + 1);
      && (r.Success? <==> c.name != "") && (r.Failure? ==> r.error == Invalid && t == s)
      && (r.Success? ==>
            && r.value == Scheme(id, c.name, c.budget, c.volume, 0.0, 0.0, c.segment, c.volumeTier,
                                 if c.status == Blank then Active else c.status)
            && t == s.(schemes := Table(s.schemes.rows[id := r.value], s.schemes.order + [id], s.schemes.counter + 1)))
  {
  }

  /** An update stores what was typed, a blank status kept as it was, and recounts. */
  lemma UpdateSchemeVerdict(s: State, id: string, c: Scheme)
    requires WellFormed(s)
    ensures var (t, r) := UpdateScheme(s, id, c);
      && (r.Success? <==> id in s.schemes.rows) && (r.Failure? ==> r.error == NotFound && t == s)
      && (r.Success? ==>
            && t == s.(schemes := s.schemes.(rows := s.schemes.rows[id := r.value]))
            && Recounted(c.(id := id, status := if c.status == Blank then s.schemes.rows[id].status else c.status),
                         RedeemedValue(s, id), RedeemedVolume(s, id), r.value))
  {
    if id in s.schemes.rows {
      assert SchemeId(s.schemes.rows[id]) == id;
      var row := c.(id := id, status := if c.status == Blank then s.schemes.rows[id].status else c.status);
      RedeemedIsRecounted(row, RedeemedValue(s, id), RedeemedVolume(s, id));
    }
  }

  /** Raising the budget of an exhausted scheme above what was redeemed opens it again. */
  lemma RaisedBudgetReopens(s: State, id: string, c: Scheme)
    requires WellFormed(s) && InvoicesFit(s) && FiguresOn(s, id)
    requires id in s.schemes.rows && s.schemes.rows[id].status == Exhausted && c.status in {Blank, Exhausted}
    requires c.budget > Value(s, id) && (c.volume <= 0.0 || c.volume > Volume(s, id))
    ensures var t := UpdateScheme(s, id, c).0;
      && id in t.schemes.rows && t.schemes.rows[id].status == Active && t.schemes.rows[id].budget == c.budget
      && t.schemes.rows[id].redeemedValue == Value(s, id) && t.schemes.rows[id].redeemedVolume == Volume(s, id)
  {
    RedemptionExact(s, id);
    UpdateSchemeVerdict(s, id, c);
  }

  /** One of the 5000 newest invoices is confirmed under the scheme. */
  ghost predicate RedeemedOn(s: State, id: string)
  {
    exists inv :: inv in Listed(s.invoices, InvoiceKeys, DocFilter("", "", "", 5000, 0))
      && inv.schemeId == id && inv.status in {Invoiced, Paid, Confirmed}
  }

  lemma AnyRedeemedIff(rows: seq<Invoice>, id: string)
    ensures AnyRedeemed(rows, id)
       <==> exists inv :: inv in rows && inv.schemeId == id && inv.status in {Invoiced, Paid, Confirmed}
  {
    if inv :| inv in rows && inv.schemeId == id && inv.status in {Invoiced, Paid, Confirmed} {
      var i :| 0 <= i < |rows| && rows[i] == inv;
    }
  }

  /** A scheme confirmed invoices redeem is not deleted. */
  lemma DeleteSchemeVerdict(s: State, id: string)
    ensures var (t, r) := DeleteScheme(s, id);
      && (r == Failure(Conflict) <==> RedeemedOn(s, id))
      && (r == Failure(NotFound) <==> !RedeemedOn(s, id) && id !in s.schemes.rows)
      && r != Failure(Invalid) && (r.Failure? ==> t == s)
      && (r.Success? ==> t == s.(schemes := t.schemes) && t.schemes.rows == s.schemes.rows - {id})
  {
    AnyRedeemedIff(Listed(s.invoices, InvoiceKeys, EVERYTHING), id);
  }

  // ---- outlets ----------------------------------------------------------------------------------

  predicate BeatTyped(s: State, beat: string)
  {
    beat != "" ==> beat in s.beats
  }

  /** An outlet needs a known distributor, and a beat given must be known. */
  lemma CreateOutletVerdict(s: State, o: OutletInput)
    ensures var (t, r) := CreateOutlet(s, o);
      && (r.Success? <==> o.distributorId in s.distributors && BeatTyped(s, o.beatId))
      && (r.Failure? ==> r.error == Invalid && t == s)
      && (r.Success? ==>
            && r.value == Outlet(MintId("OUT", s.nextOutlet + 1), o.distributorId, o.beatId, o.creditLimit, o.terms,
                                 o.segment, o.volumeTier, o.kycApproved, 0.0)
            && t == s.(outlets := s.outlets + [r.value], nextOutlet := s.nextOutlet + 1))
  {
  }

  /** The first outlet with the id stands at `k`. */
  predicate FirstAt(outlets: seq<Outlet>, id: string, k: nat)
  {
    k < |outlets| && outlets[k].id == id && forall j :: 0 <= j < k ==> outlets[j].id != id
  }

  lemma {:induction false} FoundFirst(outlets: seq<Outlet>, id: string, k: nat)
    requires FirstAt(outlets, id, k)
    ensures FindOutlet(outlets, id) == Some(outlets[k])
  {
    if k > 0 {
      assert FirstAt(outlets[1..], id, k - 1);
      FoundFirst(outlets[1..], id, k - 1);
    }
  }

  lemma {:induction false} PatchedFirst(outlets: seq<Outlet>, id: string, p: OutletPatch, k: nat)
    requires FirstAt(outlets, id, k)
    ensures PatchFirst(outlets, id, p) == outlets[k := Patched(outlets[k], p)]
  {
    if k > 0 {
      assert FirstAt(outlets[1..], id, k - 1);
      PatchedFirst(outlets[1..], id, p, k - 1);
    }
  }

  lemma {:induction false} RemovedFirst(outlets: seq<Outlet>, id: string, k: nat)
    requires FirstAt(outlets, id, k)
    ensures RemoveFirst(outlets, id) == outlets[..k] + outlets[k + 1..]
  {
    if k > 0 {
      assert FirstAt(outlets[1..], id, k - 1);
      RemovedFirst(outlets[1..], id, k - 1);
    }
  }

  lemma {:induction false} FirstOne(outlets: seq<Outlet>, id: string) returns (k: nat)
    requires FindOutlet(outlets, id).Some?
    ensures FirstAt(outlets, id, k)
  {
    if outlets[0].id == id {
      k := 0;
    } else {
      var j := FirstOne(outlets[1..], id);
      k := j + 1;
      assert forall i :: 1 <= i < k ==> outlets[i] == outlets[1..][i - 1];
    }
  }

  /** What the patch names takes its value, everything else stays. */
  ghost predicate PatchedBy(o: Outlet, p: OutletPatch, now: Outlet)
  {
    && now.id == o.id && now.distributorId == o.distributorId && now.outstanding == o.outstanding
    && now.beatId == (if p.beatId.Some? then p.beatId.value else o.beatId)
    && now.creditLimit == (if p.creditLimit.Some? then p.creditLimit.value else o.creditLimit)
    && now.terms == (if p.terms.Some? then p.terms.value else o.terms)
    && now.segment == (if p.segment.Some? then p.segment.value else o.segment)
    && now.volumeTier == (if p.volumeTier.Some? then p.volumeTier.value else o.volumeTier)
    && now.kycApproved == (if p.kycApproved.Some? then p.kycApproved.value else o.kycApproved)
  }

  ghost predicate NoOutlet(s: State, id: string)
  {
    forall k: nat :: !FirstAt(s.outlets, id, k)
  }

  ghost predicate PatchedAt(s: State, p: OutletPatch, k: nat, now: Outlet, t: State)
  {
    k < |s.outlets| && PatchedBy(s.outlets[k], p, now) && t == s.(outlets := s.outlets[k := now])
  }

  ghost predicate RemovedAt(s: State, k: nat, t: State)
  {
    k < |s.outlets| && t == s.(outlets := s.outlets[..k] + s.outlets[k + 1..])
  }

  /** The first outlet with the id is patched where it stands. */
  lemma PatchOutletVerdict(s: State, id: string, p: OutletPatch)
    ensures var (t, r) := PatchOutlet(s, id, p);
      && (r == Failure(Invalid) <==> p.beatId.Some? && !BeatTyped(s, p.beatId.value))
      && (r == Failure(NotFound) <==> !(p.beatId.Some? && !BeatTyped(s, p.beatId.value)) && NoOutlet(s, id))
      && r != Failure(Conflict) && (r.Failure? ==> t == s)
      && (r.Success? ==> exists k: nat :: FirstAt(s.outlets, id, k) && PatchedAt(s, p, k, r.value, t))
  {
    WhereFirst(s, id);
    if PatchOutlet(s, id, p).1.Success? {
      var k := FirstOne(s.outlets, id);
      FoundFirst(s.outlets, id, k);
      PatchedFirst(s.outlets, id, p, k);
      assert PatchedAt(s, p, k, PatchOutlet(s, id, p).1.value, PatchOutlet(s, id, p).0);
    }
  }

  lemma WhereFirst(s: State, id: string)
    ensures FindOutlet(s.outlets, id).None? <==> NoOutlet(s, id)
  {
    if FindOutlet(s.outlets, id).Some? {
      var k := FirstOne(s.outlets, id);
    }
  }

  /** The first outlet with the id goes. */
  lemma DeleteOutletVerdict(s: State, id: string)
    ensures var (t, r) := DeleteOutlet(s, id);
      && (r.Failure? <==> NoOutlet(s, id)) && (r.Failure? ==> r.error == NotFound && t == s)
      && (r.Success? ==> exists k: nat :: FirstAt(s.outlets, id, k) && RemovedAt(s, k, t))
  {
    WhereFirst(s, id);
    if DeleteOutlet(s, id).1.Success? {
      var k := FirstOne(s.outlets, id);
      RemovedFirst(s.outlets, id, k);
      assert RemovedAt(s, k, DeleteOutlet(s, id).0);
    }
  }
}
