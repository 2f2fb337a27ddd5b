/** The end-of-day close: the identity it keeps, what its variance means, and
    that a confirmed close is final. */
module VanClose {
  import opened Coherence
  import opened Ledger
  import opened Loads
  import opened Money
  import opened Stock
  import opened Tables
  import opened Wrappers

  // ---- one close -------------------------------------------------------------------

  /** A figure and its rounding to cents. */
  ghost predicate RoundedTo(cents: real, exact: real)
  {
    IsCents(cents) && -0.005 <= cents - exact <= 0.005
  }

  /** Everything a stored close owes: loaded and sold in cents, both variances are the rounded differences,
      both flags say whether they vanish, the status says what the flags say
      unless it is confirmed, and a confirmed one is balanced or explained twice over. */
  ghost predicate Sound(v: VanRecon)
  {
    && v.vanLoadId != "" && IsCents(v.loaded) && IsCents(v.sold)
    && RoundedTo(v.stockVariance, v.loaded - v.sold - v.returned - v.remaining)
    && RoundedTo(v.cashVariance, v.collectedCash - v.depositedCash)
    && (v.stockBalanced <==> v.stockVariance == 0.0)
    && (v.cashBalanced <==> v.cashVariance == 0.0)
    && (v.status == Confirmed || v.status == (if v.stockBalanced && v.cashBalanced then Balanced else Exception))
    && (v.status == Confirmed ==>
          (v.stockBalanced || v.stockExplanation != "") && (v.cashBalanced || v.cashExplanation != ""))
  }

  /** Load quantities are stored rounded. */
  ghost predicate LoadsInCents(s: State)
  {
    forall id :: id in s.loads.rows ==> IsCents(s.loads.rows[id].quantity)
  }

  lemma VariancesRounded(v: VanRecon)
    ensures var d := WithVariances(v);
      && RoundedTo(d.stockVariance, v.loaded - v.sold - v.returned - v.remaining)
      && RoundedTo(d.cashVariance, v.collectedCash - v.depositedCash)
      && (d.stockBalanced <==> d.stockVariance == 0.0) && (d.cashBalanced <==> d.cashVariance == 0.0)
  {
  }

  lemma ClosedSound(s: State, v: VanRecon, d: VanRecon)
    requires v.vanLoadId != "" && CloseVanRecon(s, v) == Success(d)
    requires v.vanLoadId in s.loads.rows ==> IsCents(s.loads.rows[v.vanLoadId].quantity)
    ensures Sound(d) && d.vanLoadId == v.vanLoadId
  {
    var filled := LedgerFigures(s, v, s.loads.rows[v.vanLoadId]);
    RoundNear(VanSold(s, v.vanLoadId) - VanReturned(s, v.vanLoadId));
    VariancesRounded(filled);
    ConcludedSound(WithVariances(filled), d);
  }

  lemma ConcludedSound(v: VanRecon, d: VanRecon)
    requires Concluded(v) == Success(d)
    ensures d == v.(status := d.status)
    ensures d.status == Confirmed || d.status == (if d.stockBalanced && d.cashBalanced then Balanced else Exception)
    ensures d.status == Confirmed ==>
      (d.stockBalanced || d.stockExplanation != "") && (d.cashBalanced || d.cashExplanation != "")
  {
  }

  lemma StoredCloseSound(s: State, t: State, row: VanRecon)
    requires ClosesSound(s) && Sound(row) && t.recons.rows == s.recons.rows[row.id := row] && t.loads == s.loads
    ensures ClosesSound(t)
  {
  }

  /** When what was handed back and counted is in cents, the identity
      loaded = sold + returned + remaining + variance is exact. */
  lemma IdentityExact(v: VanRecon)
    requires Sound(v) && IsCents(v.returned) && IsCents(v.remaining)
    ensures v.loaded == v.sold + v.returned + v.remaining + v.stockVariance
  {
    CentsAdd(v.loaded, v.sold);
    CentsAdd(v.loaded - v.sold, v.returned);
    CentsAdd(v.loaded - v.sold - v.returned, v.remaining);
    CentsAdd(v.stockVariance, v.loaded - v.sold - v.returned - v.remaining);
    CentsGap(v.stockVariance - (v.loaded - v.sold - v.returned - v.remaining));
  }

  /** Loaded and sold are the ledger's, whatever the form said. */
  lemma FiguresFromLedger(s: State, v: VanRecon, d: VanRecon)
    requires CloseVanRecon(s, v) == Success(d) && v.vanLoadId != ""
    requires Countables(s, v.vanLoadId) && LoadListsFit(s, v.vanLoadId)
    ensures v.vanLoadId in s.loads.rows
    ensures d.loaded == LoadedOn(s, v.vanLoadId) && d.sold == Sold(s, v.vanLoadId) - Back(s, v.vanLoadId)
    ensures d.returned == v.returned && d.remaining == v.remaining && IsCents(d.loaded) && IsCents(d.sold)
  {
    ClosedFigures(s, v, d);
    NetSoldExact(s, v.vanLoadId);
    TalliesCountable(s, v.vanLoadId);
  }

  lemma ClosedFigures(s: State, v: VanRecon, d: VanRecon)
    requires CloseVanRecon(s, v) == Success(d) && v.vanLoadId != ""
    ensures v.vanLoadId in s.loads.rows
    ensures d.loaded == LoadedOn(s, v.vanLoadId) && d.sold == NetSold(s, v.vanLoadId)
    ensures d.returned == v.returned && d.remaining == v.remaining
  {
  }

  lemma NetSoldExact(s: State, v: string)
    requires Countables(s, v) && LoadListsFit(s, v) && v != ""
    ensures NetSold(s, v) == Sold(s, v) - Back(s, v) && IsCents(NetSold(s, v))
  {
    VanSumsExact(s, v);
    TalliesCountable(s, v);
    NetOfCents(Sold(s, v), Back(s, v));
  }

  lemma NetOfCents(sold: real, back: real)
    requires IsCents(sold) && IsCents(back)
    ensures NetOf(sold, back) == sold - back && IsCents(NetOf(sold, back))
  {
    CentsAdd(sold, back);
    RoundFixesCents(sold - back);
  }

  /** While sales are covered, the variance of a close is what should be on the
      van less what was handed back and counted, so it balances exactly when they agree. */
  lemma VarianceIsMissingStock(s: State, v: VanRecon, d: VanRecon)
    requires CloseVanRecon(s, v) == Success(d) && v.vanLoadId != ""
    requires LoadSound(s, v.vanLoadId) && LoadListsFit(s, v.vanLoadId)
    requires IsCents(v.returned) && IsCents(v.remaining)
    ensures VanOnHand(s, v.vanLoadId).Success?
    ensures d.stockVariance == VanOnHand(s, v.vanLoadId).value - v.returned - v.remaining
    ensures d.stockBalanced <==> VanOnHand(s, v.vanLoadId).value == v.returned + v.remaining
  {
    FiguresFromLedger(s, v, d);
    ClosedSound(s, v, d);
    IdentityExact(d);
    FloorNeverBites(s, v.vanLoadId);
  }

  // ---- every run ---------------------------------------------------------------------

  ghost predicate ClosesSound(s: State)
  {
    LoadsInCents(s) && forall id :: id in s.recons.rows ==> Sound(s.recons.rows[id])
  }

  /** Confirmed closes of `s` are still there, unaltered, in `t`. */
  ghost predicate ConfirmedKept(s: State, t: State)
  {
    forall id :: id in s.recons.rows && s.recons.rows[id].status == Confirmed ==>
      id in t.recons.rows && t.recons.rows[id] == s.recons.rows[id]
  }

  lemma CreateReconClose(s: State, v: VanRecon)
    requires WellFormed(s) && ClosesSound(s)
    ensures ClosesSound(CreateVanRecon(s, v).0) && ConfirmedKept(s, CreateVanRecon(s, v).0)
  {
    if CreateVanRecon(s, v).1.Success? {
      var row := CreateVanRecon(s, v).1.value;
      ClosedSound(s, v, CloseVanRecon(s, v).value);
      CreateValid(s.recons, ReconId, "VRC", row);
      StoredCloseSound(s, CreateVanRecon(s, v).0, row);
    }
  }

  lemma UpdateReconClose(s: State, id: string, v: VanRecon)
    requires WellFormed(s) && ClosesSound(s)
    ensures ClosesSound(UpdateVanRecon(s, id, v).0) && ConfirmedKept(s, UpdateVanRecon(s, id, v).0)
  {
    if UpdateVanRecon(s, id, v).1.Success? {
      var cur := s.recons.rows[id];
      assert ReconId(cur) == id && Sound(cur);
      var asked := v.(vanLoadId := if v.vanLoadId == "" then cur.vanLoadId else v.vanLoadId);
      var d := CloseVanRecon(s, asked).value;
      ClosedSound(s, asked, d);
      StoredCloseSound(s, UpdateVanRecon(s, id, v).0, d.(id := id));
    }
  }

  lemma DeleteReconClose(s: State, id: string)
    requires WellFormed(s) && ClosesSound(s)
    ensures ClosesSound(DeleteVanRecon(s, id).0) && ConfirmedKept(s, DeleteVanRecon(s, id).0)
  {
  }

  lemma BookCallsKeepRecons(s: State, op: Op)
    requires WellFormed(s)
    requires op.OpCreateInvoice? || op.OpUpdateInvoice? || op.OpDeleteInvoice?
    ensures Step(s, op).recons == s.recons && Step(s, op).loads == s.loads
  {
    match op
    case OpCreateInvoice(i) =>
      if ValidateInvoice(s, i, None).Success? {
        CreatedInvoice(s, i, ValidateInvoice(s, i, None).value);
        AddInvoiceFrame(s, NewInvoice(s, ValidateInvoice(s, i, None).value));
      }
    case OpUpdateInvoice(id, i) =>
      if UpdateInvoice(s, id, i).1.Success? {
        var cur := s.invoices.rows[id];
        assert InvoiceId(cur) == id;
        ReplaceInvoiceFrame(s, cur, ValidateInvoice(s, i, Some(cur)).value.(id := id));
      }
    case OpDeleteInvoice(_) =>
  }

  lemma RefreshKeepsRecons(s: State, id: string)
    ensures RefreshInvoice(s, id).recons == s.recons && RefreshInvoice(s, id).loads == s.loads
  {
  }

  lemma CollectionCallsKeepRecons(s: State, id: string, c: Collection)
    ensures CreateCollection(s, c).0.recons == s.recons && CreateCollection(s, c).0.loads == s.loads
    ensures UpdateCollection(s, id, c).0.recons == s.recons && UpdateCollection(s, id, c).0.loads == s.loads
    ensures DeleteCollection(s, id).0.recons == s.recons && DeleteCollection(s, id).0.loads == s.loads
  {
    forall t: State, x ensures RefreshInvoice(t, x).recons == t.recons && RefreshInvoice(t, x).loads == t.loads {
      RefreshKeepsRecons(t, x);
    }
  }

  lemma ReturnCallsKeepRecons(s: State, id: string, r: OutletReturn)
    ensures CreateReturn(s, r).0.recons == s.recons && CreateReturn(s, r).0.loads == s.loads
    ensures UpdateReturn(s, id, r).0.recons == s.recons && UpdateReturn(s, id, r).0.loads == s.loads
    ensures DeleteReturn(s, id).0.recons == s.recons && DeleteReturn(s, id).0.loads == s.loads
  {
    forall t: State, x ensures RefreshInvoice(t, x).recons == t.recons && RefreshInvoice(t, x).loads == t.loads {
      RefreshKeepsRecons(t, x);
    }
  }

  lemma BookStepKeepsRecons(s: State, op: Op)
    requires WellFormed(s) && OnBooks(op)
    ensures BookStep(s, op).recons == s.recons && BookStep(s, op).loads == s.loads
  {
    match op
    case OpCreateInvoice(_) => BookCallsKeepRecons(s, op);
    case OpUpdateInvoice(_, _) => BookCallsKeepRecons(s, op);
    case OpDeleteInvoice(_) => BookCallsKeepRecons(s, op);
    case OpCreateCollection(c) => CollectionCallsKeepRecons(s, "", c);
    case OpUpdateCollection(id, c) => CollectionCallsKeepRecons(s, id, c);
    case OpDeleteCollection(id) => CollectionCallsKeepRecons(s, id, Collection("", "", "", 0.0, 0.0, Blank));
    case OpCreateReturn(r) => ReturnCallsKeepRecons(s, "", r);
    case OpUpdateReturn(id, r) => ReturnCallsKeepRecons(s, id, r);
    case OpDeleteReturn(id) => ReturnCallsKeepRecons(s, id, OutletReturn("", "", "", "", 0.0, "", Unset, 0.0, Blank));
  }

  lemma StepClose(s: State, op: Op)
    requires WellFormed(s) && ClosesSound(s)
    ensures ClosesSound(Step(s, op)) && ConfirmedKept(s, Step(s, op))
  {
    if OnBooks(op) {
      BookStepKeepsRecons(s, op);
    } else if op.OpCreateRecon? {
      CreateReconClose(s, op.recon);
    } else if op.OpUpdateRecon? {
      UpdateReconClose(s, op.id, op.recon);
    } else if op.OpDeleteRecon? {
      DeleteReconClose(s, op.id);
    } else {
      OtherDeskCalls(s, op);
    }
  }

  lemma NormalisedInCents(v: VanLoad)
    requires NormaliseVanLoad(v).Success?
    ensures IsCents(NormaliseVanLoad(v).value.quantity) && NormaliseVanLoad(v).value.id == v.id
  {
    NormalisedQuantity(v);
    RoundNear(if v.batches != [] && v.quantity <= 0.0 then SumOf(v.batches, BatchQuantity) else v.quantity);
  }

  lemma OtherDeskCalls(s: State, op: Op)
    requires LoadsInCents(s) && !OnBooks(op) && !op.OpCreateRecon? && !op.OpUpdateRecon? && !op.OpDeleteRecon?
    ensures DeskStep(s, op).recons == s.recons && LoadsInCents(DeskStep(s, op))
  {
    if op.OpCreateLoad? && NormaliseVanLoad(op.load).Success? {
      NormalisedInCents(op.load);
    } else if op.OpUpdateLoad? && op.id in s.loads.rows {
      var asked := op.load.(id := s.loads.rows[op.id].id);
      if NormaliseVanLoad(asked).Success? {
        NormalisedInCents(asked);
      }
    }
  }

  /** Over every run of any calls, every stored close is sound and a confirmed
      one is never changed or removed again. */
  lemma {:induction false} ConfirmedCloseIsFinal(s: State, ops: seq<Op>)
    requires WellFormed(s) && Coherent(s) && ClosesSound(s)
    ensures ClosesSound(Run(s, ops)) && ConfirmedKept(s, Run(s, ops))
    decreases |ops|
  {
    if ops != [] {
      var t := Step(s, ops[0]);
      StepClose(s, ops[0]);
      StepCoherent(s, ops[0]);
      ConfirmedCloseIsFinal(t, ops[1..]);
    }
  }
}
