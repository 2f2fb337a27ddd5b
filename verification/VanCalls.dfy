/** What calls on van loads and closes do with the form they are given, said on the
    caller's own fields. */
module VanCalls {
  import opened Coherence
  import opened Fefo
  import opened Ids
  import opened Ledger
  import opened Loads
  import opened Money
  import opened Stock
  import opened Tables
  import opened VanClose
  import opened Wrappers

  // ---- loads ------------------------------------------------------------------------------------

  /** A quantity is typed, or there are batches to add up. */
  predicate Weighed(v: VanLoad)
  {
    v.quantity > 0.0 || v.batches != []
  }

  function Weight(v: VanLoad): real
  {
    if v.quantity > 0.0 then v.quantity else SumOf(v.batches, BatchQuantity)
  }

  /** The form as it is kept: batches in order of expiry, the first of them in the blank
      headline, the quantity in hundredths. */
  ghost predicate KeptAs(v: VanLoad, id: string, row: VanLoad)
  {
    && row == VanLoad(id, v.vehicleId, row.quantity, row.batch, row.expiry, row.batches,
                      if v.status == Blank then Loaded else v.status)
    && RoundsTo(Weight(v), row.quantity)
    && StableSortOf(row.batches, v.batches, BatchExpiry)
    && (if v.batch == "" && v.batches != [] && row.batches != []
        then row.batch == row.batches[0].batch && row.expiry == row.batches[0].expiry
        else row.batch == v.batch && row.expiry == v.expiry)
  }

  lemma Normalised(v: VanLoad)
    ensures var r := NormaliseVanLoad(v);
      && (r.Success? <==> Weighed(v)) && (r.Failure? ==> r.error == Invalid)
      && (r.Success? ==> KeptAs(v, v.id, r.value))
  {
    NormalisedQuantity(v);
    SortSize(v.batches);
    SortIsTheOnlyStableSort(SortByExpiry(v.batches, BatchExpiry), v.batches, BatchExpiry);
    RoundMeans(Weight(v), Round2(Weight(v)));
  }

  /** A load needs a vehicle and a weight. */
  lemma CreateLoadVerdict(s: State, v: VanLoad)
    ensures var (t, r), id := CreateVanLoad(s, v), MintId("VAN", s.loads.counter + 1);
      && (r.Success? <==> Weighed(v) && v.vehicleId != "") && (r.Failure? ==> r.error == Invalid && t == s)
      && (r.Success? ==>
            && KeptAs(v, id, r.value)
            && t == s.(loads := Table(s.loads.rows[id := r.value], s.loads.order + [id], s.loads.counter + 1)))
  {
    Normalised(v);
  }

  /** An edit that would change the quantity is refused once something was sold from the load. */
  lemma UpdateLoadVerdict(s: State, id: string, v: VanLoad)
    requires WellFormed(s)
    ensures var (t, r) := UpdateVanLoad(s, id, v);
      && (r == Failure(NotFound) <==> id !in s.loads.rows) && (r.Failure? ==> t == s)
      && (id in s.loads.rows ==>
            && (r == Failure(Invalid) <==> !Weighed(v))
            && (r == Failure(Conflict) <==>
                  Weighed(v) && !RoundsTo(Weight(v), s.loads.rows[id].quantity) && VanSold(s, id) > 0.0)
            && (r.Success? ==>
                  KeptAs(v, id, r.value) && t == s.(loads := s.loads.(rows := s.loads.rows[id := r.value]))))
  {
    if id in s.loads.rows {
      assert LoadId(s.loads.rows[id]) == id;
      Normalised(v.(id := id));
      RoundMeans(Weight(v), s.loads.rows[id].quantity);
      if NormaliseVanLoad(v.(id := id)).Success? {
        RoundMeans(Weight(v), NormaliseVanLoad(v.(id := id)).value.quantity);
      }
    }
  }

  /** A load something was sold from is not deleted. */
  lemma DeleteLoadVerdict(s: State, id: string)
    requires WellFormed(s)
    ensures var (t, r) := DeleteVanLoad(s, id);
      && (r == Failure(Conflict) <==> VanSold(s, id) > 0.0)
      && (r == Failure(NotFound) <==> VanSold(s, id) <= 0.0 && id !in s.loads.rows)
      && r != Failure(Invalid) && (r.Failure? ==> t == s)
      && (r.Success? ==> t == s.(loads := t.loads) && t.loads.rows == s.loads.rows - {id})
  {
  }

  // ---- closes -----------------------------------------------------------------------------------

  /** What the close cannot account for, in goods and in cash. */
  function StockGap(s: State, v: VanRecon, load: VanLoad): real
  {
    load.quantity - Round2(VanSold(s, load.id) - VanReturned(s, load.id)) - v.returned - v.remaining
  }

  function CashGap(v: VanRecon): real
  {
    v.collectedCash - v.depositedCash
  }

  /** Half a cent or more, either way. */
  predicate Shows(gap: real)
  {
    gap >= 0.005 || gap <= -0.005
  }

  /** A confirmation leaves a gap unexplained. */
  predicate Unexplained(s: State, v: VanRecon, load: VanLoad)
  {
    && v.status == Confirmed
    && ((Shows(StockGap(s, v, load)) && v.stockExplanation == "") || (Shows(CashGap(v)) && v.cashExplanation == ""))
  }

  /** The form as it is kept: the load's quantity and net sales, both gaps in hundredths,
      and a status that follows from them unless it was confirmed. */
  ghost predicate ClosedAs(s: State, v: VanRecon, load: VanLoad, id: string, row: VanRecon)
  {
    var stock, cash := StockGap(s, v, load), CashGap(v);
    && row == VanRecon(
         id, if v.vanId == "" then load.vehicleId else v.vanId, load.id,
         load.quantity, Round2(VanSold(s, load.id) - VanReturned(s, load.id)), v.returned, v.remaining,
         row.stockVariance, !Shows(stock), v.stockExplanation,
         v.collectedCash, v.depositedCash, row.cashVariance, !Shows(cash), v.cashExplanation,
         if v.status == Confirmed then Confirmed else if Shows(stock) || Shows(cash) then Exception else Balanced)
    && RoundsTo(stock, row.stockVariance) && RoundsTo(cash, row.cashVariance)
  }

  lemma GapShows(gap: real)
    ensures Negligible(Round2(gap)) <==> !Shows(gap)
  {
  }

  /** The four derived fields, from the gaps between the figures. */
  lemma Measured(f: VanRecon, stock: real, cash: real)
    requires stock == f.loaded - f.sold - f.returned - f.remaining && cash == f.collectedCash - f.depositedCash
    ensures WithVariances(f)
         == f.(stockVariance := Round2(stock), cashVariance := Round2(cash),
               stockBalanced := !Shows(stock), cashBalanced := !Shows(cash))
  {
    GapShows(stock);
    GapShows(cash);
  }

  lemma Filled(s: State, v: VanRecon)
    requires WellFormed(s) && v.vanLoadId != "" && v.vanLoadId in s.loads.rows
    ensures var load := s.loads.rows[v.vanLoadId];
      && load.id == v.vanLoadId
      && FilledFromLedger(s, v)
           == Success(v.(vanId := if v.vanId == "" then load.vehicleId else v.vanId, loaded := load.quantity,
                         sold := Round2(VanSold(s, load.id) - VanReturned(s, load.id))))
  {
    assert LoadId(s.loads.rows[v.vanLoadId]) == v.vanLoadId;
  }

  lemma Closed(s: State, v: VanRecon)
    requires WellFormed(s) && v.vanLoadId != ""
    ensures var r := CloseVanRecon(s, v);
      && (v.vanLoadId !in s.loads.rows ==> r == Failure(Invalid))
      && (v.vanLoadId in s.loads.rows ==>
            var load := s.loads.rows[v.vanLoadId];
            if Unexplained(s, v, load) then r == Failure(Conflict)
            else r.Success? && ClosedAs(s, v, load, v.id, r.value))
  {
    if v.vanLoadId in s.loads.rows {
      var load := s.loads.rows[v.vanLoadId];
      Filled(s, v);
      Measured(FilledFromLedger(s, v).value, StockGap(s, v, load), CashGap(v));
      RoundMeans(StockGap(s, v, load), Round2(StockGap(s, v, load)));
      RoundMeans(CashGap(v), Round2(CashGap(v)));
    }
  }

  /** A close needs a known load, and a confirmation an explanation of every gap. */
  lemma CreateCloseVerdict(s: State, v: VanRecon)
    requires WellFormed(s)
    ensures var (t, r), id := CreateVanRecon(s, v), MintId("VRC", s.recons.counter + 1);
      && (r == Failure(Invalid) <==> v.vanLoadId == "" || v.vanLoadId !in s.loads.rows)
      && r != Failure(NotFound) && (r.Failure? ==> t == s)
      && (v.vanLoadId != "" && v.vanLoadId in s.loads.rows ==>
            var load := s.loads.rows[v.vanLoadId];
            && (r == Failure(Conflict) <==> Unexplained(s, v, load))
            && (r.Success? ==>
                  && ClosedAs(s, v, load, id, r.value)
                  && t == s.(recons := Table(s.recons.rows[id := r.value], s.recons.order + [id],
                                             s.recons.counter + 1))))
  {
    if v.vanLoadId != "" {
      Closed(s, v);
    }
  }

  /** The load typed, or else the one the close already was about. */
  function AboutLoad(v: VanRecon, cur: VanRecon): string
  {
    if v.vanLoadId == "" then cur.vanLoadId else v.vanLoadId
  }

  /** A confirmed close takes no edit; any other is closed again as the form says. */
  lemma UpdateCloseVerdict(s: State, id: string, v: VanRecon)
    requires WellFormed(s) && ClosesSound(s)
    ensures var (t, r) := UpdateVanRecon(s, id, v);
      && (r == Failure(NotFound) <==> id !in s.recons.rows) && (r.Failure? ==> t == s)
      && (id in s.recons.rows ==>
            var cur := s.recons.rows[id];
            var x := AboutLoad(v, cur);
            && (r == Failure(Invalid) <==> cur.status != Confirmed && x !in s.loads.rows)
            && (r == Failure(Conflict) <==>
                  cur.status == Confirmed || (x in s.loads.rows && Unexplained(s, v, s.loads.rows[x])))
            && (r.Success? ==>
                  && ClosedAs(s, v, s.loads.rows[x], id, r.value)
                  && t == s.(recons := s.recons.(rows := s.recons.rows[id := r.value]))))
  {
    if id in s.recons.rows {
      ClosedAgain(s, id, v);
    }
  }

  lemma ClosedAgain(s: State, id: string, v: VanRecon)
    requires WellFormed(s) && ClosesSound(s) && id in s.recons.rows
    ensures s.recons.rows[id].id == id
    ensures var x := AboutLoad(v, s.recons.rows[id]);
      var r := CloseVanRecon(s, v.(vanLoadId := x));
      && (x !in s.loads.rows ==> r == Failure(Invalid))
      && (x in s.loads.rows ==>
            if Unexplained(s, v, s.loads.rows[x]) then r == Failure(Conflict)
            else r.Success? && ClosedAs(s, v, s.loads.rows[x], v.id, r.value))
  {
    var cur := s.recons.rows[id];
    assert ReconId(cur) == id && VanClose.Sound(cur);
    var asked := v.(vanLoadId := AboutLoad(v, cur));
    Closed(s, asked);
    if asked.vanLoadId in s.loads.rows {
      SameGaps(s, v, asked, s.loads.rows[asked.vanLoadId]);
    }
  }

  lemma SameGaps(s: State, v: VanRecon, asked: VanRecon, load: VanLoad)
    requires asked == v.(vanLoadId := asked.vanLoadId)
    ensures Unexplained(s, asked, load) == Unexplained(s, v, load)
    ensures forall id, row :: ClosedAs(s, asked, load, id, row) <==> ClosedAs(s, v, load, id, row)
  {
  }

  lemma DeleteCloseVerdict(s: State, id: string)
    ensures var (t, r) := DeleteVanRecon(s, id);
      && (r == Failure(NotFound) <==> id !in s.recons.rows)
      && (r == Failure(Conflict) <==> id in s.recons.rows && s.recons.rows[id].status == Confirmed)
      && r != Failure(Invalid) && (r.Failure? ==> t == s)
      && (r.Success? ==> t == s.(recons := t.recons) && t.recons.rows == s.recons.rows - {id})
  {
  }
}
