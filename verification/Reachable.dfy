/** The ledger's guarantees put together, from the empty store on. */
module Reachable {
  import opened Coherence
  import opened Credit
  import opened InvoiceCalls
  import opened Ids
  import opened Ledger
  import opened Money
  import opened Payments
  import opened Schemes
  import opened Stock
  import opened Tables
  import opened VanClose
  import opened Wrappers

  /** The fixture's outlets are named, owe nothing and use no id still to be minted. */
  ghost predicate CleanFixture(outlets: seq<Outlet>)
  {
    forall o :: o in outlets ==> o.id != "" && o.outstanding == 0.0 && NotYetMinted("OUT", 2849, o.id)
  }

  lemma FreshIsSound(outlets: seq<Outlet>, distributors: set<string>, beats: set<string>)
    ensures var s := Fresh(outlets, distributors, beats);
      PaymentsSound(s) && StockSound(s) && SchemesSound(s) && ClosesSound(s)
  {
  }

  /** Any calls at all: caches agree, closes are sound, confirmed ones are final. */
  lemma EveryRun(outlets: seq<Outlet>, distributors: set<string>, beats: set<string>, ops: seq<Op>, more: seq<Op>)
    requires CleanFixture(outlets)
    ensures var s := Run(Fresh(outlets, distributors, beats), ops);
      && WellFormed(s) && Coherent(s) && ClosesSound(s) && ConfirmedKept(s, Run(s, more))
  {
    var s0 := Fresh(outlets, distributors, beats);
    FreshCoherent(outlets, distributors, beats);
    FreshIsSound(outlets, distributors, beats);
    CachesAgreeOverRuns(s0, ops);
    ConfirmedCloseIsFinal(s0, ops);
    ConfirmedCloseIsFinal(Run(s0, ops), more);
  }

  /** One invoice, one load, one scheme: each is safe over every run orderly for it,
      whatever the calls do to the others. */
  lemma EachOverItsRuns(outlets: seq<Outlet>, distributors: set<string>, beats: set<string>, ops: seq<Op>,
      id: string, v: string, c: string)
    requires CleanFixture(outlets) && v != "" && c != ""
    ensures var s0 := Fresh(outlets, distributors, beats);
      var s := Run(s0, ops);
      && (BookOrderlyRun(s0, ops, id) ==> BookSound(s, id))
      && (LoadOrderlyRun(s0, ops, v) ==> LoadSound(s, v))
      && (SchemeOrderlyOn(s0, ops, c) ==> SchemeSound(s, c))
  {
    var s0 := Fresh(outlets, distributors, beats);
    FreshCoherent(outlets, distributors, beats);
    FreshIsSound(outlets, distributors, beats);
    if BookOrderlyRun(s0, ops, id) {
      NeverOverCollectedOn(s0, ops, id);
    }
    if LoadOrderlyRun(s0, ops, v) {
      NeverOversoldOn(s0, ops, v);
    }
    if SchemeOrderlyOn(s0, ops, c) {
      SchemeSoundOverRuns(s0, ops, c);
    }
  }

  /** Orderly calls: no invoice is over-collected, no van oversold, no scheme miscounted. */
  lemma EveryOrderlyRun(outlets: seq<Outlet>, distributors: set<string>, beats: set<string>, ops: seq<Op>)
    requires CleanFixture(outlets)
    ensures var s0 := Fresh(outlets, distributors, beats);
      var s := Run(s0, ops);
      && (OrderlyRun(s0, ops) ==> PaymentsSound(s))
      && (StockOrderlyRun(s0, ops) ==> StockSound(s))
      && (SchemeOrderlyRun(s0, ops) ==> SchemesSound(s))
  {
    var s0 := Fresh(outlets, distributors, beats);
    FreshCoherent(outlets, distributors, beats);
    FreshIsSound(outlets, distributors, beats);
    if OrderlyRun(s0, ops) {
      NeverOverCollected(s0, ops);
    }
    if StockOrderlyRun(s0, ops) {
      NeverOversold(s0, ops);
    }
    if SchemeOrderlyRun(s0, ops) {
      SchemesSoundOverRuns(s0, ops);
    }
  }

  /** After any run in which no negative credit is typed, an accepted confirmed invoice on
      credit leaves its outlet approved and within its limit, or answered for by a
      supervisor: on a create, and on an update that keeps the outlet. */
  lemma GateAfterRun(outlets: seq<Outlet>, distributors: set<string>, beats: set<string>, ops: seq<Op>,
      i: InvoiceInput, o: Outlet, existing: Option<string>)
    requires CleanFixture(outlets) && forall k :: 0 <= k < |ops| ==> CreditTyped(ops[k])
    requires var s := Run(Fresh(outlets, distributors, beats), ops);
      && OutletListFits(s, o.id) && IsOutlet(s.outlets, i.doc.outletId, o)
      && AsksConfirmed(i.doc) && BuysOnCredit(i.doc, o)
      && (if existing.Some?
          then && existing.value in s.invoices.rows && s.invoices.rows[existing.value].outletId == i.doc.outletId
               && UpdateInvoice(s, existing.value, i).1.Success?
          else CreateInvoice(s, i).1.Success?)
    ensures var s := Run(Fresh(outlets, distributors, beats), ops);
      CreditHonoured(if existing.Some? then UpdateInvoice(s, existing.value, i).0 else CreateInvoice(s, i).0, o, i)
  {
    var s := Run(Fresh(outlets, distributors, beats), ops);
    EveryRun(outlets, distributors, beats, ops, []);
    FreshCoherent(outlets, distributors, beats);
    NoNegativesOverRuns(Fresh(outlets, distributors, beats), ops);
    if existing.Some? {
      UpdateHonoursCredit(s, existing.value, i, o);
    } else {
      CreateHonoursCredit(s, i, o);
    }
  }

  /** The state a call leaves, by what it is called with. */
  ghost predicate Leaves(s: State, op: Op, t: State)
  {
    match op
    case OpCreateInvoice(i) => t == CreateInvoice(s, i).0
    case OpUpdateInvoice(id, i) => t == UpdateInvoice(s, id, i).0
    case OpDeleteInvoice(id) => t == DeleteInvoice(s, id).0
    case OpCreateCollection(c) => t == CreateCollection(s, c).0
    case OpUpdateCollection(id, c) => t == UpdateCollection(s, id, c).0
    case OpDeleteCollection(id) => t == DeleteCollection(s, id).0
    case OpCreateReturn(r) => t == CreateReturn(s, r).0
    case OpUpdateReturn(id, r) => t == UpdateReturn(s, id, r).0
    case OpDeleteReturn(id) => t == DeleteReturn(s, id).0
    case OpCreateLoad(v) => t == CreateVanLoad(s, v).0
    case OpUpdateLoad(id, v) => t == UpdateVanLoad(s, id, v).0
    case OpDeleteLoad(id) => t == DeleteVanLoad(s, id).0
    case OpCreateRecon(v) => t == CreateVanRecon(s, v).0
    case OpUpdateRecon(id, v) => t == UpdateVanRecon(s, id, v).0
    case OpDeleteRecon(id) => t == DeleteVanRecon(s, id).0
    case OpCreateScheme(c) => t == CreateScheme(s, c).0
    case OpUpdateScheme(id, c) => t == UpdateScheme(s, id, c).0
    case OpDeleteScheme(id) => t == DeleteScheme(s, id).0
    case OpCreateOutlet(o) => t == CreateOutlet(s, o).0
    case OpPatchOutlet(id, p) => t == PatchOutlet(s, id, p).0
    case OpDeleteOutlet(id) => t == DeleteOutlet(s, id).0
  }

  /** Every call of the service is one step of a run. */
  lemma StepsAreCalls(s: State, op: Op)
    ensures Leaves(s, op, Step(s, op))
  {
  }
}
