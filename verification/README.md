# Distribution management: verified core

A Dafny model of the parts of the distribution management backend whose correctness
depends on more than one function at a time:

- **The secondary-sales ledger** (`internal/store/secondary.go` over the in-memory
  tables of `internal/store/docs.go`). Van loads, retailer invoices, collections, outlet
  returns, schemes and van closes form one state machine. Several stored fields are
  caches of sums over other tables and are recomputed after each write; the guards read
  those caches.
- **The event outbox** (`internal/outbox/outbox.go`): claim, send and mark, by any number
  of publishers, with crashes and lost marks.
- **The migration runner** (`internal/migrate/migrate.go`): a checksum-guarded loop that
  is stopped and resumed.
- **Two smaller step protocols**: the atomic claim of report schedules and the
  at-least-once consumption of commercial events.

## How it is built

The ledger is there twice. `Ledger.dfy` says what each public method computes from the
state it finds, as functions on values. `Repository.dfy` is the service itself: a class
over six `DocTable` objects and an outlet slice, whose methods change them step by step
and loop where the source loops, each proved to leave exactly the state and return
exactly the result its specification names. Everything proved of runs of `Ledger.Step`
therefore holds of runs of `Repository.Serve`. The proofs about runs live in one file
per guarantee: `Coherence`, `Healing`, `Payments`, `Stock`, `Schemes`, `VanClose`,
`Credit`, `SplitReturns`, `Loads`. When a call is refused, with which error, and which
fields it stores is said on the caller's own fields, apart from the functions the
specification is made of, in `Settling`, `InvoiceCalls`, `CollectionCalls`, `ReturnCalls`,
`VanCalls`, `DeskCalls` and `Lists`. `Reachable` puts the guarantees together from the
empty store on, and `Limits` gives, for each that needs a condition, a run from the empty
store in which the condition fails and so does the guarantee.

The same division holds elsewhere: `Outbox.Store`, `Outbox.Publisher`,
`Migrate.Database`, `Schedules.Scheduler` and `Commercial.Consumer` are the imperative
code, and the protocol files treat their statements as atomic steps in any interleaving.

Modelling choices:

- Money and quantities are exact reals with the source's rounding to hundredths written
  out. Guarantees that need amounts in whole hundredths say so (`IsCents`,
  `Countable`, `SchemeFigure`); guarantees that do not, such as the agreement of the
  caches, hold for any figures.
- Text is modelled after trimming and lower-casing, as every comparison in the source
  sees it. Statuses are one enumeration with an `Other` case. Free notes, actors'
  timestamps and payment methods are dropped.
- Internal sums read at most 5000 rows, and the functions keep that limit. Where a
  guarantee needs the whole sum, "at most 5000 matching rows" is an explicit condition:
  per invoice for its collections and returns (`InvoiceListsFit`), per load for its
  invoices and over the table for returns, which the source lists unfiltered
  (`LoadListsFit`), over the table for a scheme's invoices, likewise (`InvoicesFit`), per
  outlet for its invoices (`OutletListFits`). Tables otherwise grow without bound.
- The run guarantees of payments, stock and schemes are about one invoice, one load or one
  scheme, and ask only of accepted calls that touch it; whatever happens to the others,
  and whatever is refused, is free (`BookOrderly`, `LoadOrderly`, `SchemeOrderly`). Only
  the 5000 invoices a scheme is counted over are a condition on the whole table. The
  guarantee for the whole store is the conjunction.
- Each call completes before the next begins.
- Publishers, replicas and the network appear as arbitrary sequences of events.
  Database clocks are integers; hashes are function parameters.

## Where the code does less than it promises

The model keeps the code as it is; these are the exact limits that came out of it.

- `invoiceHasCollections` looks at the newest collection only, and moving a paid invoice
  back to draft is not guarded at all. An accepted update keeps the payment books if and
  only if it does not take an invoice with live collections out of the confirmed set
  (`UpdateInvoiceSoundIff`, `VoidGuardExact`); otherwise a fully paid invoice is voided, or
  ends confirmed with more collected than its amount (`PaidInvoiceIsVoided`,
  `DraftDetourOverCollects`).
- Cancelling, shrinking, moving or deleting a return does not recheck sales. It keeps the
  stock sound if and only if the goods withdrawn are still on the van
  (`UpdateReturnStockIff`, `DeleteReturnStockIff`); otherwise a van ends oversold
  (`DeletedReturnOversells`).
- The scheme an invoice leaves is not refreshed. Its figures stay right if and only if the
  invoice counted nothing towards it (`UpdateInvoiceSchemesIff`, `LeftSchemeIsStale`).
- An update that moves a confirmed invoice to another outlet deducts the old outstanding
  from the new outlet's debt. The limit then holds if and only if that outlet's debt and
  what the invoice will owe fit in it together (`MovedInvoiceGateIff`); an unpaid invoice
  of any size passes a debt-free outlet's limit (`MovePassesLimit`).
- A collection of at most 0.009 is always accepted, so over-collection is excluded only
  for amounts in whole hundredths (`CrumbsAlwaysAccepted`, `OvershootBounded`).
- Normalising a van load twice differs from once if and only if a positive quantity
  rounded to nothing, unless the batches round to nothing too (`NormaliseTwice`).
- From 34 attempts on, the retry delay overflows 64 bits and, but for eight values, is not
  positive, so a failed row is due again at once and the one-second lease is lost
  (`BackoffMeansItIff`, `OverflowedRetryIsDueAtOnce`, `LeaseEndsAt33`).
- The comment on the runner's transaction does not hold for files that commit themselves,
  as `0001` to `0004` do: a death right after such a commit makes the body run twice
  (`TornRunsTwice`). And a first run that dies after creating tables makes the next run
  read the shared legacy ledger after all (`LateSeeding`).
- A commercial event that failed is come back to by a restart if and only if neither it nor
  a later one has been committed (`ComesBackIff`), and applying an event twice leaves no
  trace if and only if it is skipped or has an id (`AgainIsNothingIff`).

## Model

| member | source | states |
|---|---|---|
| `Coherence.CachesAgreeOverRuns` | internal/store/secondary.go:199-275 | after every call of every run, with no bound on the tables and no condition on the calls, each stored invoice's outstanding equals its recomputation, an invoiced one owes more than nothing, a paid one owes nothing, and each outlet's balance equals the recomputed sum over its confirmed invoices |
| `Coherence.RefreshRepairs` | internal/store/secondary.go:236-257 | refreshing an invoice repairs that invoice and its outlet, whatever was wrong with them, and disturbs no other invoice or outlet |
| `Coherence.UpdateInvoiceCoherent` | internal/store/secondary.go:419-442 | an invoice update keeps all caches agreeing, also when the invoice moves to another outlet |
| `Coherence.UpdateCollectionCoherent` | internal/store/secondary.go:528-559 | so does a collection update, through voids, un-voids and moves between invoices |
| `Coherence.UpdateReturnCoherent` | internal/store/secondary.go:652-676 | so does a return update, also when the return changes invoice |
| `Coherence.CreateOutletCoherent` | internal/store/memory_resources.go:96-120 | a new outlet's zero balance is right, because no stored invoice can name an id that is still to be minted |
| `Coherence.FreshCoherent` | internal/store/store.go:66-70 | the empty store starts coherent when its fixture outlets owe nothing and use no id still to be minted |
| `Healing.RefreshingAllHeals` | internal/store/secondary.go:199-257 | from any cached figures at all, refreshing every invoice once in any order restores every invoice cache, the paid/invoiced status and the balance of every outlet that has an invoice |
| `Healing.RefreshOrderIrrelevant` | internal/store/secondary.go:236-275 | the state after any refreshes is a closed form of which invoices were refreshed, so neither order nor repetition shows |
| `Healing.RefreshConfluent` | internal/store/secondary.go:236-275 | refreshing the same invoices in any two orders gives the same state |
| `Healing.RefreshIdempotent` | internal/store/secondary.go:236-257 | refreshing twice is refreshing once |
| `Settling.RefreshSettles` | internal/store/secondary.go:236-249 | a refresh stores nothing but what is owed and the status that goes with it: an invoiced or paid invoice reads paid if nothing is owed and invoiced otherwise, any other status stays |
| `Settling.RefreshPaysWhenCovered` | internal/store/secondary.go:212-249 | the same on the figures: paid exactly if live collections and credited returns cover the amount, and otherwise owing the difference |
| `Settling.PaidThenReopened` | internal/store/secondary.go:513-559 | collecting all that an invoice owes leaves it paid and owing nothing, and voiding that collection leaves it invoiced again, owing what was paid |
| `Payments.NeverOverCollectedOn` | internal/store/secondary.go:477-576 | over every run in which accepted calls on one invoice have figures in hundredths, sum at most 5000 rows and do not take it out of the confirmed set while live collections stand on it, its live collections never exceed its amount and stand on it only while it is confirmed, whatever is refused and whatever happens to other invoices |
| `Payments.NeverOverCollected` | internal/store/secondary.go:477-576 | so over every run orderly for each invoice, no invoice is over-collected |
| `Payments.CreateCollectionSound` | internal/store/secondary.go:477-526 | from coherent caches, if the figures of that one invoice are hundredths and its lists fit, an accepted live collection leaves live collections plus credited returns at most the amount, and the remaining figure it reports is what is left and equals the refreshed outstanding |
| `Payments.CreateCollectionBook` | internal/store/secondary.go:513-526 | a create keeps every invoice's books, and asks something only of an accepted one on that invoice |
| `Payments.UpdateCollectionSound` | internal/store/secondary.go:528-559 | the same of every accepted edit, un-void or move that leaves a live collection: live collections plus credited returns end within the amount, or no further beyond it than they were, and reported and refreshed figures agree |
| `Payments.UpdateCollectionBook` | internal/store/secondary.go:528-559 | an update keeps every invoice's books, the one it moves a collection from included |
| `Payments.UpdateInvoiceSoundIff` | internal/store/secondary.go:419-452 | an accepted invoice update keeps that invoice's payment books if and only if it does not take it out of the confirmed set with live collections on it, and keeps all other invoices' books |
| `Payments.VoidGuardExact` | internal/store/secondary.go:430-452 | a void keeps the invoice's payment books if and only if the guard refuses it or no live collection stands on the invoice |
| `Limits.PaidInvoiceIsVoided` | internal/store/secondary.go:430-452 | from the empty store, for any amount: an invoice is created, collected in full, given a voided collection and then voided with all of the amount still paid on it |
| `Limits.DraftDetourOverCollects` | internal/store/secondary.go:419-442 | from the empty store, for any amount and any lower one: a collected invoice goes back to draft and is confirmed again over the lower amount, and ends confirmed with the higher one collected on it |
| `Payments.OutletOwesItsInvoices` | internal/store/secondary.go:199-210 | an outlet's stored balance is exactly the sum of what its confirmed invoices owe, with no rounding loss |
| `Payments.CrumbsAlwaysAccepted` | internal/store/secondary.go:500-509 | a collection of at most 0.009 is accepted on any confirmed invoice, settled or not |
| `Payments.OvershootBounded` | internal/store/secondary.go:500-509 | whatever the figures, one accepted collection oversteps by at most 0.014 |
| `CollectionCalls.CreateVerdict` | internal/store/secondary.go:477-526 | a collection is accepted if and only if it is a positive amount on an invoice that is invoiced, paid or confirmed and, unless void, no more than that invoice owes; it is appended under the next number, on its invoice's outlet, with what is left |
| `CollectionCalls.UpdateVerdict` | internal/store/secondary.go:528-559 | an edit is refused for want of the collection, for another amount than the recorded one, or as a create on its target would be; otherwise the collection stands on the invoice typed with the amount typed, blanks kept as they were |
| `CollectionCalls.DeleteVerdict` | internal/store/secondary.go:561-576 | a collection is deleted if and only if it exists and is void |
| `CollectionCalls.MoveShiftsLive` | internal/store/secondary.go:537-558 | moving a live collection takes its amount off the live total of the invoice it was on and puts what is stored on that of the invoice typed |
| `CollectionCalls.MoveShowsOnBoth` | internal/store/secondary.go:537-558 | in hundredths, both invoices then show it: the one left owes the amount again, the one entered that much less |
| `Stock.NeverOversoldOn` | internal/store/secondary.go:126-187 | over every run in which accepted calls on one load have quantities in hundredths, sum at most 5000 rows and withdraw only returned goods still on the van, the load has no confirmed sales above loaded plus returned, through invoice, load and return edits and deletes, whatever is refused and whatever happens to other loads |
| `Stock.NeverOversold` | internal/store/secondary.go:126-187 | so over every run orderly for each load, none is oversold |
| `Stock.CreateInvoiceNeverOversells` | internal/store/secondary.go:337-349 | no invoice create increases what any load is oversold by, from any state, other loads oversold or not |
| `Stock.UpdateInvoiceNeverOversells` | internal/store/secondary.go:337-349 | nor does any update, also when it changes load, quantity or status |
| `Stock.FloorNeverBites` | internal/store/secondary.go:180-187 | on a load whose sales are covered the on-hand figure is loaded less sold plus returned, its floor at zero unused |
| `Stock.UpdateReturnStockIff` | internal/store/secondary.go:652-676 | an accepted edit of a return keeps its load covered if and only if the on-hand figure covers the goods it takes off the load (the stored quantity there less what the form leaves there, on the load typed or else its invoice's), and keeps every other load covered |
| `Stock.DeleteReturnStockIff` | internal/store/secondary.go:678-695 | deleting a return keeps its load covered if and only if the on-hand figure covers all the return put there, and keeps every other load covered |
| `Limits.DeletedReturnOversells` | internal/store/secondary.go:678-695 | from the empty store, for any quantity: loaded, sold, sent back and sold again, then the return deleted, and the van has sold twice what was loaded |
| `Stock.EnlargingIsFree` | internal/store/secondary.go:652-676 | an accepted edit that takes nothing off a load keeps it covered, whatever the figures and however long the lists |
| `Schemes.SchemeSoundOverRuns` | internal/store/secondary.go:812-872 | over every run in which accepted calls put figures in hundredths under one scheme, take no counted invoice from it and leave at most 5000 invoices to count, its redeemed value and volume equal the sums over confirmed invoices and while active it is strictly below every positive allocation, whatever happens to other schemes |
| `Schemes.SchemesSoundOverRuns` | internal/store/secondary.go:812-872 | so over every run orderly for each scheme, all are right |
| `Schemes.CreateInvoiceOvershoot` | internal/store/secondary.go:383-396 | an invoice accepted on a scheme whose figures are right takes value and volume past an allocation by less than its own share, other schemes right or not |
| `Schemes.UpdateInvoiceOvershoot` | internal/store/secondary.go:419-442 | so does an accepted update that confirms a draft, enters a scheme or raises what it redeems |
| `Schemes.UpdateInvoiceSchemesIff` | internal/store/secondary.go:437-440 | an accepted update keeps the figures of the scheme the invoice was under if and only if the stored invoice counts nothing towards it or the form names it again, and keeps those of other schemes |
| `Limits.LeftSchemeIsStale` | internal/store/secondary.go:437-440 | from the empty store, for any value: a scheme is redeemed by one invoice, which then leaves it, and the scheme still reports that value though no invoice stands for it |
| `DeskCalls.RefreshRecounts` | internal/store/secondary.go:812-836 | refreshing an invoice stores in its scheme the sums over the confirmed invoices under it; active turns exhausted exactly if an allocation is used up, exhausted active exactly if none is, and any other status stays |
| `DeskCalls.RaisedBudgetReopens` | internal/store/secondary.go:855-872 | raising the budget of an exhausted scheme above what was redeemed opens it again |
| `DeskCalls.CreateSchemeVerdict` | internal/store/secondary.go:839-853 | a scheme is accepted if and only if it has a name; it starts with nothing redeemed, active unless a status was typed |
| `DeskCalls.UpdateSchemeVerdict` | internal/store/secondary.go:855-872 | an update stores what was typed, a blank status kept, and recounts |
| `DeskCalls.DeleteSchemeVerdict` | internal/store/secondary.go:874-884 | a scheme is a conflict to delete exactly if one of the 5000 newest invoices is confirmed under it |
| `VanClose.ConfirmedCloseIsFinal` | internal/store/secondary.go:712-802 | over every run of any calls, each stored close is sound (rounded variances, flags that say whether they vanish, a confirmed one balanced or explained twice over) and a confirmed one is never changed or removed again |
| `VanClose.IdentityExact` | internal/store/secondary.go:703-712 | every sound close whose two counted figures are hundredths satisfies loaded = sold + returned + remaining + variance exactly |
| `VanClose.VarianceIsMissingStock` | internal/store/secondary.go:712-731 | while the load's sales are covered, the variance is the on-hand stock less what was handed back and counted, so the close balances if and only if these agree |
| `VanClose.FiguresFromLedger` | internal/store/secondary.go:714-725 | loaded and net sold are the ledger's sums, whatever the form said |
| `VanCalls.CreateCloseVerdict` | internal/store/secondary.go:712-770 | a close is invalid without a known load and a conflict exactly if it confirms a gap of half a cent or more, in goods or cash, that it does not explain; it is stored with the ledger's figures, both gaps in hundredths, and a status that follows from them unless confirmed |
| `VanCalls.UpdateCloseVerdict` | internal/store/secondary.go:772-790 | a confirmed close takes no edit; any other is closed again as typed, on the load typed or else its own |
| `VanCalls.DeleteCloseVerdict` | internal/store/secondary.go:792-802 | a close is deleted if and only if it exists and is not confirmed |
| `Credit.CreateCreditGate` | internal/store/secondary.go:350-382 | after an accepted confirmed invoice on credit, the outlet is approved and its refreshed balance is within the limit, or a supervisor override with a reason was given by someone who may |
| `Credit.UpdateCreditGate` | internal/store/secondary.go:350-382 | the same after an update that keeps the outlet, payments already made on the invoice counted |
| `Credit.GateSeenOnOutlet` | internal/store/secondary.go:259-275 | the balance the gate speaks of is the one the outlet row then shows |
| `Credit.MovedInvoiceGateIff` | internal/store/secondary.go:367-374 | an accepted move of a confirmed invoice on credit, not overridden, leaves the new outlet owing its debt plus what the invoice is unpaid by, so within its limit if and only if these two fit in it |
| `Limits.MovePassesLimit` | internal/store/secondary.go:367-374 | from the empty store, for any amount above the limit: an unpaid invoice is moved on credit to a debt-free outlet without override and leaves it owing all of that amount |
| `InvoiceCalls.InvoiceVerdict` | internal/store/secondary.go:313-398 | a form on a known outlet that comes to an amount is accepted if and only if it rewrites no confirmed amount, its load is known and holds the goods, credit is allowed and its scheme is known, active and open to the outlet; the first objection decides between invalid and conflict; what is kept is what was typed, with status, amount, terms, answerer and scheme id filled in |
| `InvoiceCalls.UnbillableInvalid` | internal/store/secondary.go:319-333 | a form on no known outlet, or that comes to no amount, is invalid |
| `InvoiceCalls.LineMeans` | internal/store/secondary.go:328-330 | the amount of a line is quantity times price to the nearest hundredth, halves away from zero |
| `InvoiceCalls.CreditTerms` | internal/store/secondary.go:52-54 | terms give credit exactly if none of cash, cod and immediate stands anywhere in them |
| `InvoiceCalls.FindSchemeIff` | internal/store/secondary.go:277-292 | a reference finds the scheme of that id, or without one the first of that name among the 5000 newest, and nothing else |
| `InvoiceCalls.CreateStores` | internal/store/secondary.go:400-417 | a create appends the completed form under the next number, owing what its payments leave and paid exactly if that is nothing, or is refused and changes nothing |
| `InvoiceCalls.UpdateStores` | internal/store/secondary.go:419-452 | an update is refused for want of the invoice, for what the checks object to, or for voiding an invoice whose newest collection is live, and then changes nothing; otherwise the completed form replaces the invoice under its id |
| `InvoiceCalls.DeleteVerdict` | internal/store/secondary.go:454-469 | an invoice is deleted if and only if it exists and is not invoiced, paid or confirmed |
| `InvoiceCalls.TermsStored` | internal/store/secondary.go:350-358 | an accepted invoice is stored on the terms typed, else on its outlet's, else on cash on delivery |
| `InvoiceCalls.CreateHonoursCredit` | internal/store/secondary.go:350-382 | if the terms typed, or with none typed the outlet's, give credit, an accepted confirmed invoice leaves an approved outlet owing no more than its limit unless an override was asked for, with a reason, by someone who may |
| `InvoiceCalls.UpdateHonoursCredit` | internal/store/secondary.go:350-382 | so does an accepted update that keeps the outlet |
| `Credit.NoNegativesOverRuns` | internal/store/secondary.go:477-695 | over every run in which no negative credit is typed on a credited return, no payment or credit is negative and every invoice amount is positive, which is what the gate asks of them |
| `SplitReturns.ReturningInPiecesSettles` | internal/store/secondary.go:597-650 | sending an uncollected invoice back in n accepted credited pieces of defaulted credit that add up to its quantity leaves at most round2(n * 0.005) on the stored invoice |
| `SplitReturns.PiecesCredit` | internal/store/secondary.go:622-624 | n defaulted credits differ from the price of their total quantity by at most n half-cents |
| `ReturnCalls.CreateVerdict` | internal/store/secondary.go:580-650 | a return is accepted if and only if its reason is one of the five, something comes back, the invoice named exists and the outlet, typed or the invoice's, is known; goods of two reasons are restocked and of three written off, and a credit not typed is the returned part of the invoice's amount |
| `ReturnCalls.UpdateVerdict` | internal/store/secondary.go:652-676 | an edit is a conflict exactly if it would change the quantity or a typed credit of a credited return without cancelling it, and is otherwise judged and stored as a create |
| `ReturnCalls.DeleteVerdict` | internal/store/secondary.go:678-695 | a return is deleted if and only if it exists and is not credited |
| `ReturnCalls.CreditedStands` | internal/store/secondary.go:659-662 | through an accepted edit that does not cancel it, a credited return keeps its quantity and, unless the form leaves it blank, its credit, to the hundredth |
| `Loads.NormaliseTwice` | internal/store/secondary.go:84-110 | normalising a van load twice equals once if and only if no positive quantity vanished in rounding (or the batches round to nothing too) |
| `Loads.NormalisedHeadline` | internal/store/secondary.go:84-110 | the stored batches are a permutation of the given ones with the nearest expiry in front, a blank headline is that batch, a blank quantity is the batches' total |
| `Loads.SortKeepsTotal` | internal/store/secondary.go:95-101 | sorting the batches keeps their total quantity |
| `VanCalls.CreateLoadVerdict` | internal/store/secondary.go:84-124 | a load is accepted if and only if it has a vehicle and a typed quantity or batches; it is stored with its batches in the stable order of expiry, blanks of its headline from the first, and the quantity typed or else their total in hundredths |
| `VanCalls.UpdateLoadVerdict` | internal/store/secondary.go:126-144 | an edit is a conflict exactly if it would change the quantity of a load something was sold from |
| `VanCalls.DeleteLoadVerdict` | internal/store/secondary.go:146-152 | a load is deleted if and only if it exists and nothing was sold from it |
| `Fefo.SortIsStable` | internal/store/docs.go:193-205 | the result is a permutation in which nothing stands after an item it should precede and items of equal expiry keep their order |
| `Fefo.SortIsTheOnlyStableSort` | internal/store/docs.go:193-205 | a list is a stable sort under the comparator if and only if it is this one, so the library's algorithm has no choice |
| `Fefo.SortedShape` | internal/store/docs.go:193-205 | non-blank expiries stand ascending in front and blanks at the end |
| `Fefo.TextLessIff` | internal/store/docs.go:193-206 | the order of expiry texts is that of dictionaries: they agree up to a place where the first ends or has the smaller character |
| `Fefo.SortInPlace` | internal/store/docs.go:194-205 | the array afterwards is the stable sort of what it held |
| `Money.RoundFixesCents` | internal/store/secondary.go:48 | rounding to hundredths, halves away from zero, leaves multiples of 0.01 alone |
| `Money.RoundNear` | internal/store/secondary.go:48 | rounding moves a figure by at most half a cent, to a whole number of cents |
| `Money.RoundMeans` | internal/store/secondary.go:48 | rounding gives exactly the nearest hundredth, halves away from zero |
| `Money.CentsGap` | internal/store/secondary.go:505-509 | between multiples of 0.01 the tolerances hide nothing |
| `Tables.CreateValid` | internal/store/docs.go:108-116 | a minted row goes in under an id that is not in use, and the order stays duplicate-free over exactly the map's keys |
| `DocTables.TableValidOverRuns` | internal/store/docs.go:108-191 | over every run of table calls, order is duplicate-free and holds exactly the keys, each row sits under its own id and no id still to be minted is in use |
| `DocTables.MintedIdsNeverReused` | internal/store/docs.go:180-191 | no id is ever minted twice, whatever was deleted in between |
| `DocTables.InsertAppends` | internal/store/docs.go:108-116 | an insert appends one entry to the insertion-ordered map |
| `DocTables.UpdateReplacesInPlace` | internal/store/docs.go:127-138 | an update replaces one entry where it stands |
| `DocTables.DeleteRemovesOne` | internal/store/docs.go:154-170 | a delete removes one entry and keeps the others in order |
| `DocTables.DocTable.List` | internal/store/docs.go:46-63 | the loop hands back the requested page of the filtered rows, newest first, and their total |
| `DocTables.DocTable.Delete` | internal/store/docs.go:154-170 | map and order lose exactly that id, and a missing id is reported |
| `DocTables.DocTable.NextId` | internal/store/docs.go:182-191 | the minted id is in no row and will not be minted again |
| `Ids.MintIdInjective` | internal/store/docs.go:190 | zero-padded decimal printing is injective |
| `Ids.MintIdShape` | internal/store/docs.go:190 | a minted id is the prefix, a dash and the number in five digits, or in as many as it needs if it needs more |
| `Paging.PagingLossless` | internal/store/docs.go:46-63 | the lists asked for at offsets 0, k, 2k, ... up to the reported total, put together, are the rows the filter accepts, newest first |
| `Paging.SameTotalOnEveryPage` | internal/store/docs.go:46-63 | the filtered rows, and so the total reported with every page, do not depend on the page asked for |
| `Paging.PageBounds` | internal/store/store.go:153-164 | a page holds k rows, or what is left |
| `Paging.KeptComplete` | internal/store/docs.go:46-63 | every stored row the filter accepts is listed |
| `Paging.KeptNewestFirst` | internal/store/docs.go:46-63 | rows inserted later are listed earlier |
| `Paging.KeptOnce` | internal/store/docs.go:46-63 | no row is listed twice |
| `Paging.KeptExactly` | internal/store/docs.go:46-63 | the filtered rows are exactly the stored ones that have every column the filter does not leave blank |
| `Paging.ListedStretch` | internal/store/docs.go:46-63 | a list is the stretch of them from the offset on, 500 rows unless a limit is given |
| `Lists.StatusWords` | internal/models/secondary.go:39 | every status word is the text of its status, so that a list filtered by it finds it |
| `Lists.LoadsListed` | internal/models/secondary.go:39 | a stored load is listed exactly by its status and vehicle |
| `Lists.InvoicesListed` | internal/models/secondary.go:72-74 | an invoice by its status, outlet and load |
| `Lists.CollectionsListed` | internal/models/secondary.go:93 | a collection by its status, outlet and invoice |
| `Lists.ReturnsListed` | internal/models/secondary.go:114 | a return by its status, outlet and invoice |
| `Lists.ClosesListed` | internal/models/secondary.go:142 | a close by its status and load |
| `Lists.SchemesListed` | internal/models/secondary.go:164 | a scheme by its status |
| `Repositories.Repository.VanOnHand` | internal/store/secondary.go:155-187 | the loops compute loaded less confirmed sales plus returns, floored and rounded, or report the missing load |
| `Repositories.Repository.InvoiceOutstanding` | internal/store/secondary.go:213-232 | the loops compute the recomputed outstanding the caches are compared with |
| `Repositories.Repository.RefreshInvoice` | internal/store/secondary.go:236-257 | in place, the row, the outlet slice and the scheme table become those of the specification, and the stored row is returned; `Settling.RefreshSettles` says what that row is |
| `Repositories.Repository.RefreshOutletBalance` | internal/store/secondary.go:259-275 | every outlet of that id and no other gets the recomputed balance |
| `Repositories.Repository.RefreshScheme` | internal/store/secondary.go:812-837 | the scheme is recounted and flips between active and exhausted as the counts say |
| `Repositories.Repository.ValidateInvoice` | internal/store/secondary.go:313-398 | the checks refuse with the specification's error, or return the completed document |
| `Repositories.Repository.CreateInvoice` | internal/store/secondary.go:400-417 | whole new state and result of a create, refusals included; `InvoiceCalls` says what they are on the form's fields |
| `Repositories.Repository.UpdateInvoice` | internal/store/secondary.go:419-442 | whole new state and result of an update, refusals included |
| `Repositories.Repository.DeleteInvoice` | internal/store/secondary.go:454-469 | whole new state and result of a delete, refusals included |
| `Repositories.Repository.ValidateCollection` | internal/store/secondary.go:477-511 | the checks, in the source's order, with the own earlier amount set aside |
| `Repositories.Repository.CreateCollection` | internal/store/secondary.go:513-526 | whole new state and result |
| `Repositories.Repository.UpdateCollection` | internal/store/secondary.go:528-559 | whole new state and result, both invoices refreshed; `CollectionCalls` says what they are on the form's fields |
| `Repositories.Repository.DeleteCollection` | internal/store/secondary.go:561-576 | whole new state and result |
| `Repositories.Repository.CreateReturn` | internal/store/secondary.go:635-650 | whole new state and result |
| `Repositories.Repository.UpdateReturn` | internal/store/secondary.go:652-676 | whole new state and result |
| `Repositories.Repository.DeleteReturn` | internal/store/secondary.go:678-695 | whole new state and result |
| `Repositories.Repository.CloseVanRecon` | internal/store/secondary.go:712-756 | the close with its figures, or the refusal of an unexplained confirmation |
| `Repositories.Repository.UpdateVanRecon` | internal/store/secondary.go:772-790 | whole new state and result |
| `Repositories.Repository.DeleteVanRecon` | internal/store/secondary.go:792-802 | whole new state and result |
| `Repositories.Repository.CreateVanLoad` | internal/store/secondary.go:112-124 | whole new state and result, batches sorted in place |
| `Repositories.Repository.UpdateVanLoad` | internal/store/secondary.go:126-144 | whole new state and result |
| `Repositories.Repository.DeleteVanLoad` | internal/store/secondary.go:146-152 | whole new state and result |
| `Repositories.Repository.UpdateScheme` | internal/store/secondary.go:855-872 | whole new state and result |
| `Repositories.Repository.DeleteScheme` | internal/store/secondary.go:874-884 | whole new state and result |
| `Repositories.Repository.CreateOutlet` | internal/store/memory_resources.go:96-120 | whole new state and result |
| `Repositories.Repository.PatchOutlet` | internal/store/memory_writes.go:10-24 | the first outlet of that id is patched, its balance kept |
| `Repositories.Repository.DeleteOutlet` | internal/store/memory_writes.go:116-130 | the first outlet of that id goes |
| `DeskCalls.CreateOutletVerdict` | internal/store/memory_resources.go:96-120 | an outlet is accepted if and only if its distributor is known and its beat blank or known; it is stored as typed under the next number, owing nothing |
| `DeskCalls.PatchOutletVerdict` | internal/store/memory_writes.go:10-24 | a patch is invalid exactly for an unknown beat; otherwise the first outlet of that id takes what the patch names and keeps the rest |
| `DeskCalls.DeleteOutletVerdict` | internal/store/memory_writes.go:116-130 | the first outlet of that id goes, and only a missing one is reported |
| `Repositories.Repository.Serve` | internal/store/secondary.go:74-884 | every call takes the object's state through one specification step, and coherent caches stay coherent |
| `Repositories.SumPaid` | internal/store/secondary.go:218-230 | the two accumulating loops compute live collections plus credited returns |
| `Reachable.EveryRun` | internal/store/secondary.go:32-46 | from the empty store, after any calls the caches agree and closes are sound, and confirmed closes survive any further calls |
| `Reachable.EachOverItsRuns` | internal/store/secondary.go:32-46 | from the empty store, one invoice is never over-collected, one load never oversold and one scheme never miscounted over the runs orderly for it |
| `Reachable.EveryOrderlyRun` | internal/store/secondary.go:32-46 | from the empty store, runs orderly for all never over-collect, oversell or miscount anything |
| `Reachable.GateAfterRun` | internal/store/secondary.go:350-382 | after any run in which no negative credit is typed, an accepted confirmed invoice on credit, on the terms typed or with none typed the outlet's, leaves its outlet approved and within its limit or overridden, on a create and on an update that keeps the outlet |
| `Outbox.Store.ClaimBatch` | internal/outbox/outbox.go:50-88 | exactly the due unlocked rows in id order up to the limit (32 if none is given) are claimed: one more attempt, next due a lease from now; no other row changes |
| `Outbox.Store.DrainOnce` | internal/outbox/outbox.go:198-213 | a drain claims, then sends and marks row by row on a moving clock, marks lost or not, and leaves the table, clock and outcome of its specification |
| `Outbox.MarkedEach` | internal/outbox/outbox.go:198-213 | over a drain every claimed row is marked as its own send and mark turned out, at one instant of the drain, and no other row changes |
| `Outbox.DrainMarks` | internal/outbox/outbox.go:198-213 | over a drain a claimed row gains one attempt; it is dispatched exactly if its send succeeds and its mark is not lost, due a second after the claim if the mark is lost, and due after the retry delay if the send fails; no other row changes |
| `Outbox.DrainReports` | internal/outbox/outbox.go:198-213 | a drain reports as many rows as were waiting, up to the batch, or a failed claim, which changes nothing |
| `Outbox.FiringsInTurn` | internal/outbox/outbox.go:162-196 | every firing of the loop starts from the table the one before it left, and each one's outcome is reported |
| `Outbox.DrainsAgainIff` | internal/outbox/outbox.go:179-187 | a firing drains a second time exactly if the first claim found 32 rows or more |
| `Outbox.RetryDelays` | internal/outbox/outbox.go:204-224 | up to 33 attempts the retry delay is 2, 2, 4, ... 256 seconds and then five minutes |
| `Outbox.Publisher.Fire` | internal/outbox/outbox.go:162-196 | a firing drains, drains once more if the batch was full, and sets the interval: base after work, doubled up to the cap after an idle or failed drain |
| `Outbox.Publisher.Run` | internal/outbox/outbox.go:162-196 | the polling loop leaves the table its firings' drains leave in turn, and the interval in force is that of their outcomes |
| `Outbox.PickedComplete` | internal/outbox/outbox.go:54-61 | a due unlocked row is left out only when the limit is used up |
| `Outbox.PickedExactly` | internal/outbox/outbox.go:54-61 | a due unlocked row is claimed if and only if fewer due unlocked rows than the limit are older |
| `Outbox.OldestFirst` | internal/outbox/outbox.go:54-61 | an older due row is never passed over for a younger one |
| `Outbox.ClaimedIff` | internal/outbox/outbox.go:50-66 | a row is claimed exactly if it is not dispatched, its time has come, nobody holds it and fewer such rows than the limit, 32 if none is given, are older |
| `Outbox.OverflowedRetryIsDueAtOnce` | internal/outbox/outbox.go:204-206 | past 33 attempts a failed mark can leave the row due at once |
| `OutboxProtocol.SoundOverRuns` | internal/outbox/outbox.go:50-106 | with any publishers, crashes, lost marks and clock: sends plus claims in flight never exceed attempts, a dispatched row was sent at least once, and up to 33 attempts claims of a row are a second apart and a pending row is due within five minutes |
| `OutboxProtocol.NothingLost` | internal/outbox/outbox.go:90-106 | over every run no row disappears, dispatched never reverts and attempts never shrink |
| `OutboxProtocol.SendCounts` | internal/outbox/outbox.go:203-204 | a send is counted, as a delivery exactly if it succeeds, and leaves the row as it was |
| `OutboxProtocol.CrashForgets` | internal/outbox/outbox.go:198-213 | a publisher that dies leaves the table as it is and starts over with nothing in hand |
| `OutboxProtocol.MarkDispatches` | internal/outbox/outbox.go:90-97 | a mark that arrives after a send that succeeded dispatches the row |
| `OutboxProtocol.MarkPutsOff` | internal/outbox/outbox.go:99-106 | after a send that failed it puts the row off by the retry delay, and a lost mark leaves it as claimed |
| `OutboxProtocol.DispatchedIsFinal` | internal/outbox/outbox.go:54-61 | over every run, whatever the publishers do, a dispatched row is never claimed again |
| `OutboxProtocol.SentIsFinal` | internal/outbox/outbox.go:90-97 | so a row whose send succeeded and whose mark arrived is not claimed again over any run |
| `OutboxProtocol.ClaimLeases` | internal/outbox/outbox.go:54-66 | a claim gives exactly the rows it takes one more attempt and a lease of a second |
| `OutboxProtocol.ClaimRate` | internal/outbox/outbox.go:62-66 | a row at up to 33 attempts is claimed at most 1 + W times in W seconds |
| `OutboxProtocol.ClaimedAtOnce` | internal/outbox/outbox.go:204-224 | one row and one publisher: from 34 to 62 attempts, but for the delays that wrap to a positive number, a row whose send fails is due at once and claimed again at the very same instant |
| `OutboxProtocol.LeaseEndsAt33` | internal/outbox/outbox.go:50-106 | a run from the start, 33 failures each given the longest delay and one more, in which a row is claimed twice at one instant |
| `OutboxProtocol.PendingComesBack` | internal/outbox/outbox.go:54-61 | five minutes on, an unlocked pending row is due, and taken by a claim if and only if fewer due unlocked rows than the batch holds are older, however many rows the table holds |
| `OutboxProtocol.DrainIsARun` | internal/outbox/outbox.go:198-213 | a publisher's drain leaves the table and clock of a protocol run: claim, then send, wait and mark for each claimed row |
| `Backoff.BackoffExact` | internal/outbox/outbox.go:215-224 | for up to 33 attempts the delay is min(2^attempts s, max) without overflow |
| `Backoff.BackoffMonotone` | internal/outbox/outbox.go:215-224 | and it grows with the attempts |
| `Backoff.BackoffMeansItIff` | internal/outbox/outbox.go:215-224 | up to 62 attempts the delay is what the formula says if and only if attempts are at most 33 or one of eight values that wrap to a positive number; otherwise it is not positive |
| `Backoff.IntervalBounded` | internal/outbox/outbox.go:149-160 | the polling interval stays between 2 s and 8 s over every sequence of drain outcomes |
| `Backoff.IntervalMeans` | internal/outbox/outbox.go:162-196 | it is back at 2 s exactly after work, and at 8 s after two idle or failed polls |
| `Backoff.IntervalSeconds` | internal/outbox/outbox.go:149-196 | it is two seconds at the start and after work, four after one idle or failed poll, eight after more |
| `Migrate.ResumeEqualsUninterrupted` | internal/migrate/migrate.go:33-132 | a run that dies anywhere but between a body's own commit and its ledger row is finished by the next one exactly like an uninterrupted run, same ledger and executed bodies, if and only if the shared ledger is not read late |
| `Migrate.CrashesDoNotShow` | internal/migrate/migrate.go:33-80 | any number of clean deaths and restarts ends like one uninterrupted run, with no body executed twice |
| `Migrate.DeathsAreClean` | internal/migrate/migrate.go:88-132 | with no self-committing bodies, and tables or a closed ledger to begin with, every death is clean |
| `Migrate.TornRunsTwice` | internal/migrate/migrate.go:251-269 | a death between a body's own commit and the ledger row makes that body stand in the executed log twice, and every other body as often as in an uninterrupted run |
| `Migrate.UpAgainDoesNothing` | internal/migrate/migrate.go:33-80 | a further Up changes nothing and fails exactly if this one did, unless the shared ledger is read late |
| `Migrate.SuccessIsFinal` | internal/migrate/migrate.go:33-80 | after a successful Up a further one changes nothing |
| `Migrate.MismatchStopsThere` | internal/migrate/migrate.go:65-71 | a failed Up names a file whose recorded checksum is neither its own nor healed; earlier files are done, that one and later ones are as they were |
| `Migrate.SuccessDoesAll` | internal/migrate/migrate.go:56-79 | a successful Up leaves the ledger agreeing with every file, healed ones re-stamped |
| `Migrate.FailsIff` | internal/migrate/migrate.go:55-79 | Up fails if and only if some file's version stands in the ledger under a checksum that is neither the file's own nor listed as healed for it |
| `Migrate.HealedIsRestamped` | internal/migrate/migrate.go:65-78 | a file recorded under a healed checksum, with none before it that fails, ends under its own checksum, and that Up does not execute its body |
| `Migrate.UpExecutesMissing` | internal/migrate/migrate.go:56-63 | a successful Up executes exactly the bodies the seeded ledger lacks, in file order |
| `Migrate.SeededMeans` | internal/migrate/migrate.go:88-132 | seeding adds exactly the files the shared ledger lists, if there are tables already, each under its own checksum, and alters no entry |
| `Migrate.SeedingResumes` | internal/migrate/migrate.go:122-131 | seeding interrupted and redone is seeding |
| `Migrate.Database.WorkThrough` | internal/migrate/migrate.go:55-79 | the loop executes exactly the missing bodies in order, re-stamps healed files and stops at the first other mismatch |
| `Migrate.Database.Up` | internal/migrate/migrate.go:33-80 | seeding, then the loop over a ledger read once, leave what the specification says, and the versions listed are those executed |
| `Schedules.SoundOverRuns` | internal/store/domain_writes.go:384-419 | with any replicas on any clocks, each claim of a schedule answers the due time its predecessor set a day after itself |
| `Schedules.ClaimedOncePerDue` | internal/store/domain_writes.go:384-419 | no due time of a schedule is handed to two callers, and two claims of it are at least 24 h apart |
| `Schedules.ClaimRate` | internal/store/domain_writes.go:384-419 | a schedule is claimed at most 1 + W / 24 h times in any window of length W |
| `Schedules.ClaimedIff` | internal/store/domain_writes.go:398-406 | a schedule is claimed exactly if it is active and its time has come, for the time it was due, and is then due a day after the claim |
| `Schedules.CreatedAs` | db/migrations/0005_domain_writes.sql:33-43 | a new schedule is active as asked and first due a day after it was made |
| `Schedules.InactiveIsNeverClaimed` | internal/store/domain_writes.go:403 | over every run an inactive or deleted schedule is never claimed again |
| `Schedules.Scheduler.DueReportSchedules` | internal/store/domain_writes.go:398-418 | the statement claims and returns exactly the due rows it did not find locked |
| `Spacing.WindowHolds` | internal/store/domain_writes.go:396-406 | instants a gap apart: a window of width W holds k of them only if (k - 1) gaps fit it |
| `Commercial.RecoveryDoesNotShow` | internal/consumer/commercial.go:46-64 | on events with ids, with failures of any kind anywhere, between the link and the signal too, and any redelivery: once every failure has been made good, links and signal ids are those of one pass, and the signals too unless events with different signals share an id |
| `Commercial.ReplayDoesNotShow` | internal/consumer/commercial.go:46-64 | while no handler fails, on events with ids, whatever was redelivered, however often and from wherever, a consumer that has caught up holds exactly what one pass over the handled events leaves, even where signal ids collide |
| `Commercial.LinksOverRuns` | internal/store/commercial_consumer.go:53-68 | with or without failures, each outlet shows at all times a link it had at some point from the last settled event on |
| `Commercial.SignalsOverRuns` | internal/store/commercial_consumer.go:78-98 | with or without failures, on events with ids the store holds the signals it started with, one under the id of every settled event, and none that an event handled so far did not leave |
| `Commercial.FirstDelivery` | internal/store/commercial_consumer.go:35-98 | the first delivery of an event adds one signal under the digest of its id, of the kind, type and strength of its event and about the entity it names |
| `Commercial.SyncLinks` | internal/store/commercial_consumer.go:53-63 | a sync that names both gives its link to the outlet it names, and every other outlet keeps its own |
| `Commercial.HalfDone` | internal/store/commercial_consumer.go:57-68 | a handler that fails between its two statements has set the links and left no signal |
| `Commercial.UnnamedDelivery` | internal/store/commercial_consumer.go:79-85 | an event whose id is blank leaves a signal of its own every time |
| `Commercial.CommitsIff` | internal/consumer/commercial.go:46-64 | an event is committed exactly if the commit arrives and it is well formed and either handled or not the handler's business |
| `Commercial.NothingToDo` | internal/consumer/commercial.go:73-92 | the service's own events, unknown ones and malformed ones leave no trace |
| `Commercial.ComesBackIff` | internal/consumer/commercial.go:58-62 | a restart comes back to an event, failed or not, if and only if neither it nor a later one has been committed |
| `Commercial.AgainIsNothingIff` | internal/store/commercial_consumer.go:70-88 | applying an event a second time changes nothing if and only if it is skipped or its id is not blank |
| `Commercial.Consumer.HandleEnvelope` | internal/consumer/commercial.go:73-92 | one handler call, with the database up, down or failing between its two statements, leaves the specification's store and reports its success |
| `Commercial.Consumer.Turn` | internal/consumer/commercial.go:46-64 | one turn fetches, handles and commits as the specification's step does, the handler failing or the commit lost |
| `Commercial.Consumer.RestartFromCommitted` | internal/consumer/commercial.go:34-44 | a restarted reader of the group goes on from what was committed, keeping the store |

## Left out

- Postgres branches of the document tables and outlets: plain reads and writes by SQL. Of SQL only the outbox, schedule, migration-ledger, signal and link statements are modelled, by their atomic effect.
- Interleaved requests on the ledger: the source holds no lock or transaction across tables, so the guarantees are per completed call.
- Floating point: amounts are exact reals, so the last-bit effects of float64 sums, products and rounding are not captured.
- Text handling: trimming, case folding and the replacement of blanks in reasons and methods happen before the model's values; the white space of event ids is the ASCII kind.
- Timestamps, notes, payment methods, deposit references, alerts and audit rows: carried along by the source without a rule.
- Fields an outlet create or patch only copies (name, address, channel, contact and the like).
- Aliasing: sorting the batches of a van load reorders the caller's slice in the source; here it reorders an array of the method's own.
- The library's sorting algorithm for long slices; any stable sort gives the same result (`Fefo.SortIsTheOnlyStableSort`).
- A negative list offset, which is a slice fault in the source.
- Counter widths: table counters and attempts are unbounded integers.
- Several partitions of the commercial topic: events are one ordered log, and what an outlet's link ends as depends on that order.
- Attempts above 62, where the conversion of the power to an integer depends on the platform; the protocol takes any answer.
- Database clocks inside one statement: a claim, mark or schedule update reads its clock and takes effect at one instant, although a mark can wait for a row lock.
- The payload, keys and error texts of outbox rows, and the action hints of signals.
- Enqueueing without a pool, which reports an error.
- Two migrators at work at once (the duplicate-key error), a body that fails (it stops the loop like a death between files) and bodies that drop the service's last table.
- The digests: SHA-256 is a function parameter, checksums are the strings files carry.
- Rep targets, damage claims, promotions, claims and dispatches: field copying or one formula each.
- Handlers, routing, authentication, middleware, rendering, storage and Kafka plumbing.
