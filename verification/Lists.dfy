/** What the lists of the service ask for: status, outlet and the document referred to. */
module Lists {
  import opened Ledger
  import opened Paging
  import opened Tables

  /** The status a word stands for. */
  function StatusNamed(word: string): Status
  {
    if word == "" then Blank
    else if word == "draft" then Draft else if word == "invoiced" then Invoiced
    else if word == "paid" then Paid else if word == "confirmed" then Confirmed
    else if word == "void" then Void else if word == "collected" then Collected
    else if word == "received" then Received else if word == "credited" then Credited
    else if word == "cancelled" then Cancelled else if word == "active" then Active
    else if word == "exhausted" then Exhausted else if word == "inactive" then Inactive
    else if word == "open" then Open else if word == "balanced" then Balanced
    else if word == "exception" then Exception else if word == "loaded" then Loaded
    else Other(word)
  }

  /** Every word is the text of its status, so lists filtered by status find it. */
  lemma StatusWords(word: string)
    ensures StatusText(StatusNamed(word)) == word
  {
  }

  ghost predicate Stored<T>(t: Table<T>, x: T)
  {
    exists id :: id in t.order && id in t.rows && t.rows[id] == x
  }

  /** A document is listed exactly if it is stored and has what the filter names: a load its
      vehicle, an invoice its outlet and load, a payment or return its outlet and invoice,
      a close its load, a scheme its status only. */
  lemma LoadsListed(s: State, f: DocFilter, x: VanLoad)
    ensures x in Kept(s.loads, LoadKeys, f)
       <==> && Stored(s.loads, x)
            && f.status in {"", StatusText(x.status)} && f.outlet == "" && f.ref in {"", x.vehicleId}
  {
    KeptExactly(s.loads, LoadKeys, f, x);
  }

  lemma InvoicesListed(s: State, f: DocFilter, x: Invoice)
    ensures x in Kept(s.invoices, InvoiceKeys, f)
       <==> && Stored(s.invoices, x)
            && f.status in {"", StatusText(x.status)} && f.outlet in {"", x.outletId} && f.ref in {"", x.vanLoadId}
  {
    KeptExactly(s.invoices, InvoiceKeys, f, x);
  }

  lemma CollectionsListed(s: State, f: DocFilter, x: Collection)
    ensures x in Kept(s.collects, CollectionKeys, f)
       <==> && Stored(s.collects, x)
            && f.status in {"", StatusText(x.status)} && f.outlet in {"", x.outletId} && f.ref in {"", x.invoiceId}
  {
    KeptExactly(s.collects, CollectionKeys, f, x);
  }

  lemma ReturnsListed(s: State, f: DocFilter, x: OutletReturn)
    ensures x in Kept(s.rets, ReturnKeys, f)
       <==> && Stored(s.rets, x)
            && f.status in {"", StatusText(x.status)} && f.outlet in {"", x.outletId} && f.ref in {"", x.invoiceId}
  {
    KeptExactly(s.rets, ReturnKeys, f, x);
  }

  lemma ClosesListed(s: State, f: DocFilter, x: VanRecon)
    ensures x in Kept(s.recons, ReconKeys, f)
       <==> && Stored(s.recons, x)
            && f.status in {"", StatusText(x.status)} && f.outlet == "" && f.ref in {"", x.vanLoadId}
  {
    KeptExactly(s.recons, ReconKeys, f, x);
  }

  lemma SchemesListed(s: State, f: DocFilter, x: Scheme)
    ensures x in Kept(s.schemes, SchemeKeys, f)
       <==> && Stored(s.schemes, x)
            && f.status in {"", StatusText(x.status)} && f.outlet == "" && f.ref == ""
  {
    KeptExactly(s.schemes, SchemeKeys, f, x);
  }
}
