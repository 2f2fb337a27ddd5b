/** At-least-once consumption of commercial events: the handlers of
    internal/store/commercial_consumer.go under the fetch, apply, commit loop of
    internal/consumer/commercial.go. */
module Commercial {

  /** The fields a handler reads out of the payload; blank when absent. */
  datatype Payload =
    | DealWon(dealId: string, account: string)
    | LeadConverted(leadId: string, name: string)
    | OutletSynced(crmRef: string, dmsRef: string, name: string)
    | Ignored

  datatype Envelope = Malformed | Envelope(id: string, source: string, payload: Payload)

  datatype Signal = Signal(kind: string, entityId: string, entityName: string, signalType: string, strength: string)

  /** `links` is the crm_ref of each outlet there is; `unnamed` the signals under random ids. */
  datatype Store = Store(signals: map<string, Signal>, links: map<string, string>, unnamed: seq<Signal>)

  const OWN_SOURCE := "iag.dms"

  predicate IsSpace(c: char)
  {
    c == ' ' || c == '\t' || c == '\n' || c == '\r'
  }

  /** Nothing but white space. */
  predicate IsBlank(s: string)
  {
    forall i :: 0 <= i < |s| ==> IsSpace(s[i])
  }

  function SignalId(digest: string -> string, id: string): string
  {
    "SIG-" + digest(id)
  }

  function SignalOf(p: Payload): Signal
    requires p != Ignored
  {
    match p
    case DealWon(dealId, account) => Signal("commercial", dealId, account, "deal.won", "high")
    case LeadConverted(leadId, name) => Signal("commercial", leadId, name, "lead.converted", "medium")
    case OutletSynced(_, dmsRef, name) => Signal("bridge", dmsRef, name, "outlet.synced", "medium")
  }

  /** `crm_ref = $2 WHERE id = $1 OR crm_ref = $2`: rows the second disjunct finds keep what they have. */
  function Linked(links: map<string, string>, dmsRef: string, crmRef: string): (out: map<string, string>)
    ensures out.Keys == links.Keys
  {
    map o | o in links :: if o == dmsRef || links[o] == crmRef then crmRef else links[o]
  }

  /** Insert, doing nothing when the id is taken. */
  function Inserted(s: Store, digest: string -> string, id: string, sig: Signal): Store
  {
    if IsBlank(id) then s.(unnamed := s.unnamed + [sig])
    else if SignalId(digest, id) in s.signals then s
    else s.(signals := s.signals[SignalId(digest, id) := sig])
  }

  predicate Skipped(e: Envelope)
  {
    e == Malformed || e.source == OWN_SOURCE || e.payload == Ignored
  }

  /** The link update of a sync; other events have none. */
  function LinkPart(s: Store, e: Envelope): Store
    requires !Skipped(e)
  {
    if e.payload.OutletSynced? && e.payload.dmsRef != "" && e.payload.crmRef != ""
    then s.(links := Linked(s.links, e.payload.dmsRef, e.payload.crmRef)) else s
  }

  function Applied(s: Store, digest: string -> string, e: Envelope): Store
  {
    if Skipped(e) then s else Inserted(LinkPart(s, e), digest, e.id, SignalOf(e.payload))
  }

  /** Events as they are queued, and the store before the first of them. */
  datatype Feed = Feed(s0: Store, digest: string -> string, log: seq<Envelope>)

  /** One pass over the first n events. */
  function OnePass(f: Feed, n: nat): Store
    requires n <= |f.log|
  {
    if n == 0 then f.s0 else Applied(OnePass(f, n - 1), f.digest, f.log[n - 1])
  }

  /** What a first delivery leaves: one signal, under the digest of its id, with what the
      event says, and on a sync the link of the outlet it names. */
  lemma FirstDelivery(s: Store, digest: string -> string, e: Envelope)
    requires e.Envelope? && e.source != "iag.dms" && e.payload != Ignored
    requires "SIG-" + digest(e.id) !in s.signals && exists c :: c in e.id && c !in {' ', '\t', '\n', '\r'}
    ensures var t, key := Handled(s, digest, e, Up), "SIG-" + digest(e.id);
      && t.signals.Keys == s.signals.Keys + {key} && (forall k :: k in s.signals ==> t.signals[k] == s.signals[k])
      && t.unnamed == s.unnamed
      && match e.payload
         case DealWon(id, account) => t.signals[key] == Signal("commercial", id, account, "deal.won", "high")
         case LeadConverted(id, name) => t.signals[key] == Signal("commercial", id, name, "lead.converted", "medium")
         case OutletSynced(_, id, name) => t.signals[key] == Signal("bridge", id, name, "outlet.synced", "medium")
  {
  }

  /** An event without an id leaves a signal of its own every time. */
  lemma UnnamedDelivery(s: Store, digest: string -> string, e: Envelope)
    requires e.Envelope? && e.source != "iag.dms" && e.payload != Ignored
    requires forall c :: c in e.id ==> c in {' ', '\t', '\n', '\r'}
    ensures var t := Handled(s, digest, e, Up);
      t.signals == s.signals && t.unnamed == s.unnamed + [SignalOf(e.payload)]
  {
    forall i | 0 <= i < |e.id| ensures IsSpace(e.id[i]) {
      assert e.id[i] in e.id;
    }
  }

  /** A sync gives its link to the outlet it names, if it names both; outlets not named keep theirs. */
  lemma SyncLinks(s: Store, digest: string -> string, e: Envelope, o: string)
    requires e.Envelope? && e.source != "iag.dms" && e.payload != Ignored && o in s.links
    ensures var t := Handled(s, digest, e, Up);
      && o in t.links
      && t.links[o] == if e.payload.OutletSynced? && e.payload.crmRef != "" && e.payload.dmsRef == o && o != ""
                       then e.payload.crmRef else s.links[o]
  {
  }

  /** A handler that fails between its two statements has set the links and left no signal. */
  lemma HalfDone(s: Store, digest: string -> string, e: Envelope, o: string)
    requires e.Envelope? && e.source != "iag.dms" && e.payload != Ignored && o in s.links
    ensures var half, whole := Handled(s, digest, e, DownAfterLink), Handled(s, digest, e, Up);
      half.links == whole.links && half.signals == s.signals && half.unnamed == s.unnamed
    ensures Handled(s, digest, e, DownAtOnce) == s
  {
  }

  /** An event is committed exactly if the commit arrives and the event is well formed and
      either handled or not the handler's business. */
  lemma CommitsIff(w: World, f: Feed, db: Database, commitLost: bool)
    requires Shaped(w, f) && w.pos < |f.log|
    ensures var t, e := Next(w, Handle(db, commitLost), f), f.log[w.pos];
      && t.pos == w.pos + 1
      && t.committed == if !commitLost && e.Envelope? && (e.source == "iag.dms" || e.payload == Ignored || db == Up)
                        then w.pos + 1 else w.committed
  {
  }

  /** The service's own events, others' unknown ones and malformed ones leave no trace. */
  lemma NothingToDo(s: Store, digest: string -> string, e: Envelope, db: Database)
    ensures e == Malformed || e.source == "iag.dms" || e.payload == Ignored ==> Handled(s, digest, e, db) == s
  {
  }

  // ---- the consumer ----------------------------------------------------------------------

  /** `high` is how far the log has ever been handled, `settled` how far without a
      failure that was not made good since; no program reads them. */
  datatype World = World(store: Store, pos: nat, committed: nat, high: nat, settled: nat)

  /** The database answers, fails at once, or fails between the link and the signal. */
  datatype Database = Up | DownAtOnce | DownAfterLink

  datatype Event = Handle(db: Database, commitLost: bool) | Restart

  predicate Shaped(w: World, f: Feed)
  {
    w.settled <= w.pos && w.committed <= w.pos <= w.high <= |f.log|
  }

  /** What the handler leaves; an event it skips does not touch the database. */
  function Handled(s: Store, digest: string -> string, e: Envelope, db: Database): Store
  {
    if Skipped(e) then s
    else match db
      case Up => Applied(s, digest, e)
      case DownAtOnce => s
      case DownAfterLink => LinkPart(s, e)
  }

  predicate Succeeds(e: Envelope, db: Database)
  {
    e != Malformed && (Skipped(e) || db == Up)
  }

  /** Nothing is left to do for the event; a malformed one never has anything to do. */
  predicate Settles(e: Envelope, db: Database)
  {
    Skipped(e) || db == Up
  }

  function Next(w: World, e: Event, f: Feed): World
    requires Shaped(w, f)
  {
    match e
    case Restart => w.(pos := w.committed, settled := if w.committed < w.settled then w.committed else w.settled)
    case Handle(db, commitLost) =>
      if w.pos == |f.log| then w
      else World(Handled(w.store, f.digest, f.log[w.pos], db), w.pos + 1,
                 if Succeeds(f.log[w.pos], db) && !commitLost then w.pos + 1 else w.committed,
                 if w.pos == w.high then w.high + 1 else w.high,
                 if w.settled == w.pos && Settles(f.log[w.pos], db) then w.pos + 1 else w.settled)
  }

  function After(w: World, events: seq<Event>, f: Feed): (w': World)
    requires Shaped(w, f)
    ensures Shaped(w', f)
    decreases |events|
  {
    if events == [] then w else After(Next(w, events[0], f), events[1..], f)
  }

  function Start(s: Store): World
  {
    World(s, 0, 0, 0, 0)
  }

  ghost predicate AllNamed(f: Feed)
  {
    forall i :: 0 <= i < |f.log| && !Skipped(f.log[i]) ==> !IsBlank(f.log[i].id)
  }

  ghost predicate NoFailures(events: seq<Event>)
  {
    forall i :: 0 <= i < |events| ==> events[i].Restart? || events[i].db == Up
  }

  // ---- links ---------------------------------------------------------------------------------

  predicate Touches(e: Envelope, outlet: string)
  {
    !Skipped(e) && e.payload.OutletSynced? && e.payload.crmRef != "" && e.payload.dmsRef == outlet && outlet != ""
  }

  lemma LinkAfter(s: Store, e: Envelope, o: string)
    requires o in s.links && !Skipped(e)
    ensures LinkPart(s, e).links.Keys == s.links.Keys
    ensures LinkPart(s, e).links[o] == if Touches(e, o) then e.payload.crmRef else s.links[o]
  {
  }

  lemma InsertKeepsLinks(s: Store, digest: string -> string, id: string, sig: Signal)
    ensures Inserted(s, digest, id, sig).links == s.links
  {
  }

  lemma {:induction false} SameOutlets(f: Feed, n: nat)
    requires n <= |f.log|
    ensures OnePass(f, n).links.Keys == f.s0.links.Keys
  {
    if n > 0 {
      SameOutlets(f, n - 1);
    }
  }

  function LinkAt(f: Feed, k: nat, o: string): string
    requires k <= |f.log| && o in f.s0.links
  {
    SameOutlets(f, k);
    OnePass(f, k).links[o]
  }

  lemma LinkNext(f: Feed, k: nat, o: string)
    requires k < |f.log| && o in f.s0.links
    ensures LinkAt(f, k + 1, o) == if Touches(f.log[k], o) then f.log[k].payload.crmRef else LinkAt(f, k, o)
  {
  }

  /** The link is one the outlet had somewhere in that stretch of one pass. */
  ghost predicate LinkBetween(f: Feed, o: string, link: string, lo: nat, hi: nat)
    requires hi <= |f.log| && o in f.s0.links
  {
    exists k :: lo <= k <= hi && link == LinkAt(f, k, o)
  }

  ghost predicate LinksSound(f: Feed, w: World)
  {
    && Shaped(w, f) && w.store.links.Keys == f.s0.links.Keys
    && forall o :: o in f.s0.links ==> LinkBetween(f, o, w.store.links[o], w.settled, w.high)
  }

  /** Touching an outlet at `pos` gives it the link it had after that event; leaving it
      alone keeps a link of the stretch, whose lower end moves on only past an event
      that took effect. */
  lemma LinkMovesOn(f: Feed, o: string, link: string, lo: nat, pos: nat, hi: nat, took: bool, lo': nat)
    requires lo <= pos <= hi <= |f.log| && pos < |f.log| && o in f.s0.links && LinkBetween(f, o, link, lo, hi)
    requires lo' == lo || (lo == pos && lo' == pos + 1 && (took || !Touches(f.log[pos], o)))
    ensures var link' := if Touches(f.log[pos], o) && took then f.log[pos].payload.crmRef else link;
      LinkBetween(f, o, link', lo', if pos == hi then hi + 1 else hi)
  {
    var k :| lo <= k <= hi && link == LinkAt(f, k, o);
    LinkNext(f, pos, o);
    var k' := if (Touches(f.log[pos], o) && took) || k < lo' then pos + 1 else k;
    var link' := if Touches(f.log[pos], o) && took then f.log[pos].payload.crmRef else link;
    assert link' == LinkAt(f, k', o);
  }

  lemma WiderRange(f: Feed, o: string, link: string, lo: nat, lo': nat, hi: nat)
    requires hi <= |f.log| && o in f.s0.links && LinkBetween(f, o, link, lo, hi) && lo' <= lo
    ensures LinkBetween(f, o, link, lo', hi)
  {
  }

  lemma HandleKeepsLinks(f: Feed, w: World, db: Database, commitLost: bool)
    requires LinksSound(f, w) && w.pos < |f.log|
    ensures LinksSound(f, Next(w, Handle(db, commitLost), f))
  {
    var e, w' := f.log[w.pos], Next(w, Handle(db, commitLost), f);
    forall o | o in f.s0.links
      ensures o in w'.store.links && LinkBetween(f, o, w'.store.links[o], w'.settled, w'.high)
    {
      if !Skipped(e) {
        LinkAfter(w.store, e, o);
        InsertKeepsLinks(LinkPart(w.store, e), f.digest, e.id, SignalOf(e.payload));
      }
      LinkMovesOn(f, o, w.store.links[o], w.settled, w.pos, w.high, !Skipped(e) && db != DownAtOnce, w'.settled);
    }
    SameOutletsHandled(w.store, f.digest, e, db);
  }

  lemma SameOutletsHandled(s: Store, digest: string -> string, e: Envelope, db: Database)
    ensures Handled(s, digest, e, db).links.Keys == s.links.Keys
  {
  }

  /** With or without failures, each outlet shows a link it had at some point from
      the last settled event on. */
  lemma {:induction false} LinksOverRuns(f: Feed, w: World, events: seq<Event>)
    requires LinksSound(f, w)
    ensures LinksSound(f, After(w, events, f))
    decreases |events|
  {
    if events != [] {
      var w' := Next(w, events[0], f);
      if events[0].Handle? && w.pos < |f.log| {
        HandleKeepsLinks(f, w, events[0].db, events[0].commitLost);
      } else {
        forall o | o in f.s0.links ensures LinkBetween(f, o, w'.store.links[o], w'.settled, w'.high) {
          WiderRange(f, o, w.store.links[o], w.settled, w'.settled, w.high);
        }
      }
      LinksOverRuns(f, w', events[1..]);
    }
  }

  lemma StartLinks(f: Feed)
    ensures LinksSound(f, Start(f.s0))
  {
    forall o | o in f.s0.links ensures LinkBetween(f, o, f.s0.links[o], 0, 0) {
      assert f.s0.links[o] == LinkAt(f, 0, o);
    }
  }

  lemma OneLinkLeft(f: Feed, o: string, link: string, n: nat)
    requires n <= |f.log| && o in f.s0.links && LinkBetween(f, o, link, n, n)
    ensures link == LinkAt(f, n, o)
  {
  }

  lemma SameMaps<T>(a: map<string, T>, b: map<string, T>)
    requires a.Keys == b.Keys && forall o :: o in a ==> a[o] == b[o]
    ensures a == b
  {
  }

  lemma LinksCaughtUp(f: Feed, w: World)
    requires LinksSound(f, w) && w.settled == w.high
    ensures w.store.links == OnePass(f, w.high).links
  {
    SameOutlets(f, w.high);
    forall o | o in f.s0.links ensures w.store.links[o] == OnePass(f, w.high).links[o] {
      OneLinkLeft(f, o, w.store.links[o], w.high);
    }
    SameMaps(w.store.links, OnePass(f, w.high).links);
  }

  // ---- signals -------------------------------------------------------------------------------

  /** Event i leaves that signal under that id. */
  predicate Leaves(f: Feed, i: nat, id: string, sig: Signal)
    requires i < |f.log|
  {
    !Skipped(f.log[i]) && SignalId(f.digest, f.log[i].id) == id && SignalOf(f.log[i].payload) == sig
  }

  /** One of the first `hi` events leaves that signal. */
  ghost predicate Left(f: Feed, id: string, sig: Signal, hi: nat)
    requires hi <= |f.log|
  {
    exists i: nat :: i < hi && Leaves(f, i, id, sig)
  }

  lemma LeftBefore(f: Feed, id: string, sig: Signal, hi: nat, hi': nat)
    requires hi <= hi' <= |f.log| && Left(f, id, sig, hi)
    ensures Left(f, id, sig, hi')
  {
    var i: nat :| i < hi && Leaves(f, i, id, sig);
    assert i < hi' && Leaves(f, i, id, sig);
  }

  /** The signals are those there were, and some of those the first `hi` events leave,
      with an id for each of the first `lo`. */
  ghost predicate SignalsBetween(f: Feed, signals: map<string, Signal>, lo: nat, hi: nat)
    requires lo <= hi <= |f.log|
  {
    && (forall id :: id in f.s0.signals ==> id in signals && signals[id] == f.s0.signals[id])
    && (forall id :: id in signals && id !in f.s0.signals ==> Left(f, id, signals[id], hi))
    && (forall i :: 0 <= i < lo && !Skipped(f.log[i]) ==> SignalId(f.digest, f.log[i].id) in signals)
  }

  lemma SignalsAfter(s: Store, digest: string -> string, e: Envelope)
    requires !Skipped(e) ==> !IsBlank(e.id)
    ensures Applied(s, digest, e).unnamed == s.unnamed
    ensures Applied(s, digest, e).signals ==
      if Skipped(e) || SignalId(digest, e.id) in s.signals then s.signals
      else s.signals[SignalId(digest, e.id) := SignalOf(e.payload)]
  {
  }

  lemma SignalAdded(f: Feed, signals: map<string, Signal>, lo: nat, pos: nat, hi: nat)
    requires lo <= pos <= hi <= |f.log| && pos < |f.log| && !Skipped(f.log[pos]) && SignalsBetween(f, signals, lo, hi)
    ensures var id := SignalId(f.digest, f.log[pos].id);
      var signals' := if id in signals then signals else signals[id := SignalOf(f.log[pos].payload)];
      SignalsBetween(f, signals', if lo == pos then pos + 1 else lo, if pos == hi then hi + 1 else hi)
  {
    var id := SignalId(f.digest, f.log[pos].id);
    var signals' := if id in signals then signals else signals[id := SignalOf(f.log[pos].payload)];
    var hi' := if pos == hi then hi + 1 else hi;
    forall x | x in signals' && x !in f.s0.signals ensures Left(f, x, signals'[x], hi') {
      if x in signals {
        LeftBefore(f, x, signals[x], hi, hi');
      } else {
        assert pos < hi' && Leaves(f, pos, x, signals'[x]);
      }
    }
  }

  lemma SignalsStay(f: Feed, signals: map<string, Signal>, lo: nat, hi: nat, lo': nat, hi': nat)
    requires lo <= hi <= hi' <= |f.log| && lo' <= hi' && SignalsBetween(f, signals, lo, hi)
    requires lo' <= lo || (lo' == lo + 1 && Skipped(f.log[lo]))
    ensures SignalsBetween(f, signals, lo', hi')
  {
    forall x | x in signals && x !in f.s0.signals ensures Left(f, x, signals[x], hi') {
      LeftBefore(f, x, signals[x], hi, hi');
    }
  }

  ghost predicate SignalsSound(f: Feed, w: World)
  {
    Shaped(w, f) && w.store.unnamed == f.s0.unnamed && SignalsBetween(f, w.store.signals, w.settled, w.high)
  }

  lemma NextSignals(f: Feed, w: World, e: Event)
    requires SignalsSound(f, w) && AllNamed(f)
    ensures SignalsSound(f, Next(w, e, f))
  {
    var w' := Next(w, e, f);
    if e.Handle? && w.pos < |f.log| {
      SignalsAfter(w.store, f.digest, f.log[w.pos]);
      if !Skipped(f.log[w.pos]) && e.db == Up {
        SignalAdded(f, w.store.signals, w.settled, w.pos, w.high);
      } else {
        SignalsStay(f, w.store.signals, w.settled, w.high, w'.settled, w'.high);
      }
    } else {
      SignalsStay(f, w.store.signals, w.settled, w.high, w'.settled, w'.high);
    }
  }

  lemma {:induction false} SignalsOverRuns(f: Feed, w: World, events: seq<Event>)
    requires SignalsSound(f, w) && AllNamed(f)
    ensures SignalsSound(f, After(w, events, f))
    decreases |events|
  {
    if events != [] {
      NextSignals(f, w, events[0]);
      SignalsOverRuns(f, Next(w, events[0], f), events[1..]);
    }
  }

  lemma {:induction false} OnePassSignals(f: Feed, n: nat)
    requires n <= |f.log| && AllNamed(f)
    ensures SignalsBetween(f, OnePass(f, n).signals, n, n) && OnePass(f, n).unnamed == f.s0.unnamed
  {
    if n > 0 {
      OnePassSignals(f, n - 1);
      var before := OnePass(f, n - 1);
      SignalsAfter(before, f.digest, f.log[n - 1]);
      if Skipped(f.log[n - 1]) {
        SignalsStay(f, before.signals, n - 1, n - 1, n, n);
      } else {
        SignalAdded(f, before.signals, n - 1, n - 1, n - 1);
      }
    }
  }

  /** Events that share a signal id leave the same signal. */
  ghost predicate NoClash(f: Feed)
  {
    forall i: nat, j: nat, id, a, b :: i < |f.log| && j < |f.log| && Leaves(f, i, id, a) && Leaves(f, j, id, b) ==>
      a == b
  }

  lemma SignalsCaughtUp(f: Feed, a: map<string, Signal>, b: map<string, Signal>, n: nat)
    requires n <= |f.log| && SignalsBetween(f, a, n, n) && SignalsBetween(f, b, n, n)
    ensures a.Keys == b.Keys && (NoClash(f) ==> a == b)
  {
    SignalIdsWithin(f, a, b, n);
    SignalIdsWithin(f, b, a, n);
    if NoClash(f) {
      forall id | id in a ensures a[id] == b[id] {
        if id !in f.s0.signals {
          var i: nat :| i < n && Leaves(f, i, id, a[id]);
          var j: nat :| j < n && Leaves(f, j, id, b[id]);
        }
      }
      SameMaps(a, b);
    }
  }

  lemma SignalIdsWithin(f: Feed, a: map<string, Signal>, b: map<string, Signal>, n: nat)
    requires n <= |f.log| && SignalsBetween(f, a, n, n) && SignalsBetween(f, b, n, n)
    ensures a.Keys <= b.Keys
  {
    forall id | id in a ensures id in b {
      if id !in f.s0.signals {
        var i: nat :| i < n && Leaves(f, i, id, a[id]);
      }
    }
  }

  // ---- replay does not show --------------------------------------------------------------------

  /** Whatever failed, wherever, and however often events were redelivered: once every
      failure has been made good, links and signal ids are those of one pass, and so
      are the signals unless events with different signals share an id. */
  lemma RecoveryDoesNotShow(f: Feed, events: seq<Event>)
    requires AllNamed(f)
    requires var w := After(Start(f.s0), events, f); w.settled == w.high
    ensures var w := After(Start(f.s0), events, f);
      && w.store.links == OnePass(f, w.high).links
      && w.store.signals.Keys == OnePass(f, w.high).signals.Keys
      && (NoClash(f) ==> w.store == OnePass(f, w.high))
  {
    var w := After(Start(f.s0), events, f);
    StartLinks(f);
    LinksOverRuns(f, Start(f.s0), events);
    LinksCaughtUp(f, w);
    SignalsOverRuns(f, Start(f.s0), events);
    OnePassSignals(f, w.high);
    SignalsCaughtUp(f, w.store.signals, OnePass(f, w.high).signals, w.high);
  }

  /** While nothing fails, signals are exactly those of one pass at all times. */
  ghost predicate SignalsExact(f: Feed, w: World)
  {
    Shaped(w, f) && w.settled == w.pos && w.store.signals == OnePass(f, w.high).signals
  }

  lemma {:induction false} SignalInPlace(f: Feed, n: nat, i: nat)
    requires i < n <= |f.log| && !Skipped(f.log[i]) && !IsBlank(f.log[i].id)
    ensures SignalId(f.digest, f.log[i].id) in OnePass(f, n).signals
  {
    if i < n - 1 {
      SignalInPlace(f, n - 1, i);
    }
  }

  lemma {:induction false} SignalsExactOverRuns(f: Feed, w: World, events: seq<Event>)
    requires SignalsExact(f, w) && NoFailures(events) && AllNamed(f)
    ensures SignalsExact(f, After(w, events, f))
    decreases |events|
  {
    if events != [] {
      if events[0].Handle? && w.pos < |f.log| {
        SignalsAfter(w.store, f.digest, f.log[w.pos]);
        if w.pos == w.high {
          SignalsAfter(OnePass(f, w.pos), f.digest, f.log[w.pos]);
        } else if !Skipped(f.log[w.pos]) {
          SignalInPlace(f, w.high, w.pos);
        }
      }
      SignalsExactOverRuns(f, Next(w, events[0], f), events[1..]);
    }
  }

  /** Replay safety: while no handler fails, whatever was redelivered, however often and
      from wherever, a consumer that has caught up holds exactly what one pass over the
      events leaves, even where different events share a signal id. */
  lemma ReplayDoesNotShow(f: Feed, events: seq<Event>)
    requires NoFailures(events) && AllNamed(f)
    requires var w := After(Start(f.s0), events, f); w.pos == w.high
    ensures var w := After(Start(f.s0), events, f); w.store == OnePass(f, w.high)
  {
    SignalsExactOverRuns(f, Start(f.s0), events);
    RecoveryDoesNotShow(f, events);
    SignalsOverRuns(f, Start(f.s0), events);
    OnePassSignals(f, After(Start(f.s0), events, f).high);
  }

  // ---- what does show ----------------------------------------------------------------------------

  /** Some event from p on is handled with success and committed. */
  predicate CommitsFrom(w: World, events: seq<Event>, f: Feed, p: nat)
    requires Shaped(w, f)
    decreases |events|
  {
    events != []
    && ((&& w.pos < |f.log| && w.pos >= p && events[0].Handle?
         && Succeeds(f.log[w.pos], events[0].db) && !events[0].commitLost)
        || CommitsFrom(Next(w, events[0], f), events[1..], f, p))
  }

  lemma {:induction false} CommittedNeverRecedes(w: World, events: seq<Event>, f: Feed)
    requires Shaped(w, f)
    ensures After(w, events, f).committed >= w.committed
    decreases |events|
  {
    if events != [] {
      CommittedNeverRecedes(Next(w, events[0], f), events[1..], f);
    }
  }

  /** A restart comes back to an event, failed or not, exactly while neither it nor a
      later one has been committed: once a later one is, a failed event is passed for good. */
  lemma {:induction false} ComesBackIff(w: World, events: seq<Event>, f: Feed, p: nat)
    requires Shaped(w, f) && w.committed <= p
    ensures Next(After(w, events, f), Restart, f).pos <= p <==> !CommitsFrom(w, events, f, p)
    decreases |events|
  {
    if events != [] {
      var w' := Next(w, events[0], f);
      if w'.committed <= p {
        ComesBackIff(w', events[1..], f, p);
      } else {
        CommittedNeverRecedes(w', events[1..], f);
      }
    }
  }

  /** Applying an event again changes nothing exactly when it is skipped or has an id:
      one without an id is not recognised on the way back round. */
  lemma AgainIsNothingIff(s: Store, digest: string -> string, e: Envelope)
    ensures Applied(Applied(s, digest, e), digest, e) == Applied(s, digest, e) <==> Skipped(e) || !IsBlank(e.id)
  {
    if !Skipped(e) {
      var once := Applied(s, digest, e);
      if IsBlank(e.id) {
        assert |Applied(once, digest, e).unnamed| == |once.unnamed| + 1;
      } else {
        LinkAgain(s.links, e);
        assert LinkPart(once, e).links == once.links;
      }
    }
  }

  lemma LinkAgain(links: map<string, string>, e: Envelope)
    requires !Skipped(e)
    ensures e.payload.OutletSynced? ==>
      var once := Linked(links, e.payload.dmsRef, e.payload.crmRef);
      Linked(once, e.payload.dmsRef, e.payload.crmRef) == once
  {
  }

  // ---- the loop ----------------------------------------------------------------------------------

  class Consumer {
    const digest: string -> string
    const log: seq<Envelope>
    ghost const s0: Store
    var store: Store
    var pos: nat
    var committed: nat
    ghost var high: nat
    ghost var settled: nat

    ghost function View(): World
      reads this
    {
      World(store, pos, committed, high, settled)
    }

    ghost function Source(): Feed
    {
      Feed(s0, digest, log)
    }

    constructor (digest: string -> string, log: seq<Envelope>, store: Store)
      ensures Source() == Feed(store, digest, log)
      ensures View() == Start(store) && Shaped(View(), Source())
    {
      this.digest, this.log, this.store, this.s0 := digest, log, store, store;
      pos, committed, high, settled := 0, 0, 0, 0;
    }

    method ApplyOutletSynced(dmsRef: string, crmRef: string)
      modifies this`store
      ensures store == if dmsRef != "" && crmRef != ""
                       then old(store).(links := Linked(old(store).links, dmsRef, crmRef)) else old(store)
    {
      if dmsRef != "" && crmRef != "" {
        store := store.(links := Linked(store.links, dmsRef, crmRef));
      }
    }

    method InsertSignal(id: string, sig: Signal)
      modifies this`store
      ensures store == Inserted(old(store), digest, id, sig)
    {
      if IsBlank(id) {
        store := store.(unnamed := store.unnamed + [sig]);
      } else if SignalId(digest, id) !in store.signals {
        store := store.(signals := store.signals[SignalId(digest, id) := sig]);
      }
    }

    /** `db` answers for the database's two statements. */
    method HandleEnvelope(e: Envelope, db: Database) returns (ok: bool)
      modifies this`store
      ensures ok == Succeeds(e, db) && store == Handled(old(store), digest, e, db)
    {
      if e == Malformed {
        return false;
      }
      if e.source == OWN_SOURCE || e.payload == Ignored {
        return true;
      }
      if db == DownAtOnce {
        return false;
      }
      if e.payload.OutletSynced? {
        ApplyOutletSynced(e.payload.dmsRef, e.payload.crmRef);
      }
      if db == DownAfterLink {
        return false;
      }
      InsertSignal(e.id, SignalOf(e.payload));
      ok := true;
    }

    /** One turn of the loop: fetch, handle, and commit what was handled. */
    method Turn(db: Database, commitLost: bool)
      requires Shaped(View(), Source())
      modifies this
      ensures View() == Next(old(View()), Handle(db, commitLost), Source()) && Shaped(View(), Source())
    {
      if pos < |log| {
        var ok := HandleEnvelope(log[pos], db);
        high := if pos == high then high + 1 else high;
        settled := if settled == pos && Settles(log[pos], db) then pos + 1 else settled;
        if ok && !commitLost {
          committed := pos + 1;
        }
        pos := pos + 1;
      }
    }

    method RestartFromCommitted()
      requires Shaped(View(), Source())
      modifies this`pos, this`settled
      ensures View() == Next(old(View()), Restart, Source()) && Shaped(View(), Source())
    {
      pos := committed;
      settled := if committed < settled then committed else settled;
    }
  }
}
