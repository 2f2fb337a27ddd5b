/** Any number of publishers sharing the outbox, as atomic steps: each statement is
    one, and between them anything may happen to anyone. */
module OutboxProtocol {
  import opened Backoff
  import opened Outbox
  import opened Spacing

  /** A claimed row the publisher has still to send, with the attempts it read. */
  datatype Flight = Flight(row: nat, attempts: nat)

  datatype Phase = Free | Marking(flight: Flight, ok: bool)

  datatype Publisher = Publisher(queue: seq<Flight>, phase: Phase)

  /** What really happened to a row; no program reads it. */
  datatype History = History(sends: nat, delivered: nat, claims: seq<int>)

  datatype World = World(now: int, rows: seq<Row>, pubs: seq<Publisher>, hist: seq<History>)

  datatype Event =
    | Enqueue
    | Elapse(d: nat)
    | Join
    | Claim(p: nat, limit: int, locked: set<nat>)
    | Send(p: nat, ok: bool)
    | Mark(p: nat, lost: bool, odd: int)
    | Crash(p: nat)

  const IDLE := Publisher([], Free)

  function FlightsOf(picked: seq<nat>, rows: seq<Row>): (q: seq<Flight>)
    requires forall k :: 0 <= k < |picked| ==> picked[k] < |rows|
    ensures |q| == |picked|
    ensures forall k :: 0 <= k < |q| ==> q[k] == Flight(picked[k], rows[picked[k]].attempts)
  {
    seq(|picked|, k requires 0 <= k < |picked| => Flight(picked[k], rows[picked[k]].attempts))
  }

  function WithClaim(h: History, now: int): History
  {
    h.(claims := h.claims + [now])
  }

  function WithSend(h: History, ok: bool): History
  {
    h.(sends := h.sends + 1, delivered := h.delivered + if ok then 1 else 0)
  }

  function ClaimHistory(hist: seq<History>, picked: seq<nat>, now: int): (out: seq<History>)
    ensures |out| == |hist|
    ensures forall r :: 0 <= r < |hist| ==> out[r] == if r in picked then WithClaim(hist[r], now) else hist[r]
  {
    seq(|hist|, r requires 0 <= r < |hist| => if r in picked then WithClaim(hist[r], now) else hist[r])
  }

  // ---- steps -----------------------------------------------------------------------

  predicate Shaped(w: World)
  {
    && |w.hist| == |w.rows|
    && forall p :: 0 <= p < |w.pubs| ==> FlightsShaped(w.pubs[p], |w.rows|)
  }

  predicate FlightsShaped(pub: Publisher, n: nat)
  {
    && (forall k :: 0 <= k < |pub.queue| ==> pub.queue[k].row < n)
    && (pub.phase.Marking? ==> pub.phase.flight.row < n)
  }

  /** A publisher claims when it has nothing left to send. */
  function DoClaim(w: World, p: nat, limit: int, locked: set<nat>): World
    requires Shaped(w)
  {
    if p >= |w.pubs| || w.pubs[p] != IDLE then w
    else
      var picked := Picked(w.rows, |w.rows|, w.now, BatchLimit(limit), locked);
      var rows := ClaimRows(w.rows, picked, w.now);
      w.(rows := rows, pubs := w.pubs[p := Publisher(FlightsOf(picked, rows), Free)],
         hist := ClaimHistory(w.hist, picked, w.now))
  }

  /** It sends the claimed rows in turn. */
  function DoSend(w: World, p: nat, ok: bool): World
    requires Shaped(w)
  {
    if p >= |w.pubs| || w.pubs[p].queue == [] || w.pubs[p].phase != Free then w
    else
      var f := w.pubs[p].queue[0];
      w.(pubs := w.pubs[p := Publisher(w.pubs[p].queue[1..], Marking(f, ok))],
         hist := w.hist[f.row := WithSend(w.hist[f.row], ok)])
  }

  /** After each send it marks the row; a mark that fails is not retried. */
  function DoMark(w: World, p: nat, lost: bool, odd: int): World
    requires Shaped(w)
  {
    if p >= |w.pubs| || w.pubs[p].phase == Free then w
    else
      var f, ok := w.pubs[p].phase.flight, w.pubs[p].phase.ok;
      var row := w.rows[f.row];
      var row' := if lost then row
                  else if ok then Dispatched(row)
                  else Rescheduled(row, w.now, RetryDelay(f.attempts, odd));
      w.(rows := w.rows[f.row := row'], pubs := w.pubs[p := Publisher(w.pubs[p].queue, Free)])
  }

  function Next(w: World, e: Event): World
    requires Shaped(w)
  {
    match e
    case Enqueue => w.(rows := w.rows + [Row(w.now, 0, false, false)], hist := w.hist + [History(0, 0, [])])
    case Elapse(d) => w.(now := w.now + d)
    case Join => w.(pubs := w.pubs + [IDLE])
    case Claim(p, limit, locked) => DoClaim(w, p, limit, locked)
    case Send(p, ok) => DoSend(w, p, ok)
    case Mark(p, lost, odd) => DoMark(w, p, lost, odd)
    case Crash(p) => if p < |w.pubs| then w.(pubs := w.pubs[p := IDLE]) else w
  }

  lemma NextShaped(w: World, e: Event)
    requires Shaped(w)
    ensures Shaped(Next(w, e)) && |Next(w, e).rows| >= |w.rows|
  {
  }

  function After(w: World, events: seq<Event>): (w': World)
    requires Shaped(w)
    ensures Shaped(w')
    decreases |events|
  {
    if events == [] then w else (NextShaped(w, events[0]); After(Next(w, events[0]), events[1..]))
  }

  const START := World(0, [], [], [])

  // ---- claims in flight ---------------------------------------------------------------

  function CountIn(queue: seq<Flight>, r: nat): nat
  {
    if queue == [] then 0 else (if queue[0].row == r then 1 else 0) + CountIn(queue[1..], r)
  }

  function InFlight(pubs: seq<Publisher>, r: nat): nat
  {
    if pubs == [] then 0 else InFlight(pubs[..|pubs| - 1], r) + CountIn(pubs[|pubs| - 1].queue, r)
  }

  lemma {:induction false} InFlightUpdate(pubs: seq<Publisher>, p: nat, pub: Publisher, r: nat)
    requires p < |pubs|
    ensures InFlight(pubs[p := pub], r) == InFlight(pubs, r) - CountIn(pubs[p].queue, r) + CountIn(pub.queue, r)
    ensures InFlight(pubs, r) >= CountIn(pubs[p].queue, r)
  {
    var n := |pubs| - 1;
    if p < n {
      InFlightUpdate(pubs[..n], p, pub, r);
      assert pubs[p := pub][..n] == pubs[..n][p := pub];
    } else {
      assert pubs[p := pub][..n] == pubs[..n];
    }
  }

  lemma {:induction false} CountOfPicked(queue: seq<Flight>, r: nat)
    requires forall j, k :: 0 <= j < k < |queue| ==> queue[j].row < queue[k].row
    ensures CountIn(queue, r) == if exists k :: 0 <= k < |queue| && queue[k].row == r then 1 else 0
  {
    if queue != [] {
      var rest := queue[1..];
      CountOfPicked(rest, r);
      if queue[0].row == r {
        assert forall k :: 0 <= k < |rest| ==> rest[k] == queue[k + 1];
      } else if k :| 0 <= k < |queue| && queue[k].row == r {
        assert rest[k - 1].row == r;
      }
    }
  }

  // ---- the invariant -------------------------------------------------------------------

  /** Claims of the row are a lease apart, the next one is not due before the last
      lease is over, and a pending row is due within the longest delay. */
  ghost predicate Leased(now: int, row: Row, h: History)
  {
    && Spaced(h.claims, LEASE)
    && (h.claims != [] ==> h.claims[|h.claims| - 1] <= now && h.claims[|h.claims| - 1] + LEASE <= row.availableAt)
    && row.availableAt <= now + MAX_DELAY
  }

  ghost predicate RowSound(now: int, row: Row, h: History, inFlight: nat)
  {
    && h.sends + inFlight <= row.attempts
    && h.delivered <= h.sends
    && (row.dispatched ==> h.delivered > 0)
    && |h.claims| == row.attempts
    && (row.attempts <= 33 ==> Leased(now, row, h))
  }

  /** What a publisher remembers about a row is no newer than the row. */
  ghost predicate FlightSound(w: World, f: Flight)
    requires Shaped(w)
  {
    f.row < |w.rows| && 1 <= f.attempts <= w.rows[f.row].attempts
  }

  ghost predicate PubSound(w: World, pub: Publisher)
    requires Shaped(w)
  {
    && (forall k :: 0 <= k < |pub.queue| ==> FlightSound(w, pub.queue[k]))
    && (pub.phase.Marking? ==>
          FlightSound(w, pub.phase.flight) && (pub.phase.ok ==> w.hist[pub.phase.flight.row].delivered > 0))
  }

  ghost predicate Sound(w: World)
  {
    && Shaped(w)
    && (forall r :: 0 <= r < |w.rows| ==> RowSound(w.now, w.rows[r], w.hist[r], InFlight(w.pubs, r)))
    && (forall p :: 0 <= p < |w.pubs| ==> PubSound(w, w.pubs[p]))
  }

  /** Rows only gain: attempts and deliveries grow, dispatched stays. */
  ghost predicate Grows(w: World, w': World)
    requires Shaped(w) && Shaped(w')
  {
    && |w.rows| <= |w'.rows|
    && forall r :: 0 <= r < |w.rows| ==>
         && w.rows[r].attempts <= w'.rows[r].attempts && w.hist[r].delivered <= w'.hist[r].delivered
         && (w.rows[r].dispatched ==> w'.rows[r].dispatched)
         && w.hist[r].claims <= w'.hist[r].claims
  }

  lemma NextGrows(w: World, e: Event)
    requires Shaped(w)
    ensures Shaped(Next(w, e)) && Grows(w, Next(w, e))
  {
    NextShaped(w, e);
  }

  lemma PubKept(w: World, w': World, pub: Publisher)
    requires Shaped(w) && Shaped(w') && Grows(w, w') && PubSound(w, pub)
    ensures PubSound(w', pub)
  {
  }

  lemma ElapseSound(w: World, d: nat)
    requires Sound(w)
    ensures Sound(Next(w, Elapse(d)))
  {
  }

  lemma {:induction false} NewRowNotInFlight(pubs: seq<Publisher>, r: nat)
    requires forall p :: 0 <= p < |pubs| ==> FlightsShaped(pubs[p], r)
    ensures InFlight(pubs, r) == 0
  {
    if pubs != [] {
      NewRowNotInFlight(pubs[..|pubs| - 1], r);
      NoneInQueue(pubs[|pubs| - 1].queue, r);
    }
  }

  lemma {:induction false} NoneInQueue(queue: seq<Flight>, r: nat)
    requires forall k :: 0 <= k < |queue| ==> queue[k].row < r
    ensures CountIn(queue, r) == 0
  {
    if queue != [] {
      NoneInQueue(queue[1..], r);
    }
  }

  lemma EnqueueSound(w: World)
    requires Sound(w)
    ensures Sound(Next(w, Enqueue))
  {
    var w' := Next(w, Enqueue);
    NextGrows(w, Enqueue);
    NewRowNotInFlight(w.pubs, |w.rows|);
    forall p | 0 <= p < |w'.pubs| ensures PubSound(w', w'.pubs[p]) {
      PubKept(w, w', w.pubs[p]);
    }
  }

  lemma JoinSound(w: World)
    requires Sound(w)
    ensures Sound(Next(w, Join))
  {
  }

  lemma CrashSound(w: World, p: nat)
    requires Sound(w)
    ensures Sound(Next(w, Crash(p)))
  {
    var w' := Next(w, Crash(p));
    NextGrows(w, Crash(p));
    if p < |w.pubs| {
      forall r | 0 <= r < |w'.rows| ensures InFlight(w'.pubs, r) <= InFlight(w.pubs, r) {
        InFlightUpdate(w.pubs, p, IDLE, r);
      }
      forall q | 0 <= q < |w'.pubs| ensures PubSound(w', w'.pubs[q]) {
        if q != p {
          PubKept(w, w', w.pubs[q]);
        }
      }
    }
  }

  /** A claim adds one claim in flight and one attempt to exactly the picked rows. */
  lemma ClaimedInFlight(w: World, p: nat, limit: int, locked: set<nat>, r: nat)
    requires Shaped(w) && p < |w.pubs| && w.pubs[p] == IDLE && r < |w.rows|
    ensures var picked := Picked(w.rows, |w.rows|, w.now, BatchLimit(limit), locked);
      InFlight(DoClaim(w, p, limit, locked).pubs, r) == InFlight(w.pubs, r) + if r in picked then 1 else 0
  {
    var picked := Picked(w.rows, |w.rows|, w.now, BatchLimit(limit), locked);
    var q := FlightsOf(picked, ClaimRows(w.rows, picked, w.now));
    InFlightUpdate(w.pubs, p, Publisher(q, Free), r);
    CountOfPicked(q, r);
    if r in picked {
      var k :| 0 <= k < |picked| && picked[k] == r;
      assert q[k].row == r;
    }
  }

  lemma ClaimSpaced(now: int, row: Row, h: History)
    requires Leased(now, row, h) && row.availableAt <= now
    ensures Leased(now, Claimed(row, now), WithClaim(h, now))
  {
  }

  lemma ClaimedRowSound(w: World, p: nat, limit: int, locked: set<nat>, r: nat)
    requires Sound(w) && p < |w.pubs| && w.pubs[p] == IDLE && r < |w.rows|
    ensures var w' := DoClaim(w, p, limit, locked);
      |w'.rows| == |w.rows| && |w'.hist| == |w.hist| && RowSound(w'.now, w'.rows[r], w'.hist[r], InFlight(w'.pubs, r))
  {
    ClaimedInFlight(w, p, limit, locked, r);
    assert RowSound(w.now, w.rows[r], w.hist[r], InFlight(w.pubs, r));
    if r in Picked(w.rows, |w.rows|, w.now, BatchLimit(limit), locked) && w.rows[r].attempts <= 33 {
      ClaimSpaced(w.now, w.rows[r], w.hist[r]);
    }
  }

  lemma ClaimSound(w: World, p: nat, limit: int, locked: set<nat>)
    requires Sound(w) && p < |w.pubs| && w.pubs[p] == IDLE
    ensures Sound(DoClaim(w, p, limit, locked))
  {
    var w' := DoClaim(w, p, limit, locked);
    var picked := Picked(w.rows, |w.rows|, w.now, BatchLimit(limit), locked);
    NextGrows(w, Claim(p, limit, locked));
    forall r | 0 <= r < |w'.rows| ensures RowSound(w'.now, w'.rows[r], w'.hist[r], InFlight(w'.pubs, r)) {
      ClaimedRowSound(w, p, limit, locked, r);
    }
    forall q | 0 <= q < |w'.pubs| ensures PubSound(w', w'.pubs[q]) {
      if q != p {
        PubKept(w, w', w.pubs[q]);
      }
    }
  }

  lemma SendSound(w: World, p: nat, ok: bool)
    requires Sound(w) && p < |w.pubs| && w.pubs[p].queue != [] && w.pubs[p].phase == Free
    ensures Sound(DoSend(w, p, ok))
  {
    var w' := DoSend(w, p, ok);
    var f := w.pubs[p].queue[0];
    NextGrows(w, Send(p, ok));
    assert PubSound(w, w.pubs[p]);
    forall r | 0 <= r < |w'.rows| ensures RowSound(w'.now, w'.rows[r], w'.hist[r], InFlight(w'.pubs, r)) {
      InFlightUpdate(w.pubs, p, w'.pubs[p], r);
      assert RowSound(w.now, w.rows[r], w.hist[r], InFlight(w.pubs, r));
    }
    forall q | 0 <= q < |w'.pubs| ensures PubSound(w', w'.pubs[q]) {
      PubKept(w, w', w.pubs[q]);
    }
  }

  lemma MarkSound(w: World, p: nat, lost: bool, odd: int)
    requires Sound(w) && p < |w.pubs| && w.pubs[p].phase != Free
    ensures Sound(DoMark(w, p, lost, odd))
  {
    var w' := DoMark(w, p, lost, odd);
    var f := w.pubs[p].phase.flight;
    NextGrows(w, Mark(p, lost, odd));
    assert PubSound(w, w.pubs[p]);
    forall r | 0 <= r < |w'.rows| ensures RowSound(w'.now, w'.rows[r], w'.hist[r], InFlight(w'.pubs, r)) {
      InFlightUpdate(w.pubs, p, w'.pubs[p], r);
      assert RowSound(w.now, w.rows[r], w.hist[r], InFlight(w.pubs, r));
      if r == f.row && f.attempts <= 33 {
        RetryRange(f.attempts, odd);
      }
    }
    forall q | 0 <= q < |w'.pubs| ensures PubSound(w', w'.pubs[q]) {
      PubKept(w, w', w.pubs[q]);
    }
  }

  lemma NextSound(w: World, e: Event)
    requires Sound(w)
    ensures Sound(Next(w, e))
  {
    match e
    case Enqueue => EnqueueSound(w);
    case Elapse(d) => ElapseSound(w, d);
    case Join => JoinSound(w);
    case Crash(p) => CrashSound(w, p);
    case Claim(p, limit, locked) => if p < |w.pubs| && w.pubs[p] == IDLE { ClaimSound(w, p, limit, locked); }
    case Send(p, ok) => if p < |w.pubs| && w.pubs[p].queue != [] && w.pubs[p].phase == Free { SendSound(w, p, ok); }
    case Mark(p, lost, odd) => if p < |w.pubs| && w.pubs[p].phase != Free { MarkSound(w, p, lost, odd); }
  }

  /** Whatever the publishers, the network and the clock do: sends and claims in
      flight never exceed attempts, a dispatched row was sent at least once, and up
      to 33 attempts its claims are a lease apart and a pending row is due again
      within five minutes. */
  lemma {:induction false} SoundOverRuns(w: World, events: seq<Event>)
    requires Sound(w)
    ensures Sound(After(w, events))
    decreases |events|
  {
    if events != [] {
      NextSound(w, events[0]);
      SoundOverRuns(Next(w, events[0]), events[1..]);
    }
  }

  lemma StartSound()
    ensures Sound(START)
  {
  }

  /** No row is lost, dispatched never reverts, claims are never forgotten. */
  lemma {:induction false} NothingLost(w: World, events: seq<Event>)
    requires Shaped(w)
    ensures Grows(w, After(w, events))
    decreases |events|
  {
    if events != [] {
      NextGrows(w, events[0]);
      NothingLost(Next(w, events[0]), events[1..]);
    }
  }

  /** A row at up to 33 attempts is claimed at most 1 + W seconds times in W seconds. */
  lemma ClaimRate(events: seq<Event>, r: nat, from: int, width: nat)
    requires r < |After(START, events).rows| && After(START, events).rows[r].attempts <= 33
    ensures InWindow(After(START, events).hist[r].claims, from, width) <= 1 + width / LEASE
  {
    StartSound();
    SoundOverRuns(START, events);
    var w := After(START, events);
    assert RowSound(w.now, w.rows[r], w.hist[r], InFlight(w.pubs, r));
    WindowHolds(w.hist[r].claims, LEASE, from, width);
  }

  /** A pending row comes back: five minutes of clock make it due, and an unlocked due
      row is taken by a claim exactly when fewer due, unlocked rows than the batch
      holds are older. */
  lemma PendingComesBack(w: World, r: nat, d: nat, limit: int, locked: set<nat>)
    requires Sound(w) && r < |w.rows| && !w.rows[r].dispatched && w.rows[r].attempts <= 33
    requires d >= 300_000_000 && r !in locked
    ensures r in Picked(w.rows, |w.rows|, w.now + d, BatchLimit(limit), locked)
       <==> |Takeable(w.rows, r, w.now + d, locked)| < (if limit <= 0 then 32 else limit)
  {
    DueInTime(w, r, d);
    ClaimedIff(w.rows, w.now + d, limit, locked, r);
  }

  lemma DueInTime(w: World, r: nat, d: nat)
    requires Sound(w) && r < |w.rows| && !w.rows[r].dispatched && w.rows[r].attempts <= 33 && d >= 300_000_000
    ensures Due(w.rows[r], w.now + d)
  {
    assert RowSound(w.now, w.rows[r], w.hist[r], InFlight(w.pubs, r));
  }

  // ---- sends, crashes and marks --------------------------------------------------------------

  /** A send is counted, and as a delivery if it succeeds; the row itself is as it was. */
  lemma SendCounts(w: World, p: nat, ok: bool)
    requires Shaped(w) && p < |w.pubs| && w.pubs[p].queue != [] && w.pubs[p].phase == Free
    ensures var t, r := Next(w, Send(p, ok)), w.pubs[p].queue[0].row;
      && t.rows == w.rows && |t.hist| == |w.hist| && |t.pubs| == |w.pubs|
      && t.pubs[p].phase == Marking(w.pubs[p].queue[0], ok)
      && t.hist[r] == w.hist[r].(sends := w.hist[r].sends + 1,
                                 delivered := if ok then w.hist[r].delivered + 1 else w.hist[r].delivered)
  {
  }

  /** A publisher that dies leaves the table as it is and starts over with nothing in hand. */
  lemma CrashForgets(w: World, p: nat)
    requires Shaped(w) && p < |w.pubs|
    ensures var t := Next(w, Crash(p)); t == w.(pubs := w.pubs[p := Publisher([], Free)])
  {
  }

  /** A mark that arrives after a send that succeeded dispatches the row. */
  lemma MarkDispatches(w: World, p: nat, odd: int)
    requires Shaped(w) && p < |w.pubs| && w.pubs[p].phase.Marking? && w.pubs[p].phase.ok
    ensures var t, r := Next(w, Mark(p, false, odd)), w.pubs[p].phase.flight.row;
      |t.rows| == |w.rows| && t.rows[r].dispatched && !t.rows[r].failed && t.rows[r].attempts == w.rows[r].attempts
  {
  }

  /** After a failed send it puts the row off, and a lost mark leaves it as claimed. */
  lemma MarkPutsOff(w: World, p: nat, lost: bool, odd: int)
    requires Shaped(w) && p < |w.pubs| && w.pubs[p].phase.Marking? && (lost || !w.pubs[p].phase.ok)
    ensures var t, f := Next(w, Mark(p, lost, odd)), w.pubs[p].phase.flight;
      && |t.rows| == |w.rows| && t.rows[f.row].dispatched == w.rows[f.row].dispatched
      && (lost ==> t.rows[f.row] == w.rows[f.row])
      && (!lost ==> t.rows[f.row].failed && t.rows[f.row].availableAt == w.now + RetryDelay(f.attempts, odd))
  {
  }

  lemma NotClaimedNext(w: World, e: Event, r: nat)
    requires Shaped(w) && r < |w.rows| && w.rows[r].dispatched
    ensures var t := Next(w, e);
      && |t.rows| >= |w.rows| && |t.hist| == |t.rows| && t.rows[r].dispatched
      && t.rows[r].attempts == w.rows[r].attempts && t.hist[r].claims == w.hist[r].claims
  {
    NextShaped(w, e);
    if e.Claim? {
      ClaimedIff(w.rows, w.now, e.limit, e.locked, r);
    }
  }

  /** A dispatched row is never claimed again, whatever happens. */
  lemma {:induction false} DispatchedIsFinal(w: World, events: seq<Event>, r: nat)
    requires Shaped(w) && r < |w.rows| && w.rows[r].dispatched
    ensures var t := After(w, events);
      && r < |t.rows| && t.rows[r].dispatched
      && t.rows[r].attempts == w.rows[r].attempts && t.hist[r].claims == w.hist[r].claims
    decreases |events|
  {
    if events != [] {
      NextShaped(w, events[0]);
      NotClaimedNext(w, events[0], r);
      DispatchedIsFinal(Next(w, events[0]), events[1..], r);
    }
  }

  /** So a row whose send succeeded and whose mark arrived is not claimed again over any run. */
  lemma SentIsFinal(w: World, p: nat, odd: int, events: seq<Event>)
    requires Shaped(w) && p < |w.pubs| && w.pubs[p].phase.Marking? && w.pubs[p].phase.ok
    ensures var t, r := After(w, [Mark(p, false, odd)] + events), w.pubs[p].phase.flight.row;
      r < |t.rows| && t.rows[r].dispatched && t.hist[r].claims == w.hist[r].claims
  {
    NextShaped(w, Mark(p, false, odd));
    MarkDispatches(w, p, odd);
    AfterOne(w, Mark(p, false, odd), events);
    DispatchedIsFinal(Next(w, Mark(p, false, odd)), events, w.pubs[p].phase.flight.row);
  }

  /** A claim gives the row one more attempt and a lease of a second, and is remembered. */
  lemma ClaimLeases(w: World, p: nat, limit: int, locked: set<nat>, r: nat)
    requires Shaped(w) && p < |w.pubs| && w.pubs[p] == IDLE && r < |w.rows|
    ensures var t, row := Next(w, Claim(p, limit, locked)), w.rows[r];
      && |t.rows| == |w.rows| && |t.hist| == |t.rows|
      && (if !row.dispatched && row.availableAt <= w.now && r !in locked
             && |Takeable(w.rows, r, w.now, locked)| < (if limit <= 0 then 32 else limit)
          then t.rows[r] == Row(w.now + 1_000_000, row.attempts + 1, false, row.failed)
               && t.hist[r].claims == w.hist[r].claims + [w.now]
          else t.rows[r] == row && t.hist[r] == w.hist[r])
  {
    ClaimedIff(w.rows, w.now, limit, locked, r);
  }

  // ---- a drain is a run ------------------------------------------------------------------

  /** The steps of one publisher working its queue off. */
  function WorkOff(p: nat, queue: seq<nat>, fates: nat -> Fate, odd: int): seq<Event>
    decreases |queue|
  {
    if queue == [] then []
    else [Send(p, fates(queue[0]).ok), Elapse(fates(queue[0]).wait), Mark(p, fates(queue[0]).lost, odd)]
         + WorkOff(p, queue[1..], fates, odd)
  }

  lemma AfterOne(w: World, e: Event, rest: seq<Event>)
    requires Shaped(w) && Shaped(Next(w, e))
    ensures After(w, [e] + rest) == After(Next(w, e), rest)
  {
    assert ([e] + rest)[1..] == rest;
  }

  lemma AfterThree(w: World, a: Event, b: Event, c: Event, rest: seq<Event>)
    requires Shaped(w)
    ensures Shaped(Next(w, a)) && Shaped(Next(Next(w, a), b)) && Shaped(Next(Next(Next(w, a), b), c))
    ensures After(w, [a, b, c] + rest) == After(Next(Next(Next(w, a), b), c), rest)
  {
    NextShaped(w, a);
    NextShaped(Next(w, a), b);
    NextShaped(Next(Next(w, a), b), c);
    AfterOne(w, a, [b, c] + rest);
    AfterOne(Next(w, a), b, [c] + rest);
    AfterOne(Next(Next(w, a), b), c, rest);
    assert [a, b, c] + rest == [a] + ([b, c] + rest) && [b, c] + rest == [b] + ([c] + rest);
  }

  lemma WorkOffOne(w: World, p: nat, queue: seq<nat>, fates: nat -> Fate, odd: int)
    requires Shaped(w) && p < |w.pubs| && queue != [] && InTable(queue, w.rows)
    requires w.pubs[p] == Publisher(FlightsOf(queue, w.rows), Free)
    ensures var id, fate := queue[0], fates(queue[0]);
      var sent := Next(w, Send(p, fate.ok));
      && Shaped(sent) && Shaped(Next(sent, Elapse(fate.wait)))
      && var w' := Next(Next(sent, Elapse(fate.wait)), Mark(p, fate.lost, odd));
      && Shaped(w') && w'.now == w.now + fate.wait && |w'.pubs| == |w.pubs|
      && w'.rows == w.rows[id := Marked(w.rows[id], fate, w'.now, odd)]
      && w'.pubs[p] == Publisher(FlightsOf(queue[1..], w'.rows), Free)
  {
    var sent := Next(w, Send(p, fates(queue[0]).ok));
    NextShaped(w, Send(p, fates(queue[0]).ok));
    NextShaped(sent, Elapse(fates(queue[0]).wait));
    NextShaped(Next(sent, Elapse(fates(queue[0]).wait)), Mark(p, fates(queue[0]).lost, odd));
    assert FlightsOf(queue, w.rows)[0] == Flight(queue[0], w.rows[queue[0]].attempts);
    var w' := Next(Next(sent, Elapse(fates(queue[0]).wait)), Mark(p, fates(queue[0]).lost, odd));
    assert FlightsOf(queue, w.rows)[1..] == FlightsOf(queue[1..], w'.rows);
  }

  lemma {:induction false} WorkOffIsMarking(w: World, p: nat, queue: seq<nat>, fates: nat -> Fate, odd: int)
    requires Shaped(w) && p < |w.pubs| && InTable(queue, w.rows)
    requires w.pubs[p] == Publisher(FlightsOf(queue, w.rows), Free)
    ensures var w' := After(w, WorkOff(p, queue, fates, odd));
      && (w'.rows, w'.now) == MarkedInTurn(w.rows, queue, w.now, fates, odd)
      && p < |w'.pubs| && w'.pubs[p] == IDLE
    decreases |queue|
  {
    if queue != [] {
      var fate := fates(queue[0]);
      var a, b, c := Send(p, fate.ok), Elapse(fate.wait), Mark(p, fate.lost, odd);
      WorkOffOne(w, p, queue, fates, odd);
      AfterThree(w, a, b, c, WorkOff(p, queue[1..], fates, odd));
      WorkOffIsMarking(Next(Next(Next(w, a), b), c), p, queue[1..], fates, odd);
    }
  }

  /** A publisher's drain leaves the table a run of the protocol leaves: claim, then
      send, wait and mark row by row. Everything proved of runs holds of drains. */
  lemma DrainIsARun(w: World, p: nat, batch: int, d: Drain)
    requires Shaped(w) && p < |w.pubs| && w.pubs[p] == IDLE && !d.broken
    ensures var picked := Picked(w.rows, |w.rows|, w.now, BatchLimit(batch), d.locked);
      var w' := After(w, [Claim(p, batch, d.locked)] + WorkOff(p, picked, d.fates, d.odd));
      && (w'.rows, w'.now) == (AfterDrain(w.rows, w.now, batch, d).0, AfterDrain(w.rows, w.now, batch, d).1)
      && p < |w'.pubs| && w'.pubs[p] == IDLE
  {
    var picked := Picked(w.rows, |w.rows|, w.now, BatchLimit(batch), d.locked);
    var claim := Claim(p, batch, d.locked);
    NextShaped(w, claim);
    AfterOne(w, claim, WorkOff(p, picked, d.fates, d.odd));
    WorkOffIsMarking(Next(w, claim), p, picked, d.fates, d.odd);
  }

  // ---- past 33 attempts -------------------------------------------------------------------

  /** One row that failed `n` times and is due, and one publisher with nothing in hand. */
  ghost predicate Failing(w: World, n: nat)
  {
    && |w.rows| == 1 && Due(w.rows[0], w.now) && w.rows[0].attempts == n
    && w.pubs == [IDLE] && |w.hist| == 1 && |w.hist[0].claims| == n
  }

  /** Claim the row, fail to send it, and say so. */
  const FAILURE: seq<Event> := [Claim(0, 0, {}), Send(0, false), Mark(0, false, 0)]

  function AfterClaim(w: World): World
    requires |w.rows| == 1 && |w.hist| == 1
  {
    World(w.now, [Claimed(w.rows[0], w.now)], [Publisher([Flight(0, w.rows[0].attempts + 1)], Free)],
          [WithClaim(w.hist[0], w.now)])
  }

  /** What one failure leaves: one more attempt and claim, and the row due a delay from now. */
  function AfterFailure(w: World): World
    requires |w.rows| == 1 && |w.hist| == 1
  {
    var row := Claimed(w.rows[0], w.now);
    World(w.now, [Rescheduled(row, w.now, RetryDelay(row.attempts, 0))], [IDLE],
          [WithSend(WithClaim(w.hist[0], w.now), false)])
  }

  lemma OnlyRowPicked(rows: seq<Row>, now: int)
    requires |rows| == 1 && Due(rows[0], now)
    ensures Picked(rows, 1, now, DEFAULT_BATCH, {}) == [0]
  {
    assert Picked(rows, 0, now, DEFAULT_BATCH, {}) == [];
  }

  lemma ClaimsIt(w: World, n: nat)
    requires Failing(w, n) && Shaped(w)
    ensures Next(w, Claim(0, 0, {})) == AfterClaim(w)
  {
    OnlyRowPicked(w.rows, w.now);
    ClaimLeaves(w);
    OnlyRowClaimed(w.rows, w.hist, w.now);
  }

  lemma OnlyPublisher(pubs: seq<Publisher>, pub: Publisher)
    requires |pubs| == 1
    ensures pubs[0 := pub] == [pub]
  {
  }

  lemma ClaimLeaves(w: World)
    requires Shaped(w) && w.pubs == [IDLE] && |w.rows| == 1
    requires Picked(w.rows, 1, w.now, DEFAULT_BATCH, {}) == [0]
    ensures var rows := ClaimRows(w.rows, [0], w.now);
      DoClaim(w, 0, 0, {})
        == w.(rows := rows, pubs := [Publisher(FlightsOf([0], rows), Free)], hist := ClaimHistory(w.hist, [0], w.now))
  {
    OnlyPublisher(w.pubs, Publisher(FlightsOf([0], ClaimRows(w.rows, [0], w.now)), Free));
  }

  lemma OnlyRowClaimed(rows: seq<Row>, hist: seq<History>, now: int)
    requires |rows| == 1 && |hist| == 1
    ensures ClaimRows(rows, [0], now) == [Claimed(rows[0], now)]
    ensures FlightsOf([0], [Claimed(rows[0], now)]) == [Flight(0, rows[0].attempts + 1)]
    ensures ClaimHistory(hist, [0], now) == [WithClaim(hist[0], now)]
  {
    assert 0 in [0];
  }

  lemma FailsIt(w: World, n: nat)
    requires Failing(w, n) && Shaped(w)
    ensures After(w, FAILURE) == AfterFailure(w)
  {
    ClaimsIt(w, n);
    var t := AfterClaim(w);
    assert t.pubs[0].queue[1..] == [];
    AfterThree(w, Claim(0, 0, {}), Send(0, false), Mark(0, false, 0), []);
    assert FAILURE + [] == FAILURE;
  }

  /** A failure, then the longest delay. */
  function Failures(n: nat): seq<Event>
  {
    if n == 0 then [] else FAILURE + ([Elapse(MAX_DELAY)] + Failures(n - 1))
  }

  lemma {:induction false} AfterSplit(w: World, a: seq<Event>, b: seq<Event>)
    requires Shaped(w)
    ensures After(w, a + b) == After(After(w, a), b)
    decreases |a|
  {
    if a == [] {
      assert a + b == b;
    } else {
      assert (a + b)[1..] == a[1..] + b;
      AfterSplit(Next(w, a[0]), a[1..], b);
    }
  }

  /** Up to 33 attempts the row is due again once the longest delay has passed. */
  lemma FailsOnce(w: World, n: nat)
    requires Failing(w, n) && n < 33
    ensures Shaped(AfterFailure(w)) && Failing(Next(AfterFailure(w), Elapse(MAX_DELAY)), n + 1)
  {
    RetryRange(n + 1, 0);
  }

  lemma {:induction false} FailsOver(w: World, n: nat, k: nat)
    requires Failing(w, n) && n + k <= 33 && Shaped(w)
    ensures Failing(After(w, Failures(k)), n + k)
    decreases k
  {
    if k > 0 {
      FailsOnce(w, n);
      FailsIt(w, n);
      var rest := Failures(k - 1);
      AfterSplit(w, FAILURE, [Elapse(MAX_DELAY)] + rest);
      AfterOne(AfterFailure(w), Elapse(MAX_DELAY), rest);
      FailsOver(Next(AfterFailure(w), Elapse(MAX_DELAY)), n + 1, k - 1);
    }
  }

  /** From 34 attempts on, but for the delays that wrap to a positive number, a failure
      leaves the row due at once: it is claimed again at the very same instant. */
  lemma ClaimedAtOnce(w: World, n: nat)
    requires Failing(w, n) && 33 <= n < 62 && !WrapsPositive(n + 1)
    ensures Shaped(w) && Failing(AfterFailure(w), n + 1)
    ensures var t := After(w, FAILURE + [Claim(0, 0, {})]);
      |t.hist| == 1 && t.hist[0].claims == w.hist[0].claims + [w.now, w.now]
  {
    DueAtOnce(w, n);
    FailsIt(w, n);
    AfterSplit(w, FAILURE, [Claim(0, 0, {})]);
    ClaimsNext(AfterFailure(w), n + 1);
    assert AfterFailure(w).hist[0].claims == w.hist[0].claims + [w.now];
  }

  lemma DueAtOnce(w: World, n: nat)
    requires Failing(w, n) && 33 <= n < 62 && !WrapsPositive(n + 1)
    ensures Shaped(w) && Failing(AfterFailure(w), n + 1) && Shaped(AfterFailure(w)) && AfterFailure(w).now == w.now
  {
    BackoffMeansItIff(n + 1);
    assert RetryDelay(n + 1, 0) <= 0;
  }

  lemma ClaimsNext(w: World, n: nat)
    requires Failing(w, n) && Shaped(w)
    ensures After(w, [Claim(0, 0, {})]).hist == [WithClaim(w.hist[0], w.now)]
  {
    ClaimsIt(w, n);
    AfterOne(w, Claim(0, 0, {}), []);
    assert [Claim(0, 0, {})] + [] == [Claim(0, 0, {})];
  }

  lemma FirstRow()
    ensures var w := After(START, [Join, Enqueue]); Shaped(w) && Failing(w, 0)
  {
    var w := Next(START, Join);
    AfterOne(START, Join, [Enqueue]);
    AfterOne(w, Enqueue, []);
    assert [Join] + [Enqueue] == [Join, Enqueue] && [Enqueue] + [] == [Enqueue];
  }

  /** The lease ends at 33 attempts: a run from the start in which a row is claimed twice
      at one instant, after 33 failures each given the longest delay. */
  lemma LeaseEndsAt33()
    ensures var w := After(START, [Join, Enqueue] + Failures(33) + (FAILURE + [Claim(0, 0, {})]));
      && |w.hist| == 1 && |w.hist[0].claims| == 35
      && w.hist[0].claims[34] - w.hist[0].claims[33] == 0 && !Spaced(w.hist[0].claims, LEASE)
  {
    var failed := After(START, [Join, Enqueue] + Failures(33));
    FailedThirtyThree();
    AfterSplit(START, [Join, Enqueue] + Failures(33), FAILURE + [Claim(0, 0, {})]);
    ClaimedAtOnce(failed, 33);
    NotSpaced(After(failed, FAILURE + [Claim(0, 0, {})]).hist[0].claims, 33);
  }

  lemma FailedThirtyThree()
    ensures var w := After(START, [Join, Enqueue] + Failures(33)); Shaped(w) && Failing(w, 33)
  {
    FirstRow();
    AfterSplit(START, [Join, Enqueue], Failures(33));
    FailsOver(After(START, [Join, Enqueue]), 0, 33);
  }

  lemma NotSpaced(claims: seq<int>, k: nat)
    requires k + 1 < |claims| && claims[k + 1] - claims[k] < LEASE
    ensures !Spaced(claims, LEASE)
  {
  }
}
