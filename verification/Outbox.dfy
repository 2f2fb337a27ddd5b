/** The event outbox of internal/outbox/outbox.go: claim, send, mark, by any number
    of publishers over one table, with crashes and lost marks. Times are the
    database's, in microseconds. */
module Outbox {
  import opened Backoff

  const LEASE := 1_000_000
  const MAX_DELAY := 300_000_000
  const DEFAULT_BATCH := 32

  /** A row's identity is its position: ids are serial and rows are never deleted. */
  datatype Row = Row(availableAt: int, attempts: nat, dispatched: bool, failed: bool)

  // ---- the three statements ------------------------------------------------------

  predicate Due(row: Row, now: int)
  {
    !row.dispatched && row.availableAt <= now
  }

  function BatchLimit(limit: int): nat
  {
    if limit <= 0 then DEFAULT_BATCH else limit
  }

  /** The due rows among the first n, in id order, stepping over locked ones, up to the limit. */
  function Picked(rows: seq<Row>, n: nat, now: int, limit: nat, locked: set<nat>): (picked: seq<nat>)
    requires n <= |rows|
    ensures |picked| <= limit
    ensures forall k :: 0 <= k < |picked| ==> picked[k] < n && Due(rows[picked[k]], now) && picked[k] !in locked
    ensures forall j, k :: 0 <= j < k < |picked| ==> picked[j] < picked[k]
  {
    if n == 0 then []
    else
      var before := Picked(rows, n - 1, now, limit, locked);
      if Due(rows[n - 1], now) && n - 1 !in locked && |before| < limit then before + [n - 1] else before
  }

  function Claimed(row: Row, now: int): Row
  {
    row.(attempts := row.attempts + 1, availableAt := now + LEASE)
  }

  function ClaimRows(rows: seq<Row>, picked: seq<nat>, now: int): (out: seq<Row>)
    ensures |out| == |rows|
    ensures forall r :: 0 <= r < |rows| ==> out[r] == if r in picked then Claimed(rows[r], now) else rows[r]
  {
    seq(|rows|, r requires 0 <= r < |rows| => if r in picked then Claimed(rows[r], now) else rows[r])
  }

  function Dispatched(row: Row): Row
  {
    row.(dispatched := true, failed := false)
  }

  function Rescheduled(row: Row, now: int, delay: int): Row
  {
    row.(failed := true, availableAt := now + delay)
  }

  /** Whole milliseconds of a nanosecond delay, toward zero, in microseconds. */
  function DelayMicros(nanos: int): int
  {
    if nanos >= 0 then nanos / 1_000_000 * 1000 else -(-nanos / 1_000_000 * 1000)
  }

  /** Past 62 attempts Go leaves the conversion to the platform, which answers `odd`. */
  function RetryDelay(attempts: nat, odd: int): int
  {
    if attempts <= 62 then DelayMicros(BackoffFor(attempts, MAX_BACKOFF)) else odd
  }

  /** What becomes of one send: whether it succeeds, how long it takes, and whether
      the mark that follows is lost. */
  datatype Fate = Fate(ok: bool, wait: nat, lost: bool)

  /** A claimed row once it was sent and marked. */
  function Marked(row: Row, fate: Fate, at: int, odd: int): Row
  {
    if fate.lost then row
    else if fate.ok then Dispatched(row)
    else Rescheduled(row, at, RetryDelay(row.attempts, odd))
  }

  predicate InTable(queue: seq<nat>, rows: seq<Row>)
  {
    forall k :: 0 <= k < |queue| ==> queue[k] < |rows|
  }

  /** The rows and the clock once the claimed ones were sent and marked in turn. */
  function MarkedInTurn(rows: seq<Row>, queue: seq<nat>, clock: int, fates: nat -> Fate,
      odd: int): (out: (seq<Row>, int))
    requires InTable(queue, rows)
    ensures |out.0| == |rows| && out.1 >= clock
    decreases |queue|
  {
    if queue == [] then (rows, clock)
    else
      var id, at := queue[0], clock + fates(queue[0]).wait;
      MarkedInTurn(rows[id := Marked(rows[id], fates(id), at, odd)], queue[1..], at, fates, odd)
  }

  /** Every claimed row ends up marked, at some instant of the drain; no other row changes. */
  lemma {:induction false} MarkedEach(rows: seq<Row>, queue: seq<nat>, clock: int, fates: nat -> Fate, odd: int, r: nat)
    requires InTable(queue, rows) && r < |rows|
    requires forall j, k :: 0 <= j < k < |queue| ==> queue[j] < queue[k]
    ensures var (out, finish) := MarkedInTurn(rows, queue, clock, fates, odd);
      if r in queue then exists at :: clock <= at <= finish && out[r] == Marked(rows[r], fates(r), at, odd)
      else out[r] == rows[r]
    decreases |queue|
  {
    if queue != [] {
      var id, at := queue[0], clock + fates(queue[0]).wait;
      var rows' := rows[id := Marked(rows[id], fates(id), at, odd)];
      MarkedEach(rows', queue[1..], at, fates, odd, r);
      var (out, finish) := MarkedInTurn(rows, queue, clock, fates, odd);
      if r == id {
        assert r !in queue[1..];
        assert clock <= at <= finish && out[r] == Marked(rows[r], fates(r), at, odd);
      } else if r in queue {
        assert r in queue[1..];
        var at' :| at <= at' <= finish && out[r] == Marked(rows'[r], fates(r), at', odd);
        assert clock <= at' <= finish && out[r] == Marked(rows[r], fates(r), at', odd);
      }
    }
  }

  /** What a drain meets: a claim that fails, locked rows, the fates of its sends. */
  datatype Drain = Drain(broken: bool, locked: set<nat>, fates: nat -> Fate, odd: int)

  function AfterDrain(rows: seq<Row>, now: int, batch: int, d: Drain): (seq<Row>, int, Outcome)
  {
    if d.broken then (rows, now, DrainFailed)
    else
      var picked := Picked(rows, |rows|, now, BatchLimit(batch), d.locked);
      var (out, finish) := MarkedInTurn(ClaimRows(rows, picked, now), picked, now, d.fates, d.odd);
      (out, finish, Drained(|picked|))
  }

  /** One firing of the timer; the second drain happens only after a full first batch. */
  datatype Firing = Firing(now: int, first: Drain, second: Drain)

  function Fired(rows: seq<Row>, batch: int, f: Firing): (seq<Row>, Outcome)
  {
    var (once, finish, outcome) := AfterDrain(rows, f.now, batch, f.first);
    if outcome.Drained? && outcome.n > 0 && outcome.n >= batch
    then (AfterDrain(once, finish, batch, f.second).0, outcome) else (once, outcome)
  }

  function Polled(rows: seq<Row>, batch: int, firings: seq<Firing>): (seq<Row>, seq<Outcome>)
  {
    if firings == [] then (rows, [])
    else
      var (before, outcomes) := Polled(rows, batch, firings[..|firings| - 1]);
      var (after, outcome) := Fired(before, batch, firings[|firings| - 1]);
      (after, outcomes + [outcome])
  }

  lemma RetryRange(attempts: nat, odd: int)
    requires attempts <= 33
    ensures 2 * LEASE <= RetryDelay(attempts, odd) <= MAX_DELAY
  {
    BackoffRange(attempts);
  }

  /** The claim takes every due row it may: it stops short only at the limit. */
  lemma {:induction false} PickedComplete(rows: seq<Row>, n: nat, now: int, limit: nat, locked: set<nat>, r: nat)
    requires r < n <= |rows| && Due(rows[r], now) && r !in locked
    ensures r in Picked(rows, n, now, limit, locked) || |Picked(rows, n, now, limit, locked)| == limit
  {
    if r < n - 1 {
      PickedComplete(rows, n - 1, now, limit, locked, r);
    }
  }

  /** How many of the first n rows a claim may take. */
  function Waiting(rows: seq<Row>, n: nat, now: int, locked: set<nat>): nat
    requires n <= |rows|
  {
    if n == 0 then 0
    else Waiting(rows, n - 1, now, locked) + if Due(rows[n - 1], now) && n - 1 !in locked then 1 else 0
  }

  lemma {:induction false} PickedCount(rows: seq<Row>, n: nat, now: int, limit: nat, locked: set<nat>)
    requires n <= |rows|
    ensures |Picked(rows, n, now, limit, locked)| == Least(Waiting(rows, n, now, locked), limit)
  {
    if n > 0 {
      PickedCount(rows, n - 1, now, limit, locked);
    }
  }

  /** Which due rows a claim takes: those with fewer due, unlocked rows before them than the limit. */
  lemma {:induction false} PickedExactly(rows: seq<Row>, n: nat, now: int, limit: nat, locked: set<nat>, r: nat)
    requires r < n <= |rows| && Due(rows[r], now) && r !in locked
    ensures r in Picked(rows, n, now, limit, locked) <==> Waiting(rows, r, now, locked) < limit
  {
    if r < n - 1 {
      PickedExactly(rows, n - 1, now, limit, locked, r);
    } else {
      PickedCount(rows, r, now, limit, locked);
    }
  }

  /** The rows among the first n that a claim may take. */
  function Takeable(rows: seq<Row>, n: nat, now: int, locked: set<nat>): set<nat>
    requires n <= |rows|
  {
    set j: nat | j < n && !rows[j].dispatched && rows[j].availableAt <= now && j !in locked
  }

  lemma {:induction false} WaitingCounts(rows: seq<Row>, n: nat, now: int, locked: set<nat>)
    requires n <= |rows|
    ensures Waiting(rows, n, now, locked) == |Takeable(rows, n, now, locked)|
  {
    if n == 0 {
      assert Takeable(rows, 0, now, locked) == {};
    } else {
      WaitingCounts(rows, n - 1, now, locked);
      var before := Takeable(rows, n - 1, now, locked);
      assert Takeable(rows, n, now, locked)
          == if Due(rows[n - 1], now) && n - 1 !in locked then before + {n - 1} else before;
    }
  }

  /** A row is claimed exactly if it is not dispatched, its time has come, nobody holds it
      and fewer such rows than the limit, 32 if none is given, are older. */
  lemma ClaimedIff(rows: seq<Row>, now: int, limit: int, locked: set<nat>, r: nat)
    requires r < |rows|
    ensures r in Picked(rows, |rows|, now, BatchLimit(limit), locked)
       <==> && !rows[r].dispatched && rows[r].availableAt <= now && r !in locked
            && |Takeable(rows, r, now, locked)| < (if limit <= 0 then 32 else limit)
  {
    WaitingCounts(rows, r, now, locked);
    if Due(rows[r], now) && r !in locked {
      PickedExactly(rows, |rows|, now, BatchLimit(limit), locked, r);
    }
  }

  /** What a drain makes of a claimed row: dispatched for good if the send succeeds and the
      mark arrives, due after the retry delay if the send fails, due after a second if
      the mark is lost. */
  ghost predicate DrainedAs(was: Row, fate: Fate, now: int, finish: int, odd: int, after: Row)
  {
    && after.attempts == was.attempts + 1
    && after.dispatched == (fate.ok && !fate.lost)
    && (if fate.lost then after.availableAt == now + 1_000_000 && after.failed == was.failed
        else after.failed == !fate.ok)
    && (!fate.lost && !fate.ok ==>
          now <= after.availableAt - RetryDelay(was.attempts + 1, odd) <= finish)
  }

  lemma DrainMarks(rows: seq<Row>, now: int, batch: int, d: Drain, r: nat)
    requires !d.broken && r < |rows|
    ensures var (out, finish, _) := AfterDrain(rows, now, batch, d);
      && |out| == |rows|
      && (if r in Picked(rows, |rows|, now, BatchLimit(batch), d.locked)
          then DrainedAs(rows[r], d.fates(r), now, finish, d.odd, out[r]) else out[r] == rows[r])
  {
    var picked := Picked(rows, |rows|, now, BatchLimit(batch), d.locked);
    MarkedEach(ClaimRows(rows, picked, now), picked, now, d.fates, d.odd, r);
    var (out, finish, _) := AfterDrain(rows, now, batch, d);
    if r in picked {
      var at :| now <= at <= finish && out[r] == Marked(ClaimRows(rows, picked, now)[r], d.fates(r), at, d.odd);
      MarkedFields(rows[r], d.fates(r), now, at, finish, d.odd);
    }
  }

  lemma MarkedFields(row: Row, fate: Fate, now: int, at: int, finish: int, odd: int)
    requires now <= at <= finish && !row.dispatched
    ensures DrainedAs(row, fate, now, finish, odd, Marked(Claimed(row, now), fate, at, odd))
  {
  }

  /** A failed send is tried again after 2, 2, 4, ..., 256 seconds, then every five minutes. */
  lemma RetryDelays(attempts: nat, odd: int)
    requires attempts <= 33
    ensures RetryDelay(attempts, odd)
         == (if attempts <= 8 then [2, 2, 4, 8, 16, 32, 64, 128, 256][attempts] else 300) * 1_000_000
  {
    BackoffExact(attempts, MAX_BACKOFF);
    PowersToNine();
    if attempts >= 9 {
      PowGrows(9, attempts);
    }
  }

  lemma PowersToNine()
    ensures Pow2(1) == 2 && Pow2(2) == 4 && Pow2(3) == 8 && Pow2(4) == 16 && Pow2(5) == 32
    ensures Pow2(6) == 64 && Pow2(7) == 128 && Pow2(8) == 256 && Pow2(9) == 512
  {
    assert Pow2(0) == 1;
    assert Pow2(1) == 2 * Pow2(0) && Pow2(2) == 2 * Pow2(1) && Pow2(3) == 2 * Pow2(2) && Pow2(4) == 2 * Pow2(3);
    assert Pow2(5) == 2 * Pow2(4) && Pow2(6) == 2 * Pow2(5) && Pow2(7) == 2 * Pow2(6) && Pow2(8) == 2 * Pow2(7);
  }

  /** A drain reports how many rows it claimed, or that the claim failed, which changes nothing. */
  lemma DrainReports(rows: seq<Row>, now: int, batch: int, d: Drain)
    ensures var (out, finish, outcome) := AfterDrain(rows, now, batch, d);
      var waiting := |Takeable(rows, |rows|, now, d.locked)|;
      && (outcome == DrainFailed <==> d.broken) && (d.broken ==> out == rows && finish == now)
      && (outcome.Drained? ==> outcome.n == Least(waiting, if batch <= 0 then 32 else batch))
  {
    WaitingCounts(rows, |rows|, now, d.locked);
    PickedCount(rows, |rows|, now, BatchLimit(batch), d.locked);
  }

  lemma {:induction false} PolledCount(rows: seq<Row>, batch: int, firings: seq<Firing>)
    ensures |Polled(rows, batch, firings).1| == |firings|
    decreases |firings|
  {
    if firings != [] {
      PolledCount(rows, batch, firings[..|firings| - 1]);
    }
  }

  lemma PolledLast(rows: seq<Row>, batch: int, firings: seq<Firing>, k: nat)
    requires k < |firings|
    ensures var before, now := Polled(rows, batch, firings[..k]), Polled(rows, batch, firings[..k + 1]);
      && now.0 == Fired(before.0, batch, firings[k]).0
      && now.1 == before.1 + [Fired(before.0, batch, firings[k]).1] && |before.1| == k
  {
    PolledCount(rows, batch, firings[..k]);
    assert firings[..k + 1][..k] == firings[..k];
  }

  lemma {:induction false} PolledPrefix(rows: seq<Row>, batch: int, firings: seq<Firing>, k: nat)
    requires k <= |firings|
    ensures Polled(rows, batch, firings[..k]).1 <= Polled(rows, batch, firings).1
    decreases |firings|
  {
    if k < |firings| {
      assert firings[..|firings| - 1][..k] == firings[..k];
      PolledPrefix(rows, batch, firings[..|firings| - 1], k);
    } else {
      assert firings[..k] == firings;
    }
  }

  /** Every firing starts from the table the one before it left, and each is reported. */
  lemma FiringsInTurn(rows: seq<Row>, batch: int, firings: seq<Firing>, k: nat)
    requires k < |firings|
    ensures |Polled(rows, batch, firings).1| == |firings|
    ensures var before := Polled(rows, batch, firings[..k]).0;
      && Polled(rows, batch, firings).1[k] == Fired(before, batch, firings[k]).1
      && Polled(rows, batch, firings[..k + 1]).0 == Fired(before, batch, firings[k]).0
  {
    PolledCount(rows, batch, firings);
    PolledLast(rows, batch, firings, k);
    PolledPrefix(rows, batch, firings, k + 1);
  }

  /** A firing drains a second time exactly if the first claim found 32 rows or more. */
  lemma DrainsAgainIff(rows: seq<Row>, f: Firing)
    ensures var (once, finish, _) := AfterDrain(rows, f.now, 32, f.first);
      Fired(rows, 32, f).0
        == if !f.first.broken && |Takeable(rows, |rows|, f.now, f.first.locked)| >= 32
           then AfterDrain(once, finish, 32, f.second).0 else once
  {
    WaitingCounts(rows, |rows|, f.now, f.first.locked);
    PickedCount(rows, |rows|, f.now, 32, f.first.locked);
  }

  /** The oldest pending row is never passed over for a younger one. */
  lemma {:induction false} OldestFirst(rows: seq<Row>, n: nat, now: int, limit: nat, locked: set<nat>, r: nat, y: nat)
    requires r < y < n <= |rows| && Due(rows[r], now) && r !in locked && y in Picked(rows, n, now, limit, locked)
    ensures r in Picked(rows, n, now, limit, locked)
  {
    var before := Picked(rows, n - 1, now, limit, locked);
    if y in before {
      var k :| 0 <= k < |before| && before[k] == y;
      OldestFirst(rows, n - 1, now, limit, locked, r, y);
    } else {
      PickedComplete(rows, n - 1, now, limit, locked, r);
    }
  }

  class Store {
    var rows: seq<Row>

    constructor ()
      ensures rows == []
    {
      rows := [];
    }

    method Enqueue(now: int)
      modifies this
      ensures rows == old(rows) + [Row(now, 0, false, false)]
    {
      rows := rows + [Row(now, 0, false, false)];
    }

    /** One statement: select the due rows, bump them, hand them back. */
    method ClaimBatch(limit: int, now: int, locked: set<nat>) returns (picked: seq<nat>)
      modifies this
      ensures picked == Picked(old(rows), |old(rows)|, now, BatchLimit(limit), locked)
      ensures rows == ClaimRows(old(rows), picked, now)
    {
      var cap := if limit <= 0 then DEFAULT_BATCH else limit;
      picked := [];
      for r := 0 to |rows|
        invariant |rows| == |old(rows)|
        invariant picked == Picked(old(rows), r, now, cap, locked)
        invariant forall k :: 0 <= k < |rows| ==>
          rows[k] == if k in picked then Claimed(old(rows)[k], now) else old(rows)[k]
      {
        assert r !in picked;
        if Due(rows[r], now) && r !in locked && |picked| < cap {
          rows := rows[r := Claimed(rows[r], now)];
          picked := picked + [r];
        }
      }
    }

    method MarkDispatched(id: nat)
      modifies this
      ensures rows == if id < |old(rows)| then old(rows)[id := Dispatched(old(rows)[id])] else old(rows)
    {
      if id < |rows| {
        rows := rows[id := Dispatched(rows[id])];
      }
    }

    method MarkFailed(id: nat, delay: int, now: int)
      modifies this
      ensures rows == if id < |old(rows)| then old(rows)[id := Rescheduled(old(rows)[id], now, delay)] else old(rows)
    {
      if id < |rows| {
        rows := rows[id := Rescheduled(rows[id], now, delay)];
      }
    }

    method MarkSent(id: nat, attempts: nat, fate: Fate, at: int, odd: int)
      requires id < |rows| && rows[id].attempts == attempts
      modifies this
      ensures rows == old(rows)[id := Marked(old(rows)[id], fate, at, odd)]
    {
      if !fate.lost {
        if fate.ok {
          MarkDispatched(id);
        } else {
          MarkFailed(id, RetryDelay(attempts, odd), at);
        }
      }
    }

    /** Sends and marks the claimed rows in turn, on the attempts the claim read. */
    method MarkAll(picked: seq<nat>, claimed: seq<Row>, now: int, fates: nat -> Fate, odd: int) returns (clock: int)
      requires rows == claimed && InTable(picked, claimed)
      modifies this
      ensures (rows, clock) == MarkedInTurn(claimed, picked, now, fates, odd)
    {
      clock := now;
      for k := 0 to |picked|
        invariant |rows| == |claimed| && forall r :: 0 <= r < |rows| ==> rows[r].attempts == claimed[r].attempts
        invariant MarkedInTurn(rows, picked[k..], clock, fates, odd) == MarkedInTurn(claimed, picked, now, fates, odd)
      {
        var id := picked[k];
        assert picked[k..][0] == id && picked[k..][1..] == picked[k + 1..];
        clock := clock + fates(id).wait;
        MarkSent(id, claimed[id].attempts, fates(id), clock, odd);
      }
    }

    method DrainOnce(batch: int, now: int, d: Drain) returns (outcome: Outcome, finish: int)
      modifies this
      ensures (rows, finish, outcome) == AfterDrain(old(rows), now, batch, d)
    {
      if d.broken {
        return DrainFailed, now;
      }
      var picked := ClaimBatch(batch, now, d.locked);
      finish := MarkAll(picked, rows, now, d.fates, d.odd);
      outcome := Drained(|picked|);
    }
  }

  /** Past 33 attempts the lease can break: a failed mark leaves the row due at once. */
  lemma OverflowedRetryIsDueAtOnce(row: Row, now: int, attempts: nat, odd: int)
    requires 34 <= attempts <= 62 && !WrapsPositive(attempts) && !row.dispatched
    ensures Due(Rescheduled(row, now, RetryDelay(attempts, odd)), now)
  {
    BackoffMeansItIff(attempts);
  }

  class Publisher {
    const store: Store
    var interval: int

    constructor (store: Store)
      ensures this.store == store && interval == TICK
    {
      this.store, interval := store, TICK;
    }

    /** One firing: drain, drain again if the batch was full, and adapt the interval. */
    method Fire(f: Firing) returns (outcome: Outcome)
      modifies this, store
      ensures (store.rows, outcome) == Fired(old(store.rows), DEFAULT_BATCH, f)
      ensures interval == if Idle(outcome) then NextInterval(old(interval), TICK) else TICK
    {
      var finish;
      outcome, finish := store.DrainOnce(DEFAULT_BATCH, f.now, f.first);
      match outcome
      case DrainFailed =>
        interval := NextInterval(interval, TICK);
      case Drained(n) =>
        if n > 0 {
          if n >= DEFAULT_BATCH {
            var _, _ := store.DrainOnce(DEFAULT_BATCH, finish, f.second);
          }
          interval := TICK;
        } else {
          interval := NextInterval(interval, TICK);
        }
    }

    /** The polling loop, for as many firings as there are. */
    method Run(firings: seq<Firing>) returns (outcomes: seq<Outcome>)
      requires interval == TICK
      modifies this, store
      ensures (store.rows, outcomes) == Polled(old(store.rows), DEFAULT_BATCH, firings)
      ensures interval == IntervalAfter(outcomes)
    {
      outcomes := [];
      for k := 0 to |firings|
        invariant (store.rows, outcomes) == Polled(old(store.rows), DEFAULT_BATCH, firings[..k])
        invariant interval == IntervalAfter(outcomes)
      {
        assert firings[..k + 1][..k] == firings[..k];
        var outcome := Fire(firings[k]);
        assert (outcomes + [outcome])[..|outcomes|] == outcomes;
        outcomes := outcomes + [outcome];
      }
      assert firings[..|firings|] == firings;
    }
  }
}
