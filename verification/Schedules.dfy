/** Report schedules claimed by any number of replicas: DueReportSchedules of
    internal/store/domain_writes.go. Times are whole seconds. */
module Schedules {
  import opened Spacing

  const DAY := 86_400

  datatype Schedule = Schedule(active: bool, nextRunAt: int)

  /** Who was handed the schedule, on which clock reading, for which due time. */
  datatype Claim = Claim(caller: nat, at: int, due: int)

  /** `claims` is what happened, also to schedules deleted since; no program reads it. */
  datatype World = World(rows: map<string, Schedule>, claims: map<string, seq<Claim>>)

  /** One row's part of a statement is one step: the row is locked, its condition
      looked at again, and it is advanced. Replicas read their own clocks. */
  datatype Event =
    | Create(id: string, active: bool, now: int)
    | Delete(id: string)
    | ClaimRow(caller: nat, id: string, now: int)

  predicate Due(row: Schedule, now: int)
  {
    row.active && row.nextRunAt <= now
  }

  function Next(w: World, e: Event): World
  {
    match e
    case Create(id, active, now) =>
      if id in w.claims then w
      else World(w.rows[id := Schedule(active, now + DAY)], w.claims[id := []])
    case Delete(id) => w.(rows := w.rows - {id})
    case ClaimRow(caller, id, now) =>
      if id !in w.rows || id !in w.claims || !Due(w.rows[id], now) then w
      else World(w.rows[id := w.rows[id].(nextRunAt := now + DAY)],
                 w.claims[id := w.claims[id] + [Claim(caller, now, w.rows[id].nextRunAt)]])
  }

  function After(w: World, events: seq<Event>): World
    decreases |events|
  {
    if events == [] then w else After(Next(w, events[0]), events[1..])
  }

  const START := World(map[], map[])

  function Times(claims: seq<Claim>): (times: seq<int>)
    ensures |times| == |claims| && forall i :: 0 <= i < |claims| ==> times[i] == claims[i].at
  {
    seq(|claims|, i requires 0 <= i < |claims| => claims[i].at)
  }

  /** Each claim answers the due time its predecessor set, a day after it. */
  ghost predicate Chained(claims: seq<Claim>)
  {
    && (forall i :: 0 <= i < |claims| ==> claims[i].due <= claims[i].at)
    && (forall i :: 0 < i < |claims| ==> claims[i].due == claims[i - 1].at + DAY)
  }

  ghost predicate Sound(w: World)
  {
    && (forall id :: id in w.rows ==> id in w.claims)
    && (forall id :: id in w.claims ==> Chained(w.claims[id]))
    && (forall id :: id in w.rows && w.claims[id] != [] ==>
          w.rows[id].nextRunAt == w.claims[id][|w.claims[id]| - 1].at + DAY)
  }

  /** A new schedule is active as asked and first due a day after it was made. */
  lemma CreatedAs(w: World, id: string, active: bool, now: int)
    requires id !in w.claims
    ensures var t := Next(w, Create(id, active, now));
      t == World(w.rows[id := Schedule(active, now + 86_400)], w.claims[id := []])
  {
  }

  /** A schedule is claimed exactly if it is active and its time has come, for the time it
      was due, and is then due a day after the claim; an inactive one waits for good. */
  lemma ClaimedIff(w: World, caller: nat, id: string, now: int)
    requires id in w.rows && id in w.claims
    ensures var t, row := Next(w, ClaimRow(caller, id, now)), w.rows[id];
      if row.active && row.nextRunAt <= now
      then t == World(w.rows[id := Schedule(true, now + 86_400)],
                      w.claims[id := w.claims[id] + [Claim(caller, now, row.nextRunAt)]])
      else t == w
  {
  }

  /** A schedule that is inactive, or deleted, is never claimed again. */
  lemma {:induction false} InactiveIsNeverClaimed(w: World, events: seq<Event>, id: string)
    requires id in w.claims && (id in w.rows ==> !w.rows[id].active)
    ensures var t := After(w, events); id in t.claims && t.claims[id] == w.claims[id]
    decreases |events|
  {
    if events != [] {
      InactiveIsNeverClaimed(Next(w, events[0]), events[1..], id);
    }
  }

  lemma {:induction false} SoundOverRuns(w: World, events: seq<Event>)
    requires Sound(w)
    ensures Sound(After(w, events))
    decreases |events|
  {
    if events != [] {
      NextSound(w, events[0]);
      SoundOverRuns(Next(w, events[0]), events[1..]);
    }
  }

  lemma ChainedNext(claims: seq<Claim>, caller: nat, now: int, due: int)
    requires Chained(claims) && due <= now && (claims != [] ==> due == claims[|claims| - 1].at + DAY)
    ensures Chained(claims + [Claim(caller, now, due)])
  {
  }

  lemma ClaimSound(w: World, caller: nat, id: string, now: int)
    requires Sound(w) && id in w.rows && Due(w.rows[id], now)
    ensures Sound(Next(w, ClaimRow(caller, id, now)))
  {
    ChainedNext(w.claims[id], caller, now, w.rows[id].nextRunAt);
  }

  lemma NextSound(w: World, e: Event)
    requires Sound(w)
    ensures Sound(Next(w, e))
  {
    match e
    case Create(_, _, _) =>
    case Delete(_) =>
    case ClaimRow(caller, id, now) => if id in w.rows && Due(w.rows[id], now) { ClaimSound(w, caller, id, now); }
  }

  /** Whatever the replicas do, no due time of a schedule is handed out twice, and
      its claims are at least a day apart. */
  lemma {:induction false} DueTimesOnce(claims: seq<Claim>, i: nat, j: nat)
    requires Chained(claims) && i < j < |claims|
    ensures claims[i].due < claims[j].due && claims[i].at + DAY <= claims[j].at
    decreases j - i
  {
    if i + 1 < j {
      DueTimesOnce(claims, i, j - 1);
    }
  }

  lemma ClaimsSpaced(claims: seq<Claim>)
    requires Chained(claims)
    ensures Spaced(Times(claims), DAY)
  {
  }

  lemma ClaimedOncePerDue(events: seq<Event>, id: string, i: nat, j: nat)
    requires id in After(START, events).claims && i < j < |After(START, events).claims[id]|
    ensures var claims := After(START, events).claims[id];
      claims[i].due != claims[j].due && claims[i].at + DAY <= claims[j].at
  {
    SoundOverRuns(START, events);
    DueTimesOnce(After(START, events).claims[id], i, j);
  }

  /** At most 1 + W / 24 h claims in any window of length W. */
  lemma ClaimRate(events: seq<Event>, id: string, from: int, width: nat)
    requires id in After(START, events).claims
    ensures InWindow(Times(After(START, events).claims[id]), from, width) <= 1 + width / DAY
  {
    SoundOverRuns(START, events);
    ClaimsSpaced(After(START, events).claims[id]);
    WindowHolds(Times(After(START, events).claims[id]), DAY, from, width);
  }

  // ---- the statement -------------------------------------------------------------------

  /** The steps of one statement: the rows it does not find locked, in its scan order. */
  function Scan(caller: nat, order: seq<string>, locked: set<string>, now: int): seq<Event>
  {
    if order == [] then []
    else
      var last := order[|order| - 1];
      Scan(caller, order[..|order| - 1], locked, now) + (if last in locked then [] else [ClaimRow(caller, last, now)])
  }

  lemma {:induction false} AfterAppend(w: World, events: seq<Event>, e: Event)
    ensures After(w, events + [e]) == Next(After(w, events), e)
    decreases |events|
  {
    if events == [] {
      assert ([] + [e])[1..] == [];
    } else {
      AfterAppend(Next(w, events[0]), events[1..], e);
      assert (events + [e])[1..] == events[1..] + [e];
    }
  }

  class Scheduler {
    var rows: map<string, Schedule>
    ghost var claims: map<string, seq<Claim>>

    ghost function View(): World
      reads this
    {
      World(rows, claims)
    }

    constructor ()
      ensures View() == START
    {
      rows, claims := map[], map[];
    }

    method ClaimIfDue(caller: nat, id: string, now: int) returns (claimed: bool)
      requires forall x :: x in rows ==> x in claims
      modifies this
      ensures View() == Next(old(View()), ClaimRow(caller, id, now))
      ensures claimed <==> id in old(rows) && Due(old(rows)[id], now)
    {
      claimed := id in rows && Due(rows[id], now);
      if claimed {
        claims := claims[id := claims[id] + [Claim(caller, now, rows[id].nextRunAt)]];
        rows := rows[id := rows[id].(nextRunAt := now + DAY)];
      }
    }

    /** Claims the due rows and hands back exactly those it claimed. */
    method DueReportSchedules(caller: nat, order: seq<string>, locked: set<string>, now: int) returns (due: seq<string>)
      requires forall id :: id in rows ==> id in claims
      requires forall i, j :: 0 <= i < j < |order| ==> order[i] != order[j]
      modifies this
      ensures View() == After(old(View()), Scan(caller, order, locked, now))
      ensures forall id :: id in due <==> id in order && id !in locked && id in old(rows) && Due(old(rows)[id], now)
    {
      due := [];
      for k := 0 to |order|
        invariant View() == After(old(View()), Scan(caller, order[..k], locked, now))
        invariant forall id :: id in rows ==> id in claims
        invariant forall id :: id !in order[..k] ==>
          (id in rows <==> id in old(rows)) && (id in rows ==> rows[id] == old(rows)[id])
        invariant forall id ::
          id in due <==> id in order[..k] && id !in locked && id in old(rows) && Due(old(rows)[id], now)
      {
        var id := order[k];
        assert order[..k + 1][..k] == order[..k] && order[..k + 1] == order[..k] + [id];
        assert id !in order[..k];
        if id in locked {
          assert Scan(caller, order[..k + 1], locked, now) == Scan(caller, order[..k], locked, now);
        } else {
          AfterAppend(old(View()), Scan(caller, order[..k], locked, now), ClaimRow(caller, id, now));
          var claimed := ClaimIfDue(caller, id, now);
          if claimed {
            due := due + [id];
          }
        }
      }
      assert order[..|order|] == order;
    }
  }
}
