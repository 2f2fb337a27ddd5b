/** The migration runner of internal/migrate/migrate.go: a checksum-guarded loop over
    a ledger of applied versions, stopped and resumed at any point. */
module Migrate {
  import opened Wrappers

  /** `creates`: the body creates one of the service's tables. `commits`: the body
      contains its own COMMIT, which ends the runner's transaction early. */
  datatype Migration = Migration(version: string, checksum: string, creates: bool, commits: bool)

  /** A build: its files in version order, and the prior checksums it heals. */
  datatype Release = Release(migs: seq<Migration>, healed: set<(string, string)>)

  type Ledger = map<string, string>

  /** Directory entries have distinct names. */
  ghost predicate Distinct(migs: seq<Migration>)
  {
    forall i, j :: 0 <= i < j < |migs| ==> migs[i].version != migs[j].version
  }

  // ---- the loop ---------------------------------------------------------------------

  /** How far the loop got: the ledger, the versions whose bodies it executed, whether
      one of them created tables, and whether a checksum mismatch stopped it. */
  datatype Progress = Progress(ledger: Ledger, newly: seq<string>, made: bool, stopped: bool)

  predicate Mismatched(ledger: Ledger, m: Migration, healed: set<(string, string)>)
  {
    m.version in ledger && ledger[m.version] != m.checksum && (m.version, ledger[m.version]) !in healed
  }

  function LoopStep(p: Progress, m: Migration, healed: set<(string, string)>): Progress
  {
    if p.stopped then p
    else if m.version !in p.ledger then
      p.(ledger := p.ledger[m.version := m.checksum], newly := p.newly + [m.version], made := p.made || m.creates)
    else if Mismatched(p.ledger, m, healed) then p.(stopped := true)
    else p.(ledger := p.ledger[m.version := m.checksum])
  }

  /** The loop over the first n files. */
  function Loop(ledger: Ledger, r: Release, n: nat): Progress
    requires n <= |r.migs|
  {
    if n == 0 then Progress(ledger, [], false, false)
    else LoopStep(Loop(ledger, r, n - 1), r.migs[n - 1], r.healed)
  }

  /** A file the ledger agrees with needs nothing more. */
  predicate Done(ledger: Ledger, m: Migration)
  {
    m.version in ledger && ledger[m.version] == m.checksum
  }

  /** One of the first n files has the version. */
  ghost predicate Among(r: Release, n: nat, v: string)
    requires n <= |r.migs|
  {
    exists i :: 0 <= i < n && r.migs[i].version == v
  }

  /** Only the ledger entries of processed files change, and an unstopped loop has done them all. */
  lemma {:induction false} LoopFrame(ledger: Ledger, r: Release, n: nat)
    requires n <= |r.migs|
    ensures var p := Loop(ledger, r, n);
      && (forall v :: v in ledger ==> v in p.ledger)
      && (forall v :: v in p.ledger && v !in ledger ==> v in p.newly)
      && (forall v :: v in p.newly ==>
            v in p.ledger && v !in ledger && Among(r, n, v))
      && (forall v :: !Among(r, n, v) ==>
            (v in p.ledger <==> v in ledger) && (v in ledger ==> p.ledger[v] == ledger[v]))
  {
    if n > 0 {
      LoopFrame(ledger, r, n - 1);
      AmongNext(r, n);
    }
  }

  lemma AmongNext(r: Release, n: nat)
    requires 0 < n <= |r.migs|
    ensures forall v :: Among(r, n, v) <==> Among(r, n - 1, v) || r.migs[n - 1].version == v
  {
  }

  lemma {:induction false} LoopDoes(ledger: Ledger, r: Release, n: nat, i: nat)
    requires n <= |r.migs| && i < n && Distinct(r.migs) && !Loop(ledger, r, n).stopped
    ensures Done(Loop(ledger, r, n).ledger, r.migs[i])
  {
    if i < n - 1 {
      LoopDoes(ledger, r, n - 1, i);
    }
  }

  /** Stopped once, stopped for good. */
  lemma {:induction false} StoppedStays(ledger: Ledger, r: Release, j: nat, n: nat)
    requires j <= n <= |r.migs| && Loop(ledger, r, j).stopped
    ensures Loop(ledger, r, n) == Loop(ledger, r, j)
  {
    if j < n {
      StoppedStays(ledger, r, j, n - 1);
    }
  }

  /** Rerunning what is done changes nothing. */
  lemma {:induction false} RerunDone(ledger: Ledger, r: Release, n: nat)
    requires n <= |r.migs| && forall i :: 0 <= i < n ==> Done(ledger, r.migs[i])
    ensures Loop(ledger, r, n) == Progress(ledger, [], false, false)
  {
    if n > 0 {
      RerunDone(ledger, r, n - 1);
      var m := r.migs[n - 1];
      assert ledger[m.version := m.checksum] == ledger;
    }
  }

  /** What a crashed run did, followed by what the resumed run did. */
  function Joined(a: Progress, b: Progress): Progress
  {
    Progress(b.ledger, a.newly + b.newly, a.made || b.made, b.stopped)
  }

  lemma StepJoined(a: Progress, b: Progress, m: Migration, healed: set<(string, string)>)
    ensures LoopStep(Joined(a, b), m, healed) == Joined(a, LoopStep(b, m, healed))
  {
  }

  /** Stopping after j files and starting over adds up to not stopping. */
  lemma {:induction false} LoopResumes(ledger: Ledger, r: Release, j: nat, n: nat)
    requires j <= n <= |r.migs| && Distinct(r.migs) && !Loop(ledger, r, j).stopped
    ensures Joined(Loop(ledger, r, j), Loop(Loop(ledger, r, j).ledger, r, n)) == Loop(ledger, r, n)
    decreases n
  {
    var p := Loop(ledger, r, j);
    if j == n {
      forall i | 0 <= i < n ensures Done(p.ledger, r.migs[i]) {
        LoopDoes(ledger, r, n, i);
      }
      RerunDone(p.ledger, r, n);
    } else {
      LoopResumes(ledger, r, j, n - 1);
      StepJoined(p, Loop(p.ledger, r, n - 1), r.migs[n - 1], r.healed);
    }
  }

  /** After a mismatch a rerun stops at the same file, having done nothing. */
  lemma {:induction false} StoppedAgain(ledger: Ledger, r: Release, j: nat) returns (at: nat)
    requires j <= |r.migs| && Distinct(r.migs) && Loop(ledger, r, j).stopped
    ensures at < j && !Loop(ledger, r, at).stopped && Mismatched(ledger, r.migs[at], r.healed)
    ensures Loop(ledger, r, j) == Loop(ledger, r, at).(stopped := true)
  {
    if Loop(ledger, r, j - 1).stopped {
      at := StoppedAgain(ledger, r, j - 1);
    } else {
      at := j - 1;
      LoopFrame(ledger, r, at);
    }
  }

  // ---- the database ----------------------------------------------------------------------

  /** `legacy` lists the versions of the shared ledger, if there is one; `log` is every
      body executed, in order; no program reads it. */
  datatype Db = Db(ledger: Ledger, legacy: Option<set<string>>, tables: bool, log: seq<string>)

  predicate Seeds(db: Db, m: Migration)
  {
    db.legacy.Some? && db.tables && m.version in db.legacy.value && m.version !in db.ledger
  }

  /** The seeding inserts of the first n files. */
  function Seeded(db: Db, r: Release, n: nat): Db
    requires n <= |r.migs|
  {
    if n == 0 then db
    else
      var before := Seeded(db, r, n - 1);
      if Seeds(before, r.migs[n - 1])
      then before.(ledger := before.ledger[r.migs[n - 1].version := r.migs[n - 1].checksum])
      else before
  }

  function Apply(db: Db, p: Progress): Db
  {
    db.(ledger := p.ledger, tables := db.tables || p.made, log := db.log + p.newly)
  }

  /** One uninterrupted Up, and whether it failed on a mismatch. */
  function FullUp(db: Db, r: Release): (Db, bool)
  {
    var seeded := Seeded(db, r, |r.migs|);
    var p := Loop(seeded.ledger, r, |r.migs|);
    (Apply(seeded, p), p.stopped)
  }

  /** Where a run can die: between two seeding inserts, between two files, or in the
      transaction of the file the loop has come to. */
  datatype Crash = Seeding(n: nat) | Between(n: nat) | Inside(n: nat)

  predicate Possible(c: Crash, r: Release)
  {
    if c.Inside? then c.n < |r.migs| else c.n <= |r.migs|
  }

  /** The loop has come to file n and would apply it. */
  predicate Applies(db: Db, r: Release, n: nat)
    requires n < |r.migs|
  {
    var p := Loop(Seeded(db, r, |r.migs|).ledger, r, n);
    !p.stopped && r.migs[n].version !in p.ledger
  }

  /** What the death leaves. The open transaction is rolled back, unless the body committed it. */
  function Crashed(db: Db, r: Release, c: Crash): Db
    requires Possible(c, r)
    decreases if c.Inside? then 1 else 0
  {
    match c
    case Seeding(n) => Seeded(db, r, n)
    case Between(n) =>
      var seeded := Seeded(db, r, |r.migs|);
      Apply(seeded, Loop(seeded.ledger, r, n))
    case Inside(n) =>
      var reached := Crashed(db, r, Between(n));
      if Applies(db, r, n) && r.migs[n].commits
      then reached.(tables := reached.tables || r.migs[n].creates, log := reached.log + [r.migs[n].version])
      else reached
  }

  // ---- seeding ------------------------------------------------------------------------------

  /** No file would be seeded: nothing in the shared ledger is missing from our own. */
  ghost predicate Closed(db: Db, r: Release)
  {
    db.legacy.None? || forall i :: 0 <= i < |r.migs| && r.migs[i].version in db.legacy.value ==>
      r.migs[i].version in db.ledger
  }

  lemma {:induction false} SeededFrame(db: Db, r: Release, n: nat)
    requires n <= |r.migs|
    ensures var s := Seeded(db, r, n);
      && s == db.(ledger := s.ledger) && (forall v :: v in db.ledger ==> v in s.ledger && s.ledger[v] == db.ledger[v])
      && (db.tables && db.legacy.Some? ==>
            forall i :: 0 <= i < n && r.migs[i].version in db.legacy.value ==> r.migs[i].version in s.ledger)
  {
    if n > 0 {
      SeededFrame(db, r, n - 1);
    }
  }

  lemma {:induction false} NothingToSeed(db: Db, r: Release, n: nat)
    requires n <= |r.migs| && (Closed(db, r) || !db.tables)
    ensures Seeded(db, r, n) == db
  {
    if n > 0 {
      NothingToSeed(db, r, n - 1);
    }
  }

  /** Seeding interrupted and redone is seeding. */
  lemma {:induction false} SeedingResumes(db: Db, r: Release, j: nat, n: nat)
    requires j <= n <= |r.migs|
    ensures Seeded(Seeded(db, r, j), r, n) == Seeded(db, r, n)
    decreases n
  {
    SeededFrame(db, r, j);
    if j == n {
      SeedingStays(db, r, j, j);
    } else {
      SeedingResumes(db, r, j, n - 1);
    }
  }

  lemma {:induction false} SeedingStays(db: Db, r: Release, j: nat, n: nat)
    requires n <= j <= |r.migs|
    ensures Seeded(Seeded(db, r, j), r, n) == Seeded(db, r, j)
  {
    SeededFrame(db, r, j);
    if n > 0 {
      SeedingStays(db, r, j, n - 1);
    }
  }

  // ---- crash and resume -----------------------------------------------------------------------

  /** A crash that hits a committed body whose ledger row was not written yet. */
  predicate TornCommit(db: Db, r: Release, c: Crash)
    requires Possible(c, r)
  {
    c.Inside? && Applies(db, r, c.n) && r.migs[c.n].commits
  }

  /** The dead run created the first tables, so the next one reads the shared ledger
      after all, and finds in it a version this database has not applied. */
  ghost predicate LateSeeding(db: Db, r: Release, c: Crash)
    requires Possible(c, r)
  {
    && !c.Seeding? && db.legacy.Some? && !db.tables && Loop(db.ledger, r, c.n).made
    && exists j ::
         && 0 <= j < |r.migs| && r.migs[j].version in db.legacy.value
         && r.migs[j].version !in Loop(db.ledger, r, c.n).ledger
  }

  /** What an operator can check beforehand: there are tables already, or nothing in
      the shared ledger that our own lacks. */
  ghost predicate NoLateSeeding(db: Db, r: Release)
  {
    db.tables || Closed(db, r)
  }

  lemma CheckedBeforehand(db: Db, r: Release, c: Crash)
    requires Possible(c, r) && NoLateSeeding(db, r)
    ensures !LateSeeding(db, r, c)
  {
    if !c.Seeding? {
      LoopFrame(db.ledger, r, c.n);
    }
  }

  lemma NoSecondSeeding(db: Db, r: Release, n: nat)
    requires n <= |r.migs| && !LateSeeding(db, r, Between(n))
    ensures var d := Crashed(db, r, Between(n)); Closed(d, r) || !d.tables
  {
    var seeded := Seeded(db, r, |r.migs|);
    SeededFrame(db, r, |r.migs|);
    LoopFrame(seeded.ledger, r, n);
    if !db.tables {
      NothingToSeed(db, r, |r.migs|);
    }
  }

  lemma ResumeBetween(db: Db, r: Release, n: nat)
    requires n <= |r.migs| && Distinct(r.migs) && !LateSeeding(db, r, Between(n))
    ensures FullUp(Crashed(db, r, Between(n)), r) == FullUp(db, r)
  {
    var seeded := Seeded(db, r, |r.migs|);
    var d := Crashed(db, r, Between(n));
    NoSecondSeeding(db, r, n);
    NothingToSeed(d, r, |r.migs|);
    var p := Loop(seeded.ledger, r, n);
    var q := Loop(p.ledger, r, |r.migs|);
    if p.stopped {
      StoppedStays(seeded.ledger, r, n, |r.migs|);
      StoppedRerun(seeded.ledger, r, n);
      assert p.newly + [] == p.newly;
    } else {
      LoopResumes(seeded.ledger, r, n, |r.migs|);
    }
    ApplyJoined(seeded, p, q);
  }

  /** A version seeded late is recorded without its body ever having run. */
  lemma LateSeedingShows(db: Db, r: Release, n: nat)
    requires n <= |r.migs| && LogSound(db) && LateSeeding(db, r, Between(n))
    ensures FullUp(Crashed(db, r, Between(n)), r) != FullUp(db, r)
  {
    NothingToSeed(db, r, |r.migs|);
    var p := Loop(db.ledger, r, n);
    var j :| 0 <= j < |r.migs| && r.migs[j].version in db.legacy.value && r.migs[j].version !in p.ledger;
    var w := r.migs[j].version;
    var d := Crashed(db, r, Between(n));
    var again := Seeded(d, r, |r.migs|);
    SeededFrame(d, r, |r.migs|);
    LoopFrame(db.ledger, r, n);
    LoopFrame(db.ledger, r, |r.migs|);
    LoopFrame(again.ledger, r, |r.migs|);
    assert w in FullUp(d, r).0.ledger && w !in FullUp(d, r).0.log;
    assert w in FullUp(db, r).0.ledger ==> w in FullUp(db, r).0.log;
  }

  lemma ApplyJoined(db: Db, p: Progress, q: Progress)
    ensures Apply(Apply(db, p), q) == Apply(db, Joined(p, q))
  {
  }

  lemma StoppedRerun(ledger: Ledger, r: Release, n: nat)
    requires n <= |r.migs| && Distinct(r.migs) && Loop(ledger, r, n).stopped
    ensures Loop(Loop(ledger, r, n).ledger, r, |r.migs|) == Progress(Loop(ledger, r, n).ledger, [], false, true)
  {
    var at := StoppedAgain(ledger, r, n);
    StopsAtOnce(ledger, r, at);
    StoppedStays(Loop(ledger, r, at).ledger, r, at + 1, |r.migs|);
  }

  /** A rerun finds the files before the mismatch done, and stops at it. */
  lemma StopsAtOnce(ledger: Ledger, r: Release, at: nat)
    requires at < |r.migs| && Distinct(r.migs) && !Loop(ledger, r, at).stopped
    requires Mismatched(ledger, r.migs[at], r.healed)
    ensures Loop(Loop(ledger, r, at).ledger, r, at + 1) == Progress(Loop(ledger, r, at).ledger, [], false, true)
  {
    var reached := Loop(ledger, r, at).ledger;
    forall i | 0 <= i < at ensures Done(reached, r.migs[i]) {
      LoopDoes(ledger, r, at, i);
    }
    RerunDone(reached, r, at);
    StillMismatched(ledger, r, at);
  }

  lemma StillMismatched(ledger: Ledger, r: Release, at: nat)
    requires at < |r.migs| && Distinct(r.migs) && Mismatched(ledger, r.migs[at], r.healed)
    ensures Mismatched(Loop(ledger, r, at).ledger, r.migs[at], r.healed)
  {
    LoopFrame(ledger, r, at);
  }

  // ---- bodies run once ---------------------------------------------------------------------------

  ghost predicate Once(log: seq<string>)
  {
    forall i, j :: 0 <= i < j < |log| ==> log[i] != log[j]
  }

  /** Every executed body is recorded, and none was executed twice. */
  ghost predicate LogSound(db: Db)
  {
    && (forall v :: v in db.log ==> v in db.ledger)
    && Once(db.log)
  }

  lemma {:induction false} NewlyOnce(ledger: Ledger, r: Release, n: nat)
    requires n <= |r.migs|
    ensures Once(Loop(ledger, r, n).newly)
  {
    if n > 0 {
      NewlyOnce(ledger, r, n - 1);
      LoopFrame(ledger, r, n - 1);
    }
  }

  lemma LogAfter(db: Db, r: Release, n: nat)
    requires n <= |r.migs| && LogSound(db)
    ensures LogSound(Crashed(db, r, Between(n)))
  {
    var seeded := Seeded(db, r, |r.migs|);
    SeededFrame(db, r, |r.migs|);
    LoopFrame(seeded.ledger, r, n);
    NewlyOnce(seeded.ledger, r, n);
    forall v | v in Loop(seeded.ledger, r, n).newly ensures v !in db.log {
      assert v !in seeded.ledger;
    }
    LogExtended(db, Crashed(db, r, Between(n)), Loop(seeded.ledger, r, n).newly);
  }

  /** Bodies not executed before are executed, each once, and recorded. */
  lemma LogExtended(db: Db, after: Db, newly: seq<string>)
    requires LogSound(db) && Once(newly) && after.log == db.log + newly
    requires forall v :: v in newly ==> v in after.ledger && v !in db.log
    requires forall v :: v in db.ledger ==> v in after.ledger
    ensures LogSound(after)
  {
    AppendOnce(db.log, newly);
    forall v | v in after.log ensures v in after.ledger {
      assert v in db.log || v in newly;
    }
  }

  lemma AppendOnce(a: seq<string>, b: seq<string>)
    requires Once(a) && Once(b) && forall v :: v in b ==> v !in a
    ensures Once(a + b)
  {
    forall i, j | 0 <= i < j < |a + b| ensures (a + b)[i] != (a + b)[j] {
      if i < |a| <= j {
        assert (a + b)[j] in b && (a + b)[i] in a;
      }
    }
  }

  /** A run that dies anywhere but between a body's own commit and the ledger row is
      finished by the next one exactly as if it had not died, same ledger and same
      executed bodies, if and only if the shared ledger is not read late. */
  lemma ResumeEqualsUninterrupted(db: Db, r: Release, c: Crash)
    requires Possible(c, r) && Distinct(r.migs) && LogSound(db) && !TornCommit(db, r, c)
    ensures FullUp(Crashed(db, r, c), r) == FullUp(db, r) <==> !LateSeeding(db, r, c)
  {
    match c
    case Seeding(n) => SeedingResumes(db, r, n, |r.migs|);
    case Between(n) => BetweenIff(db, r, n);
    case Inside(n) => BetweenIff(db, r, n);
  }

  lemma BetweenIff(db: Db, r: Release, n: nat)
    requires n <= |r.migs| && Distinct(r.migs) && LogSound(db)
    ensures FullUp(Crashed(db, r, Between(n)), r) == FullUp(db, r) <==> !LateSeeding(db, r, Between(n))
  {
    if LateSeeding(db, r, Between(n)) {
      LateSeedingShows(db, r, n);
    } else {
      ResumeBetween(db, r, n);
    }
  }

  ghost predicate Twice(log: seq<string>, version: string)
  {
    exists i, j :: 0 <= i < j < |log| && log[i] == version && log[j] == version
  }

  /** A body that commits itself runs twice when the runner dies right after it, and no
      other body runs again. */
  lemma TornRunsTwice(db: Db, r: Release, n: nat)
    requires n < |r.migs| && Distinct(r.migs) && NoLateSeeding(db, r) && TornCommit(db, r, Inside(n))
    ensures var log := FullUp(Crashed(db, r, Inside(n)), r).0.log;
      && |log| == |FullUp(db, r).0.log| + 1
      && Twice(log, r.migs[n].version)
      && multiset(log) == multiset(FullUp(db, r).0.log) + multiset{r.migs[n].version}
  {
    var reached := Crashed(db, r, Between(n));
    var torn := Crashed(db, r, Inside(n));
    CheckedBeforehand(db, r, Between(n));
    ResumeBetween(db, r, n);
    ClosedAfterLoop(db, r, n);
    NothingToSeed(reached, r, |r.migs|);
    NothingToSeed(torn, r, |r.migs|);
    ComesBackToBody(Seeded(db, r, |r.migs|).ledger, r, n);
    TwiceAcross(reached.log, Loop(reached.ledger, r, |r.migs|).newly, r.migs[n].version);
  }

  /** A rerun of the loop from where it died executes the body it had come to. */
  lemma ComesBackToBody(ledger: Ledger, r: Release, n: nat)
    requires n < |r.migs| && Distinct(r.migs) && !Loop(ledger, r, n).stopped
    requires r.migs[n].version !in Loop(ledger, r, n).ledger
    ensures r.migs[n].version in Loop(Loop(ledger, r, n).ledger, r, |r.migs|).newly
  {
    var reached := Loop(ledger, r, n).ledger;
    forall i | 0 <= i < n ensures Done(reached, r.migs[i]) {
      LoopDoes(ledger, r, n, i);
    }
    RerunDone(reached, r, n);
    NewlyGrows(reached, r, n + 1, |r.migs|, r.migs[n].version);
  }

  lemma {:induction false} NewlyGrows(ledger: Ledger, r: Release, j: nat, n: nat, v: string)
    requires j <= n <= |r.migs| && v in Loop(ledger, r, j).newly
    ensures v in Loop(ledger, r, n).newly
  {
    if j < n {
      NewlyGrows(ledger, r, j, n - 1, v);
    }
  }

  lemma TwiceAcross(a: seq<string>, b: seq<string>, v: string)
    requires v in b
    ensures Twice(a + [v] + b, v) && multiset(a + [v] + b) == multiset(a + b) + multiset{v}
  {
    var j :| 0 <= j < |b| && b[j] == v;
    assert (a + [v] + b)[|a|] == v && (a + [v] + b)[|a| + 1 + j] == v;
  }

  lemma ClosedAfterLoop(db: Db, r: Release, n: nat)
    requires n <= |r.migs| && NoLateSeeding(db, r)
    ensures Closed(Crashed(db, r, Between(n)), r)
  {
    var seeded := Seeded(db, r, |r.migs|);
    SeededFrame(db, r, |r.migs|);
    LoopFrame(seeded.ledger, r, n);
  }

  lemma CrashKeepsLog(db: Db, r: Release, c: Crash)
    requires Possible(c, r) && LogSound(db) && !TornCommit(db, r, c)
    ensures LogSound(Crashed(db, r, c))
  {
    match c
    case Seeding(n) => SeededFrame(db, r, n);
    case Between(n) => LogAfter(db, r, n);
    case Inside(n) => LogAfter(db, r, n);
  }

  /** Runs that die one after another. */
  function CrashedRuns(db: Db, r: Release, crashes: seq<Crash>): Db
    requires forall i :: 0 <= i < |crashes| ==> Possible(crashes[i], r)
    decreases |crashes|
  {
    if crashes == [] then db else CrashedRuns(Crashed(db, r, crashes[0]), r, crashes[1..])
  }

  /** None of the deaths hits a body between its own commit and its ledger row, or
      makes the next run read the shared ledger late. */
  ghost predicate CleanDeaths(db: Db, r: Release, crashes: seq<Crash>)
    requires forall i :: 0 <= i < |crashes| ==> Possible(crashes[i], r)
    decreases |crashes|
  {
    crashes == []
    || (!TornCommit(db, r, crashes[0]) && !LateSeeding(db, r, crashes[0])
        && CleanDeaths(Crashed(db, r, crashes[0]), r, crashes[1..]))
  }

  /** Any number of deaths and restarts end like one uninterrupted run, and no body runs twice. */
  lemma {:induction false} CrashesDoNotShow(db: Db, r: Release, crashes: seq<Crash>)
    requires forall i :: 0 <= i < |crashes| ==> Possible(crashes[i], r)
    requires Distinct(r.migs) && LogSound(db) && CleanDeaths(db, r, crashes)
    ensures FullUp(CrashedRuns(db, r, crashes), r) == FullUp(db, r)
    ensures LogSound(FullUp(db, r).0) && LogSound(CrashedRuns(db, r, crashes))
    decreases |crashes|
  {
    if crashes == [] {
      LogAfter(db, r, |r.migs|);
    } else {
      var c := crashes[0];
      ResumeEqualsUninterrupted(db, r, c);
      CrashKeepsLog(db, r, c);
      CrashesDoNotShow(Crashed(db, r, c), r, crashes[1..]);
    }
  }

  ghost predicate NoOwnCommits(r: Release)
  {
    forall i :: 0 <= i < |r.migs| ==> !r.migs[i].commits
  }

  /** With bodies that leave the transaction to the runner, and tables or a closed
      ledger to begin with, every death is clean. */
  lemma {:induction false} DeathsAreClean(db: Db, r: Release, crashes: seq<Crash>)
    requires forall i :: 0 <= i < |crashes| ==> Possible(crashes[i], r)
    requires NoLateSeeding(db, r) && NoOwnCommits(r)
    ensures CleanDeaths(db, r, crashes)
    decreases |crashes|
  {
    if crashes != [] {
      var c := crashes[0];
      CheckedBeforehand(db, r, c);
      match c {
        case Seeding(n) => SeededFrame(db, r, n);
        case Between(n) => ClosedAfterLoop(db, r, n);
        case Inside(n) => ClosedAfterLoop(db, r, n);
      }
      DeathsAreClean(Crashed(db, r, c), r, crashes[1..]);
    }
  }

  /** A further Up executes nothing and changes nothing, and fails exactly if this one did. */
  lemma UpAgainDoesNothing(db: Db, r: Release)
    requires Distinct(r.migs) && !LateSeeding(db, r, Between(|r.migs|))
    ensures FullUp(FullUp(db, r).0, r) == FullUp(db, r)
    ensures FullUp(FullUp(db, r).0, r).0.log == FullUp(db, r).0.log
  {
    ResumeBetween(db, r, |r.migs|);
  }

  lemma SuccessIsFinal(db: Db, r: Release)
    requires Distinct(r.migs) && !FullUp(db, r).1
    ensures FullUp(FullUp(db, r).0, r) == FullUp(db, r)
  {
    if !db.tables {
      NothingToSeed(db, r, |r.migs|);
      forall j | 0 <= j < |r.migs| ensures r.migs[j].version in Loop(db.ledger, r, |r.migs|).ledger {
        LoopDoes(db.ledger, r, |r.migs|, j);
      }
    }
    UpAgainDoesNothing(db, r);
  }

  // ---- mismatches ------------------------------------------------------------------------------------

  /** The ledger has the file's version under a checksum neither its own nor healed. */
  predicate Foreign(ledger: Ledger, r: Release, m: Migration)
  {
    m.version in ledger && ledger[m.version] != m.checksum && (m.version, ledger[m.version]) !in r.healed
  }

  /** A failed Up names a file whose recorded checksum is neither its own nor healed;
      every earlier file is done and every later one is as it was. */
  lemma MismatchStopsThere(db: Db, r: Release) returns (at: nat)
    requires Distinct(r.migs) && FullUp(db, r).1
    ensures at < |r.migs|
    ensures var seeded, after := Seeded(db, r, |r.migs|).ledger, FullUp(db, r).0.ledger;
      && Foreign(seeded, r, r.migs[at])
      && r.migs[at].version in after && after[r.migs[at].version] == seeded[r.migs[at].version]
      && (forall i :: 0 <= i < at ==> Done(after, r.migs[i]))
      && (forall i :: at < i < |r.migs| ==>
            (r.migs[i].version in after <==> r.migs[i].version in seeded)
            && (r.migs[i].version in seeded ==> after[r.migs[i].version] == seeded[r.migs[i].version]))
  {
    var ledger := Seeded(db, r, |r.migs|).ledger;
    at := StoppedAgain(ledger, r, |r.migs|);
    forall i | 0 <= i < at ensures Done(Loop(ledger, r, at).ledger, r.migs[i]) {
      LoopDoes(ledger, r, at, i);
    }
    LoopFrame(ledger, r, at);
  }

  /** An Up that succeeds leaves the ledger agreeing with every file. */
  lemma SuccessDoesAll(db: Db, r: Release, i: nat)
    requires Distinct(r.migs) && !FullUp(db, r).1 && i < |r.migs|
    ensures Done(FullUp(db, r).0.ledger, r.migs[i])
  {
    LoopDoes(Seeded(db, r, |r.migs|).ledger, r, |r.migs|, i);
  }

  // ---- which files do what ---------------------------------------------------------------------------

  /** Seeding records a file only under its own checksum. */
  lemma {:induction false} SeededMeans(db: Db, r: Release, n: nat, i: nat)
    requires n <= |r.migs| && i < |r.migs| && Distinct(r.migs)
    ensures var v, l := r.migs[i].version, Seeded(db, r, n).ledger;
      && (v in l <==> v in db.ledger || (i < n && db.legacy.Some? && db.tables && v in db.legacy.value))
      && (v in l ==> l[v] == if v in db.ledger then db.ledger[v] else r.migs[i].checksum)
  {
    if n > 0 {
      SeededMeans(db, r, n - 1, i);
      SeededFrame(db, r, n - 1);
    }
  }

  lemma SeededForeign(db: Db, r: Release, i: nat)
    requires i < |r.migs| && Distinct(r.migs)
    ensures Foreign(Seeded(db, r, |r.migs|).ledger, r, r.migs[i]) <==> Foreign(db.ledger, r, r.migs[i])
  {
    SeededMeans(db, r, |r.migs|, i);
  }

  /** The loop stops exactly at a foreign checksum among the files it has come to. */
  lemma {:induction false} StopsIff(ledger: Ledger, r: Release, n: nat)
    requires n <= |r.migs| && Distinct(r.migs)
    ensures Loop(ledger, r, n).stopped <==> exists i :: 0 <= i < n && Foreign(ledger, r, r.migs[i])
  {
    if n > 0 {
      StopsIff(ledger, r, n - 1);
      StopsNext(ledger, r, n);
    }
  }

  lemma StopsNext(ledger: Ledger, r: Release, n: nat)
    requires 0 < n <= |r.migs| && Distinct(r.migs)
    ensures Loop(ledger, r, n).stopped <==> Loop(ledger, r, n - 1).stopped || Foreign(ledger, r, r.migs[n - 1])
  {
    LoopFrame(ledger, r, n - 1);
    assert !Among(r, n - 1, r.migs[n - 1].version);
  }

  /** Up fails exactly if some file's version stands in the ledger under a checksum that is
      neither the file's own nor listed as healed; seeding makes no difference to that. */
  lemma FailsIff(db: Db, r: Release)
    requires Distinct(r.migs)
    ensures FullUp(db, r).1 <==> exists i :: 0 <= i < |r.migs| && Foreign(db.ledger, r, r.migs[i])
  {
    StopsIff(Seeded(db, r, |r.migs|).ledger, r, |r.migs|);
    forall i | 0 <= i < |r.migs|
      ensures Foreign(Seeded(db, r, |r.migs|).ledger, r, r.migs[i]) <==> Foreign(db.ledger, r, r.migs[i])
    {
      SeededForeign(db, r, i);
    }
  }

  /** The versions among the first n files that the ledger lacks, in order. */
  function Missing(ledger: Ledger, r: Release, n: nat): seq<string>
    requires n <= |r.migs|
  {
    if n == 0 then []
    else Missing(ledger, r, n - 1) + if r.migs[n - 1].version in ledger then [] else [r.migs[n - 1].version]
  }

  lemma {:induction false} ExecutesMissing(ledger: Ledger, r: Release, n: nat)
    requires n <= |r.migs| && Distinct(r.migs) && !Loop(ledger, r, n).stopped
    ensures Loop(ledger, r, n).newly == Missing(ledger, r, n)
  {
    if n > 0 {
      ExecutesMissing(ledger, r, n - 1);
      LoopFrame(ledger, r, n - 1);
    }
  }

  /** A successful Up executes exactly the bodies the seeded ledger lacks, in file order. */
  lemma UpExecutesMissing(db: Db, r: Release)
    requires Distinct(r.migs) && !FullUp(db, r).1
    ensures FullUp(db, r).0.log == db.log + Missing(Seeded(db, r, |r.migs|).ledger, r, |r.migs|)
  {
    SeededFrame(db, r, |r.migs|);
    ExecutesMissing(Seeded(db, r, |r.migs|).ledger, r, |r.migs|);
  }

  /** What an Up executes. */
  function Executed(db: Db, r: Release): seq<string>
  {
    Loop(Seeded(db, r, |r.migs|).ledger, r, |r.migs|).newly
  }

  lemma LogOfUp(db: Db, r: Release)
    ensures FullUp(db, r).0.log == db.log + Executed(db, r)
  {
    SeededFrame(db, r, |r.migs|);
  }

  /** A file recorded under a healed checksum, with no foreign one up to it, ends under its
      own checksum, and that Up does not execute its body. */
  lemma HealedIsRestamped(db: Db, r: Release, i: nat)
    requires Distinct(r.migs) && i < |r.migs| && r.migs[i].version in db.ledger
    requires (r.migs[i].version, db.ledger[r.migs[i].version]) in r.healed
    requires forall j :: 0 <= j < i ==> !Foreign(db.ledger, r, r.migs[j])
    ensures Done(FullUp(db, r).0.ledger, r.migs[i])
    ensures FullUp(db, r).0.log == db.log + Executed(db, r) && r.migs[i].version !in Executed(db, r)
  {
    var ledger := Seeded(db, r, |r.migs|).ledger;
    LogOfUp(db, r);
    SeededMeans(db, r, |r.migs|, i);
    LoopFrame(ledger, r, |r.migs|);
    NotStoppedBy(db, r, i);
    LoopDoes(ledger, r, i + 1, i);
    DoneStays(ledger, r, i + 1, |r.migs|, i);
  }

  lemma NotStoppedBy(db: Db, r: Release, i: nat)
    requires Distinct(r.migs) && i < |r.migs| && forall j :: 0 <= j <= i ==> !Foreign(db.ledger, r, r.migs[j])
    ensures !Loop(Seeded(db, r, |r.migs|).ledger, r, i + 1).stopped
  {
    forall j | 0 <= j <= i ensures !Foreign(Seeded(db, r, |r.migs|).ledger, r, r.migs[j]) {
      SeededForeign(db, r, j);
    }
    StopsIff(Seeded(db, r, |r.migs|).ledger, r, i + 1);
  }

  lemma {:induction false} DoneStays(ledger: Ledger, r: Release, j: nat, n: nat, i: nat)
    requires i < j <= n <= |r.migs| && Distinct(r.migs) && Done(Loop(ledger, r, j).ledger, r.migs[i])
    ensures Done(Loop(ledger, r, n).ledger, r.migs[i])
  {
    if j < n {
      DoneStays(ledger, r, j, n - 1, i);
    }
  }

  // ---- the runner -------------------------------------------------------------------------------------

  class Database {
    var ledger: Ledger
    const legacy: Option<set<string>>
    var tables: bool
    ghost var log: seq<string>

    ghost function View(): Db
      reads this
    {
      Db(ledger, legacy, tables, log)
    }

    constructor (legacy: Option<set<string>>)
      ensures View() == Db(map[], legacy, false, [])
    {
      this.legacy, ledger, tables, log := legacy, map[], false, [];
    }

    method SeedFromLegacyLedger(r: Release)
      modifies this`ledger
      ensures View() == Seeded(old(View()), r, |r.migs|)
    {
      if legacy.None? || !tables {
        NothingToSeed(View(), r, |r.migs|);
        return;
      }
      for i := 0 to |r.migs|
        invariant View() == Seeded(old(View()), r, i)
      {
        if r.migs[i].version in legacy.value && r.migs[i].version !in ledger {
          ledger := ledger[r.migs[i].version := r.migs[i].checksum];
        }
      }
    }

    /** The body and its ledger row, in one transaction. */
    method RunBody(m: Migration)
      modifies this`ledger, this`tables, this`log
      ensures ledger == old(ledger)[m.version := m.checksum] && tables == (old(tables) || m.creates)
      ensures log == old(log) + [m.version]
    {
      tables := tables || m.creates;
      log := log + [m.version];
      ledger := ledger[m.version := m.checksum];
    }

    /** Works through the files in order against the ledger as it was read; healed
        files are re-stamped without running their bodies. */
    method WorkThrough(r: Release, applied: Ledger) returns (newly: seq<string>, failed: bool)
      requires Distinct(r.migs) && ledger == applied
      modifies this`ledger, this`tables, this`log
      ensures var p := Loop(applied, r, |r.migs|);
        View() == Apply(old(View()), p) && failed == p.stopped && newly == p.newly
    {
      newly := [];
      for i := 0 to |r.migs|
        invariant !Loop(applied, r, i).stopped && ledger == Loop(applied, r, i).ledger
        invariant newly == Loop(applied, r, i).newly && log == old(log) + newly
        invariant tables == (old(tables) || Loop(applied, r, i).made)
      {
        var m := r.migs[i];
        LoopFrame(applied, r, i);
        if m.version !in applied {
          RunBody(m);
          newly := newly + [m.version];
        } else if applied[m.version] != m.checksum {
          if (m.version, applied[m.version]) !in r.healed {
            StoppedStays(applied, r, i + 1, |r.migs|);
            return newly, true;
          }
          ledger := ledger[m.version := m.checksum];
        }
      }
      failed := false;
    }

    /** Seeds, reads the ledger once, and lists the versions executed, in order. */
    method Up(r: Release) returns (newly: seq<string>, failed: bool)
      requires Distinct(r.migs)
      modifies this`ledger, this`tables, this`log
      ensures (View(), failed) == FullUp(old(View()), r)
      ensures log == old(log) + newly
    {
      SeedFromLegacyLedger(r);
      SeededFrame(old(View()), r, |r.migs|);
      newly, failed := WorkThrough(r, ledger);
    }
  }
}
