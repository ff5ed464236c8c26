/** The poller run alone is runs of its protocol tasks, in the table, the ledger and the counters alike: what holds of
    every interleaving holds of it. */
module BatchRefinement {
  import opened Options
  import opened Rounding
  import opened ItemTotals
  import opened BatchJobs
  import opened SpendCounters
  import opened BatchProtocol
  import Budgets = BudgetService
  import Settlements = BatchSettlement
  import Poller = BatchPoller

  // ---- one task on one job ----

  /** A job, the task that is at it, and the store its scripts move. */
  datatype Local = Local(core: Core, next: Option<Task>, store: Store)

  /** What the poller shares of a job: its row, its part of the ledger, and the counters. */
  datatype Seen = Seen(row: Option<Job>, ledger: map<CustomId, ItemRow>, store: Store)

  function SeenOf(l: Local): Seen { Seen(l.core.row, l.core.ledger, l.store) }

  function Scripted(store: Store, m: Money, cost: nat): Store {
    match m
    case Same => store
    case Adds(k) => SetPending(store, k, Pending(store, k) + cost)
    case Releases(k) => SetPending(store, k, NonNegative(Pending(store, k) - cost))
  }

  ghost function Once(l: Local, t: nat, reply: Reply, now: int): Local
    requires l.next.Some?
  {
    var out := StepTask(l.core, t, l.next.value, reply, now);
    Local(out.core, out.next, Scripted(l.store, out.money, Cost(l.core)))
  }

  /** The task's steps, one per reply, until it ends or the replies run out. */
  ghost function RunTask(l: Local, t: nat, replies: seq<Reply>, now: int): Local
    decreases |replies|
  {
    if l.next.None? || replies == [] then l else RunTask(Once(l, t, replies[0], now), t, replies[1..], now)
  }

  /** Some replies take it there. */
  ghost predicate Reaches(l: Local, t: nat, now: int, seen: Seen) { exists replies :: SeenOf(RunTask(l, t, replies, now)) == seen }

  lemma {:induction false} ReachesNow(l: Local, t: nat, now: int)
    ensures Reaches(l, t, now, SeenOf(l))
  {
    assert SeenOf(RunTask(l, t, [], now)) == SeenOf(l);
  }

  /** Prefixing one step. */
  lemma {:induction false} ReachesAfter(l: Local, t: nat, first: Reply, now: int, next: Local, seen: Seen)
    requires l.next.Some? && next == Once(l, t, first, now) && Reaches(next, t, now, seen)
    ensures Reaches(l, t, now, seen)
  {
    var rest :| SeenOf(RunTask(next, t, rest, now)) == seen;
    assert ([first] + rest)[1..] == rest;
    assert RunTask(l, t, [first] + rest, now) == RunTask(next, t, rest, now);
  }

  // ---- the releases of a finish ----

  /** The job is keyed as the release keys it, and its upstream returns what the answers hold. */
  ghost predicate Fits(c: Core, row: Job, a: Poller.Answers) {
    && row.submittedAt >= 0 && c.ceiling == row.ceiling
    && (a.budgets.Some? ==> c.keys == Budgets.BatchKeys(a.budgets.value, Some(row.agent), row.submittedAt))
    && c.results == Settlements.Summaries(Settlements.FirstRows(a.spec, a.results.stream))
  }

  predicate RowFits(row: Option<Job>, snapshot: Job) { row.Some? ==> RowOk(row.value) && SameIdentity(row.value, snapshot) }

  predicate SameButReleased(a: Core, b: Core) { b == a.(finReleased := b.finReleased) }

  /** From the key it is at, the release loop may get to any later one. */
  lemma {:induction false} ReleasesTo(c: Core, t: nat, j: JobId, at: nat, n: nat, before: Store, now: int)
    requires at < |c.keys| && at <= n <= |c.keys|
    ensures Reaches(Local(c, Some(FinReleasing(j, at)), Budgets.Dropped(before, c.keys[..at], Cost(c))), t, now,
                    Seen(c.row, c.ledger, Budgets.Dropped(before, c.keys[..n], Cost(c))))
    decreases n - at
  {
    var l := Local(c, Some(FinReleasing(j, at)), Budgets.Dropped(before, c.keys[..at], Cost(c)));
    if at == n {
      ReachesNow(l, t, now);
    } else {
      var next := Released(l, t, j, at, before, now);
      if at + 1 == |c.keys| {
        ReachesNow(next, t, now);
      } else {
        ReleasesTo(next.core, t, j, at + 1, n, before, now);
      }
      ReachesAfter(l, t, Ok, now, next, Seen(c.row, c.ledger, Budgets.Dropped(before, c.keys[..n], Cost(c))));
    }
  }

  lemma {:induction false} Released(l: Local, t: nat, j: JobId, at: nat, before: Store, now: int) returns (next: Local)
    requires at < |l.core.keys| && l.next == Some(FinReleasing(j, at))
    requires l.store == Budgets.Dropped(before, l.core.keys[..at], Cost(l.core))
    ensures next == Once(l, t, Ok, now) && SameButReleased(l.core, next.core)
    ensures next.next == (if at + 1 == |l.core.keys| then None else Some(FinReleasing(j, at + 1)))
    ensures next.store == Budgets.Dropped(before, l.core.keys[..at + 1], Cost(l.core))
  {
    next := Once(l, t, Ok, now);
    assert l.core.keys[..at + 1][..at] == l.core.keys[..at];
  }

  /** The first `n` releases after a finish matched. */
  lemma {:induction false} ReleasesFrom(c: Core, t: nat, j: JobId, n: nat, before: Store, now: int)
    requires n <= |c.keys| && Cost(c) > 0
    ensures Reaches(Local(c, if c.keys != [] then Some(FinReleasing(j, 0)) else None, before), t, now,
                    Seen(c.row, c.ledger, Budgets.Dropped(before, c.keys[..n], Cost(c))))
  {
    assert c.keys[..0] == [] && Budgets.Dropped(before, [], Cost(c)) == before;
    if c.keys == [] {
      assert c.keys[..n] == [];
      ReachesNow(Local(c, None, before), t, now);
    } else {
      ReleasesTo(c, t, j, 0, n, before, now);
    }
  }

  /** A finish that matched releases what `Freed` says. */
  lemma {:induction false} Frees(c: Core, t: nat, j: JobId, store: Store, job: Job, a: Poller.Answers)
    requires Fits(c, job, a)
    ensures Reaches(Local(c, if Cost(c) > 0 && c.keys != [] then Some(FinReleasing(j, 0)) else None, store), t, a.now,
                    Seen(c.row, c.ledger, Poller.Freed(store, job, a)))
  {
    if Cost(c) == 0 {
      ReachesNow(Local(c, None, store), t, a.now);
    } else if a.budgets.None? {
      ReleasesFrom(c, t, j, 0, store, a.now);
      assert c.keys[..0] == [];
    } else {
      ReleasesFrom(c, t, j, Budgets.Reach(a.fault, |c.keys|), store, a.now);
    }
  }

  /** A finish: one step to the row it leaves, then the releases. */
  lemma {:induction false} Finishes(c: Core, t: nat, store: Store, j: JobId, status: Status, kind: Option<string>, totals: Totals, readable: bool,
                                    job: Job, a: Poller.Answers)
    requires Fits(c, job, a) && RowFits(c.row, job) && IsTerminal(status)
    ensures var next := Poller.FinishRow(c.row, status, kind, totals, a.now);
            Reaches(Local(c, Some(Finishing(j, status, kind, totals, readable)), store), t, a.now,
                    Seen(next, c.ledger, Poller.FreedIf(store, c.row, next, job, a)))
  {
    var l := Local(c, Some(Finishing(j, status, kind, totals, readable)), store);
    var row := Poller.FinishRow(c.row, status, kind, totals, a.now);
    var next := Matched(l, t, j, status, kind, totals, readable, job, a);
    if Live(c.row) && Terminal(row) {
      Frees(next.core, t, j, store, job, a);
    } else {
      ReachesNow(next, t, a.now);
    }
    ReachesAfter(l, t, Ok, a.now, next, Seen(row, c.ledger, Poller.FreedIf(store, c.row, row, job, a)));
  }

  lemma {:induction false} Matched(l: Local, t: nat, j: JobId, status: Status, kind: Option<string>, totals: Totals, readable: bool,
                                   job: Job, a: Poller.Answers) returns (next: Local)
    requires l.next == Some(Finishing(j, status, kind, totals, readable)) && IsTerminal(status)
    requires Fits(l.core, job, a) && RowFits(l.core.row, job)
    ensures next == Once(l, t, Ok, a.now) && next.store == l.store && Fits(next.core, job, a)
    ensures next.core.row == Poller.FinishRow(l.core.row, status, kind, totals, a.now) && next.core.ledger == l.core.ledger
    ensures next.next == if Live(l.core.row) && Terminal(next.core.row) && Cost(next.core) > 0 && next.core.keys != [] then Some(FinReleasing(j, 0)) else None
  {
    next := Once(l, t, Ok, a.now);
    MatchedIff(l.core.row, job, status, kind, totals, a.now);
    FinishingShape(l.core, t, j, status, kind, totals, readable, a.now);
  }

  lemma {:induction false} FinishingShape(c: Core, t: nat, j: JobId, status: Status, kind: Option<string>, totals: Totals, readable: bool, now: int)
    ensures var out, w := StepFinishing(c, t, j, status, kind, totals, readable, now), Poller.FinishResult(c.row, status, kind, totals, now);
            && out.money.Same? && out.core == c.(row := After(c.row, w), winner := out.core.winner, settled := out.core.settled)
            && out.next == if w.Written? && Cost(c) > 0 && c.keys != [] then Some(FinReleasing(j, 0)) else None
  {
  }

  /** A finish matches exactly if it makes a live job terminal. */
  lemma {:induction false} MatchedIff(cur: Option<Job>, job: Job, status: Status, kind: Option<string>, totals: Totals, now: int)
    requires RowFits(cur, job) && IsTerminal(status)
    ensures Poller.FinishResult(cur, status, kind, totals, now).Written? <==> Live(cur) && Terminal(Poller.FinishRow(cur, status, kind, totals, now))
  {
  }

  // ---- settling ----

  /** The job's ledger as the poller's log shows it. */
  function LedgerOf(log: Settlements.Rows, a: Poller.Answers): map<CustomId, ItemRow> { Settlements.JobLedger(log, a.spec.id) }

  /** What is seen once the row is `next` and the ledger what the settling job's results make of it. */
  function Target(c: Core, store: Store, log: Settlements.Rows, next: Option<Job>, settling: Option<Job>, row: Job, a: Poller.Answers,
                  got: Poller.Extent): Seen
    requires row.submittedAt >= 0
  {
    Seen(next, LedgerOf(Poller.LogAfter(log, settling, a, got), a), Poller.FreedIf(store, c.row, next, row, a))
  }

  ghost predicate Ready(c: Core, log: Settlements.Rows, row: Job, a: Poller.Answers, got: Poller.Extent) {
    Fits(c, row, a) && RowFits(c.row, row) && c.ledger == LedgerOf(log, a) && Poller.CanGet(a, got)
  }

  /** One flush records whatever a settlement got to read. */
  lemma {:induction false} Flushes(c: Core, log: Settlements.Rows, row: Job, a: Poller.Answers, got: Poller.Extent) returns (ids: set<CustomId>)
    requires Fits(c, row, a) && c.ledger == LedgerOf(log, a)
    ensures InsertOnce(c.ledger, Restrict(c.results, ids))
            == LedgerOf(Settlements.Merged(log, Settlements.StreamRows(a.spec, Poller.ReadOf(a, got))), a)
    ensures got.Whole? ==> Restrict(c.results, ids).Keys == c.results.Keys
  {
    var stream := a.results.stream;
    var n := if !got.Whole? && got.at <= |stream| then got.at else |stream|;
    assert stream[..n] == Poller.ReadOf(a, got);
    Settlements.FlushIsStep(log, a.spec, stream, n, a.spec.id);
    ids := Settlements.FirstRows(a.spec, stream[..n]).Keys;
  }

  lemma {:induction false} Flushing(l: Local, t: nat, j: JobId, job: Job, verdict: Status, ids: set<CustomId>, now: int) returns (next: Local)
    requires l.next == Some(Settling(j, job, verdict, {}))
    ensures next == Once(l, t, Flushed(ids), now) && next.store == l.store
    ensures next.core == l.core.(ledger := InsertOnce(l.core.ledger, Restrict(l.core.results, ids)))
    ensures next.next == Some(Settling(j, job, verdict, Restrict(l.core.results, ids).Keys))
  {
    next := Once(l, t, Flushed(ids), now);
    assert {} + Restrict(l.core.results, ids).Keys == Restrict(l.core.results, ids).Keys;
  }

  /** A settlement: one flush of what it read, and unless it is cut short the end of the stream, or the answer that the
      results are gone, and the finish. */
  lemma {:induction false} Records(c: Core, t: nat, store: Store, j: JobId, job: Job, verdict: Status, log: Settlements.Rows, row: Job,
                                   a: Poller.Answers, got: Poller.Extent)
    requires Ready(c, log, row, a, got) && IsTerminal(verdict) && job.upstreamId.Some?
    ensures Reaches(Local(c, Some(Settling(j, job, verdict, {})), store), t, a.now,
                    Target(c, store, log, Poller.FinishedRow(c.row, job, verdict, a, got), Some(job), row, a, got))
  {
    var l := Local(c, Some(Settling(j, job, verdict, {})), store);
    var ids := Flushes(c, log, row, a, got);
    var next := Flushing(l, t, j, job, verdict, ids, a.now);
    assert next.core.ledger == LedgerOf(Poller.LogAfter(log, Some(job), a, got), a);
    assert Fits(next.core, row, a);
    var seen := Target(c, store, log, Poller.FinishedRow(c.row, job, verdict, a, got), Some(job), row, a, got);
    match got {
      case Whole => EndsStream(next, t, j, job, verdict, row, a);
      case Cut(_) => ReachesNow(next, t, a.now);
      case Gone(_) => FindsNone(next, t, j, job, verdict, row, a, got);
    }
    ReachesAfter(l, t, Flushed(ids), a.now, next, seen);
  }

  lemma {:induction false} EndsStream(l: Local, t: nat, j: JobId, job: Job, verdict: Status, row: Job, a: Poller.Answers)
    requires l.next == Some(Settling(j, job, verdict, l.core.results.Keys)) && IsTerminal(verdict)
    requires Fits(l.core, row, a) && RowFits(l.core.row, row) && job.upstreamId.Some?
    ensures var next := Poller.FinishedRow(l.core.row, job, verdict, a, Poller.Whole);
            Reaches(l, t, a.now, Seen(next, l.core.ledger, Poller.FreedIf(l.store, l.core.row, next, row, a)))
  {
    var status, totals := FinalStatus(job, verdict), TotalsOf(l.core.results);
    var next := Local(l.core, Some(Finishing(j, status, None, totals, true)), l.store);
    assert next == Once(l, t, Ok, a.now);
    Finishes(l.core, t, l.store, j, status, None, totals, true, row, a);
    var done := Poller.FinishedRow(l.core.row, job, verdict, a, Poller.Whole);
    ReachesAfter(l, t, Ok, a.now, next, Seen(done, l.core.ledger, Poller.FreedIf(l.store, l.core.row, done, row, a)));
  }

  /** Results that are gone settle nothing, whatever was flushed before. */
  lemma {:induction false} FindsNone(l: Local, t: nat, j: JobId, job: Job, verdict: Status, row: Job, a: Poller.Answers, got: Poller.Extent)
    requires l.next.Some? && l.next.value.Settling? && l.next.value == Settling(j, job, verdict, l.next.value.flushed) && IsTerminal(verdict)
    requires Fits(l.core, row, a) && RowFits(l.core.row, row) && got.Gone?
    ensures var next := Poller.FinishedRow(l.core.row, job, verdict, a, got);
            Reaches(l, t, a.now, Seen(next, l.core.ledger, Poller.FreedIf(l.store, l.core.row, next, row, a)))
  {
    var status := FinalStatus(job, verdict);
    var next := Local(l.core, Some(FinishEmpty(j, status, None)), l.store);
    assert next == Once(l, t, ResultsGone, a.now);
    Finishes(l.core, t, l.store, j, status, None, ZERO, false, row, a);
    var done := Poller.FinishedRow(l.core.row, job, verdict, a, got);
    ReachesAfter(l, t, ResultsGone, a.now, next, Seen(done, l.core.ledger, Poller.FreedIf(l.store, l.core.row, done, row, a)));
  }

  // ---- an advance ----

  function AfterHold(j: JobId, job: Job, verdict: Status): Task {
    if job.upstreamId.Some? then Settling(j, job, verdict, {}) else FinishEmpty(j, FinalStatus(job, verdict), None)
  }

  /** A hold leaves the row the same job's, and as live. */
  lemma {:induction false} Held(l: Local, t: nat, j: JobId, row: Job, verdict: Status, a: Poller.Answers) returns (next: Local, held: Option<Job>)
    requires RowFits(l.core.row, row) && IsTerminal(verdict) && l.next == Some(Holding(j, row, verdict))
    ensures !Poller.HoldResult(l.core.row, row, verdict).Violated? && held == After(l.core.row, Poller.HoldResult(l.core.row, row, verdict))
    ensures RowFits(held, row) && (Live(held) <==> Live(l.core.row))
    ensures next == Once(l, t, Ok, a.now)
    ensures next == Local(l.core.(row := held), Some(AfterHold(j, Poller.HeldJob(l.core.row, row, verdict), verdict)), l.store)
  {
    held := After(l.core.row, Poller.HoldResult(l.core.row, row, verdict));
    next := Once(l, t, Ok, a.now);
  }

  /** A definitive view: hold, settle, finish - or hold and record what was read, when the settlement was cut short. */
  lemma {:induction false} Settled(c: Core, t: nat, store: Store, j: JobId, row: Job, verdict: Status, log: Settlements.Rows,
                                   a: Poller.Answers, got: Poller.Extent)
    requires Ready(c, log, row, a, got) && IsTerminal(verdict)
    ensures Reaches(Local(c, Some(Holding(j, row, verdict)), store), t, a.now,
                    Target(c, store, log, Poller.DefinitiveRow(c.row, row, verdict, a, got), Poller.DefinitiveJob(c.row, row, verdict), row, a, got))
  {
    var l := Local(c, Some(Holding(j, row, verdict)), store);
    var next, held := Held(l, t, j, row, verdict, a);
    var job := Poller.HeldJob(c.row, row, verdict);
    HeldOn(next.core, t, store, j, job, verdict, log, row, a, got);
    ReachesAfter(l, t, Ok, a.now, next,
                 Target(next.core, store, log, Poller.FinishedRow(held, job, verdict, a, got), Some(job), row, a, got));
  }

  /** From a held job on. */
  lemma {:induction false} HeldOn(c: Core, t: nat, store: Store, j: JobId, job: Job, verdict: Status, log: Settlements.Rows, row: Job,
                                  a: Poller.Answers, got: Poller.Extent)
    requires Ready(c, log, row, a, got) && IsTerminal(verdict)
    ensures Reaches(Local(c, Some(AfterHold(j, job, verdict)), store), t, a.now,
                    Target(c, store, log, Poller.FinishedRow(c.row, job, verdict, a, got), Some(job), row, a, got))
  {
    if job.upstreamId.None? {
      if got.Cut? {
        ReachesNow(Local(c, Some(AfterHold(j, job, verdict)), store), t, a.now);
      } else {
        Finishes(c, t, store, j, FinalStatus(job, verdict), None, ZERO, false, row, a);
      }
    } else {
      Records(c, t, store, j, job, verdict, log, row, a, got);
    }
  }

  /** A task that ends with one write of the row releases nothing: no update makes a job terminal. */
  lemma {:induction false} Writes(l: Local, t: nat, p: Patch, when: Option<set<Status>>, row: Job, a: Poller.Answers)
    requires l.next.Some? && Once(l, t, Ok, a.now) == Local(Updated(l.core, p, when), None, l.store)
    requires RowFits(l.core.row, row) && row.submittedAt >= 0
    ensures var next := After(l.core.row, UpdateRow(l.core.row, p, when));
            Reaches(l, t, a.now, Seen(next, l.core.ledger, Poller.FreedIf(l.store, l.core.row, next, row, a)))
  {
    var next := Local(Updated(l.core, p, when), None, l.store);
    if l.core.row.Some? {
      TerminalAbsorbs(l.core.row, p, when);
    }
    ReachesNow(next, t, a.now);
    ReachesAfter(l, t, Ok, a.now, next, SeenOf(next));
  }

  /** A view that is not final writes the row, and no more. */
  lemma {:induction false} Notes(c: Core, t: nat, store: Store, j: JobId, row: Job, status: Option<UpstreamStatus>, counts: Option<(nat, nat)>, a: Poller.Answers)
    requires RowFits(c.row, row) && row.submittedAt >= 0 && (status.None? || !IsTerminal(status.value))
    ensures var next := Poller.StatusRow(c.row, row, status, counts, a, Poller.Whole);
            var tk := if status.None? then NoteUnmapped(j, row) else Patching(j, status.value, counts);
            Reaches(Local(c, Some(tk), store), t, a.now, Seen(next, c.ledger, Poller.FreedIf(store, c.row, next, row, a)))
  {
    if status.None? {
      Writes(Local(c, Some(NoteUnmapped(j, row)), store), t, UnmappedPatch(row, a.now), None, row, a);
    } else {
      Writes(Local(c, Some(Patching(j, status.value, counts)), store), t, ViewPatch(status.value, counts), Some(POLLABLE), row, a);
    }
  }

  lemma {:induction false} Views(c: Core, t: nat, store: Store, j: JobId, row: Job, status: Option<UpstreamStatus>, counts: Option<(nat, nat)>,
                                 log: Settlements.Rows, a: Poller.Answers, got: Poller.Extent)
    requires Ready(c, log, row, a, got)
    ensures Reaches(Local(c, Some(Probing(j, row)), store), t, a.now,
                    Target(c, store, log, Poller.StatusRow(c.row, row, status, counts, a, got), Poller.StatusJob(c.row, row, status), row, a, got))
  {
    var next := Looks(c, t, store, j, row, status, counts, a);
    if status.Some? && IsTerminal(status.value) {
      Settled(c, t, store, j, row, status.value, log, a, got);
    } else {
      Notes(c, t, store, j, row, status, counts, a);
    }
    ReachesAfter(Local(c, Some(Probing(j, row)), store), t, Viewed(status, counts), a.now, next,
                 Target(c, store, log, Poller.StatusRow(c.row, row, status, counts, a, got), Poller.StatusJob(c.row, row, status), row, a, got));
  }

  lemma {:induction false} Looks(c: Core, t: nat, store: Store, j: JobId, row: Job, status: Option<UpstreamStatus>, counts: Option<(nat, nat)>,
                                 a: Poller.Answers) returns (next: Local)
    ensures next == Once(Local(c, Some(Probing(j, row)), store), t, Viewed(status, counts), a.now)
    ensures next == Local(c, Some(if status.None? then NoteUnmapped(j, row) else if IsTerminal(status.value) then Holding(j, row, status.value)
                                  else Patching(j, status.value, counts)), store)
  {
    next := Once(Local(c, Some(Probing(j, row)), store), t, Viewed(status, counts), a.now);
  }

  lemma {:induction false} LosesIt(c: Core, t: nat, store: Store, j: JobId, row: Job, log: Settlements.Rows, a: Poller.Answers, got: Poller.Extent)
    requires Ready(c, log, row, a, got)
    ensures Reaches(Local(c, Some(Probing(j, row)), store), t, a.now, Target(c, store, log, Poller.LostRow(c.row, row, a), None, row, a, got))
  {
    var elapsed := a.now >= row.submittedAt + a.window;
    var status, kind := if elapsed then Expired else Failed, if elapsed then None else Some("submit_lost");
    var l, next := Local(c, Some(Probing(j, row)), store), Local(c, Some(FinishEmpty(j, status, kind)), store);
    assert next == Once(l, t, Lost(elapsed), a.now);
    Finishes(c, t, store, j, status, kind, ZERO, false, row, a);
    ReachesAfter(l, t, Lost(elapsed), a.now, next, Target(c, store, log, Poller.LostRow(c.row, row, a), None, row, a, got));
  }

  lemma {:induction false} Probes(c: Core, t: nat, store: Store, j: JobId, row: Job, log: Settlements.Rows, a: Poller.Answers, got: Poller.Extent)
    requires Ready(c, log, row, a, got)
    ensures Reaches(Local(c, Some(Probing(j, row)), store), t, a.now,
                    Target(c, store, log, Poller.ProbedRow(c.row, row, a, got), Poller.ProbedJob(c.row, row, a), row, a, got))
  {
    match a.view
    case ViewThrows => ReachesNow(Local(c, Some(Probing(j, row)), store), t, a.now);
    case View(status, counts) => Views(c, t, store, j, row, status, counts, log, a, got);
    case NotFound => LosesIt(c, t, store, j, row, log, a, got);
  }

  lemma {:induction false} Adopts(c: Core, t: nat, store: Store, j: JobId, upstreamId: string, listed: Option<UpstreamStatus>, row: Job, a: Poller.Answers)
    requires RowFits(c.row, row) && row.submittedAt >= 0
    ensures var next := After(c.row, UpdateRow(c.row, AdoptPatch(upstreamId, listed), None));
            Reaches(Local(c, Some(Adopting(j, upstreamId, listed)), store), t, a.now, Seen(next, c.ledger, Poller.FreedIf(store, c.row, next, row, a)))
  {
    Writes(Local(c, Some(Adopting(j, upstreamId, listed)), store), t, AdoptPatch(upstreamId, listed), None, row, a);
  }

  lemma {:induction false} Lists(c: Core, t: nat, store: Store, j: JobId, row: Job, entries: seq<Poller.Listed>, log: Settlements.Rows,
                                 a: Poller.Answers, got: Poller.Extent)
    requires Ready(c, log, row, a, got)
    ensures Reaches(Local(c, Some(Listing(j, row)), store), t, a.now,
                    Target(c, store, log, Poller.ListedRow(c.row, j, row, entries, a), None, row, a, got))
  {
    var found, l := Poller.Find(entries, j), Local(c, Some(Listing(j, row)), store);
    var seen := Target(c, store, log, Poller.ListedRow(c.row, j, row, entries, a), None, row, a, got);
    if found.Some? {
      var id, st := found.value.upstreamId, found.value.status;
      var next := Local(c, Some(Adopting(j, id, st)), store);
      assert next == Once(l, t, Found(id, st), a.now);
      Adopts(c, t, store, j, id, st, row, a);
      ReachesAfter(l, t, Found(id, st), a.now, next, seen);
    } else if a.now - row.stalledSince.GetOr(row.submittedAt) >= Poller.SUBMISSION_UNKNOWN_WINDOW_MS {
      var kind := Some(if row.cancelRequested then "submit_lost" else "submit_unresolved");
      var next := Local(c, Some(FinishEmpty(j, Failed, kind)), store);
      assert next == Once(l, t, Absent(true), a.now);
      Finishes(c, t, store, j, Failed, kind, ZERO, false, row, a);
      ReachesAfter(l, t, Absent(true), a.now, next, seen);
    } else {
      ReachesNow(l, t, a.now);
    }
  }

  /** A cancel recorded before there was an upstream id is honoured first. */
  lemma {:induction false} CancelsFirst(c: Core, t: nat, store: Store, j: JobId, row: Job, log: Settlements.Rows, a: Poller.Answers, got: Poller.Extent)
    requires Ready(c, log, row, a, got) && row.cancelRequested && !row.status.Cancelling?
    ensures Reaches(Local(c, Some(PollCancel(j, row)), store), t, a.now,
                    Target(c, store, log, Poller.CancelledThenProbed(c.row, row, a, got), Poller.ProbedJob(Poller.AfterCancel(c.row, row), row, a), row, a, got))
  {
    var l, row' := Local(c, Some(PollCancel(j, row)), store), Poller.AfterCancel(c.row, row);
    var next := Local(c.(row := row'), Some(Probing(j, row)), store);
    assert next == Once(l, t, Ok, a.now);
    assert RowFits(row', row) && (Live(row') <==> Live(c.row));
    Probes(next.core, t, store, j, row, log, a, got);
    ReachesAfter(l, t, Ok, a.now, next,
                 Target(next.core, store, log, Poller.ProbedRow(row', row, a, got), Poller.ProbedJob(row', row, a), row, a, got));
  }

  lemma {:induction false} Marks(c: Core, t: nat, store: Store, j: JobId, row: Job, log: Settlements.Rows, a: Poller.Answers, got: Poller.Extent)
    requires Ready(c, log, row, a, got)
    ensures var next := After(c.row, UpdateRow(c.row, UnknownPatch(a.now), Some({Submitting})));
            Reaches(Local(c, Some(MarkUnknown(j)), store), t, a.now, Target(c, store, log, next, None, row, a, got))
  {
    Writes(Local(c, Some(MarkUnknown(j)), store), t, UnknownPatch(a.now), Some({Submitting}), row, a);
  }

  lemma {:induction false} AsksList(c: Core, t: nat, store: Store, j: JobId, row: Job, log: Settlements.Rows, a: Poller.Answers, got: Poller.Extent)
    requires Ready(c, log, row, a, got)
    ensures var next := if a.listing.None? then c.row else Poller.ListedRow(c.row, j, row, a.listing.value, a);
            Reaches(Local(c, Some(Listing(j, row)), store), t, a.now, Target(c, store, log, next, None, row, a, got))
  {
    if a.listing.None? {
      ReachesNow(Local(c, Some(Listing(j, row)), store), t, a.now);
    } else {
      Lists(c, t, store, j, row, a.listing.value, log, a, got);
    }
  }

  /** Where an advance that acts goes first. */
  function FirstTask(j: JobId, row: Job): Task {
    if row.status.Submitting? then MarkUnknown(j)
    else if row.status.SubmissionUnknown? || row.upstreamId.None? then Listing(j, row)
    else if row.cancelRequested && !row.status.Cancelling? then PollCancel(j, row)
    else Probing(j, row)
  }

  ghost function Goal(c: Core, store: Store, log: Settlements.Rows, j: JobId, row: Job, a: Poller.Answers, got: Poller.Extent): Seen
    requires row.submittedAt >= 0
  {
    Target(c, store, log, Poller.AdvancedRow(c.row, j, row, a, got), Poller.AdvancedJob(c.row, row, a), row, a, got)
  }

  /** The advance decides to go on, and where. */
  predicate GoesOn(row: Job, a: Poller.Answers) {
    a.provider && if row.status.Submitting? then a.now - row.submittedAt >= Poller.SUBMITTING_GRACE_MS else a.adapter
  }

  /** A job with an upstream id: its cancel request, if there is one, then the probe. */
  lemma {:induction false} GoingToProbe(c: Core, t: nat, store: Store, j: JobId, row: Job, log: Settlements.Rows, a: Poller.Answers, got: Poller.Extent)
    requires Ready(c, log, row, a, got) && GoesOn(row, a)
    requires !row.status.Submitting? && !row.status.SubmissionUnknown? && row.upstreamId.Some?
    ensures Reaches(Local(c, Some(FirstTask(j, row)), store), t, a.now, Goal(c, store, log, j, row, a, got))
  {
    if !row.cancelRequested || row.status.Cancelling? {
      Probes(c, t, store, j, row, log, a, got);
    } else if a.cancelThrows {
      ReachesNow(Local(c, Some(FirstTask(j, row)), store), t, a.now);
    } else {
      CancelsFirst(c, t, store, j, row, log, a, got);
    }
  }

  lemma {:induction false} GoingOn(c: Core, t: nat, store: Store, j: JobId, row: Job, log: Settlements.Rows, a: Poller.Answers, got: Poller.Extent)
    requires Ready(c, log, row, a, got) && GoesOn(row, a)
    ensures Reaches(Local(c, Some(FirstTask(j, row)), store), t, a.now, Goal(c, store, log, j, row, a, got))
  {
    if row.status.Submitting? {
      Marks(c, t, store, j, row, log, a, got);
    } else if row.status.SubmissionUnknown? || row.upstreamId.None? {
      AsksList(c, t, store, j, row, log, a, got);
    } else {
      GoingToProbe(c, t, store, j, row, log, a, got);
    }
  }

  /** Every advance the poller makes on its own, whatever snapshot it decides on, takes row, ledger and counters where
      some replies take its protocol task. */
  lemma {:induction false} Advances(c: Core, t: nat, store: Store, j: JobId, row: Job, log: Settlements.Rows, a: Poller.Answers, got: Poller.Extent)
    requires Ready(c, log, row, a, got)
    ensures Reaches(Local(c, Some(Advance(j, row)), store), t, a.now, Goal(c, store, log, j, row, a, got))
  {
    var l := Local(c, Some(Advance(j, row)), store);
    var seen := Goal(c, store, log, j, row, a, got);
    if !a.provider {
      var next := Local(c, Some(FinishEmpty(j, Failed, Some("provider_missing"))), store);
      assert next == Once(l, t, Gone, a.now);
      Finishes(c, t, store, j, Failed, Some("provider_missing"), ZERO, false, row, a);
      ReachesAfter(l, t, Gone, a.now, next, seen);
    } else if GoesOn(row, a) {
      var next := Local(c, Some(FirstTask(j, row)), store);
      assert next == Once(l, t, Ok, a.now);
      GoingOn(c, t, store, j, row, log, a, got);
      ReachesAfter(l, t, Ok, a.now, next, seen);
    } else {
      ReachesNow(l, t, a.now);
    }
  }
}
