/** The poller run alone: what one advance of one job, and one sweep over many, do to the table, the ledger and
    the counters. Concurrency between its statements is the subject of the batch protocol. */
module BatchPoller {
  import opened Options
  import opened ItemTotals
  import opened BatchJobs
  import opened SpendCounters
  import opened BudgetService
  import Protocol = BatchProtocol
  import Settlements = BatchSettlement

  const SUBMITTING_GRACE_MS: nat := 120000
  const SUBMISSION_UNKNOWN_WINDOW_MS: nat := 6 * 3600000

  // ---- what the environment answers during one advance ----

  datatype Listed = Listed(jobId: JobId, upstreamId: string, status: Option<UpstreamStatus>)

  datatype ViewAnswer = NotFound | ViewThrows | View(status: Option<UpstreamStatus>, counts: Option<(nat, nat)>)

  /** The result stream; `dies`: the number of ledger inserts that succeed before one fails; `breaks`: where the stream
      throws. Results that are gone from the start are a stream that throws that at once. */
  datatype Results = Results(stream: seq<Settlements.Outcome>, dies: Option<nat>, breaks: Option<Settlements.Break>)

  /** How far a settlement got: to the end of the stream, until it failed, or until the results were gone; `at`: of how
      many outcomes it had inserted the rows by then. */
  datatype Extent = Whole | Cut(at: nat) | Gone(at: nat)

  /** `adapter`: the provider still has a batch seam; `listing`: `None` when the call fails; `window`: completion
      window and margin of the job; `budgets`: `None` when they cannot be read; `fault`: the release that fails. */
  datatype Answers = Answers(
    provider: bool, adapter: bool, listing: Option<seq<Listed>>, cancelThrows: bool, view: ViewAnswer, results: Results,
    budgets: Option<seq<Budget>>, fault: Option<Fault>, spec: Settlements.BatchJob, window: nat, now: int)

  datatype Advance = Threw | Advanced(settled: bool, terminal: Option<Status>)

  const WAITING := Advanced(false, None)

  // ---- the row after each statement ----

  function Find(entries: seq<Listed>, id: JobId): Option<Listed> {
    if entries == [] then None else if entries[0].jobId == id then Some(entries[0]) else Find(entries[1..], id)
  }

  function FinishResult(cur: Option<Job>, status: Status, kind: Option<string>, t: Totals, now: int): WriteResult {
    SettleRow(cur, Protocol.SettlementOf(status, kind, t, now), Protocol.FinishGuard(t))
  }

  function FinishRow(cur: Option<Job>, status: Status, kind: Option<string>, t: Totals, now: int): Option<Job> {
    After(cur, FinishResult(cur, status, kind, t, now))
  }

  /** The totals a settlement that was not cut short hands to `finish`. */
  ghost function SettledTotals(job: Job, a: Answers, got: Extent): Totals {
    if job.upstreamId.None? || got.Gone? then ZERO
    else TotalsOf(Settlements.Summaries(Settlements.FirstRows(a.spec, a.results.stream)))
  }

  /** The answers allow a settlement to get that far. */
  predicate CanGet(a: Answers, got: Extent) {
    var breaks := a.results.breaks;
    match got
    case Whole => true
    case Cut(n) => n <= |a.results.stream| && (a.results.dies.Some? || (breaks.Some? && !breaks.value.gone))
    case Gone(n) => n <= |a.results.stream| && breaks.Some? && breaks.value.gone
  }

  function HoldResult(cur: Option<Job>, row: Job, verdict: Status): WriteResult {
    UpdateRow(cur, Protocol.HoldPatch(row, verdict), Some(POLLABLE))
  }

  /** The row a settlement works from: the held one, or the snapshot when the hold lost a race. */
  function HeldJob(cur: Option<Job>, row: Job, verdict: Status): Job {
    var h := HoldResult(cur, row, verdict);
    if h.Written? then h.row else row
  }

  /** Settle, finish; a settlement cut short leaves the row as it is. */
  ghost function FinishedRow(cur: Option<Job>, job: Job, verdict: Status, a: Answers, got: Extent): Option<Job> {
    if got.Cut? then cur else FinishRow(cur, Protocol.FinalStatus(job, verdict), None, SettledTotals(job, a, got), a.now)
  }

  /** A definitive upstream status: hold, settle, finish. */
  ghost function DefinitiveRow(cur: Option<Job>, row: Job, verdict: Status, a: Answers, got: Extent): Option<Job> {
    var h := HoldResult(cur, row, verdict);
    if h.Violated? then cur else FinishedRow(After(cur, h), HeldJob(cur, row, verdict), verdict, a, got)
  }

  ghost function StatusRow(cur: Option<Job>, row: Job, status: Option<UpstreamStatus>, counts: Option<(nat, nat)>, a: Answers, got: Extent): Option<Job> {
    if status.None? then After(cur, UpdateRow(cur, Protocol.UnmappedPatch(row, a.now), None))
    else if !IsTerminal(status.value) then After(cur, UpdateRow(cur, Protocol.ViewPatch(status.value, counts), Some(POLLABLE)))
    else DefinitiveRow(cur, row, status.value, a, got)
  }

  /** Absent upstream: past its window the job expired, before it the create never landed. */
  function LostRow(cur: Option<Job>, row: Job, a: Answers): Option<Job> {
    if a.now >= row.submittedAt + a.window then FinishRow(cur, Expired, None, ZERO, a.now)
    else FinishRow(cur, Failed, Some("submit_lost"), ZERO, a.now)
  }

  function ListedRow(cur: Option<Job>, id: JobId, row: Job, entries: seq<Listed>, a: Answers): Option<Job> {
    var found := Find(entries, id);
    if found.Some? then
      After(cur, UpdateRow(cur, Protocol.AdoptPatch(found.value.upstreamId, found.value.status), None))
    else if a.now - row.stalledSince.GetOr(row.submittedAt) >= SUBMISSION_UNKNOWN_WINDOW_MS then
      FinishRow(cur, Failed, Some(if row.cancelRequested then "submit_lost" else "submit_unresolved"), ZERO, a.now)
    else cur
  }

  ghost function ProbedRow(cur: Option<Job>, row: Job, a: Answers, got: Extent): Option<Job> {
    match a.view
    case NotFound => LostRow(cur, row, a)
    case ViewThrows => cur
    case View(status, counts) => StatusRow(cur, row, status, counts, a, got)
  }

  /** The row after one advance decided on the snapshot `row` while the table held `cur`. */
  ghost function AdvancedRow(cur: Option<Job>, id: JobId, row: Job, a: Answers, got: Extent): Option<Job> {
    if !a.provider then FinishRow(cur, Failed, Some("provider_missing"), ZERO, a.now)
    else if row.status.Submitting? then
      if a.now - row.submittedAt < SUBMITTING_GRACE_MS then cur
      else After(cur, UpdateRow(cur, Protocol.UnknownPatch(a.now), Some({Submitting})))
    else if !a.adapter then cur
    else if row.status.SubmissionUnknown? || row.upstreamId.None? then
      if a.listing.None? then cur else ListedRow(cur, id, row, a.listing.value, a)
    else if row.cancelRequested && !row.status.Cancelling? && a.cancelThrows then cur
    else CancelledThenProbed(cur, row, a, got)
  }

  /** A cancel recorded before there was an upstream id is honoured first. */
  function AfterCancel(cur: Option<Job>, row: Job): Option<Job> {
    if row.cancelRequested && !row.status.Cancelling? then After(cur, UpdateRow(cur, StatusPatch(Cancelling), Some(CANCELLABLE)))
    else cur
  }

  ghost function CancelledThenProbed(cur: Option<Job>, row: Job, a: Answers, got: Extent): Option<Job> {
    ProbedRow(AfterCancel(cur, row), row, a, got)
  }

  // ---- the ledger after an advance ----

  /** The outcomes whose rows a settlement got to insert. */
  function ReadOf(a: Answers, got: Extent): seq<Settlements.Outcome> {
    var stream := a.results.stream;
    if !got.Whole? && got.at <= |stream| then stream[..got.at] else stream
  }

  /** Every distinct result item of those is recorded, whatever is there already staying as it is. */
  function SettledLog(log: Settlements.Rows, job: Job, a: Answers, got: Extent): Settlements.Rows {
    if job.upstreamId.None? then log else Settlements.Merged(log, Settlements.StreamRows(a.spec, ReadOf(a, got)))
  }

  /** The job whose results an advance settles, if it gets that far. */
  function DefinitiveJob(cur: Option<Job>, row: Job, verdict: Status): Option<Job> {
    if HoldResult(cur, row, verdict).Violated? then None else Some(HeldJob(cur, row, verdict))
  }

  function StatusJob(cur: Option<Job>, row: Job, status: Option<UpstreamStatus>): Option<Job> {
    if status.Some? && IsTerminal(status.value) then DefinitiveJob(cur, row, status.value) else None
  }

  function ProbedJob(cur: Option<Job>, row: Job, a: Answers): Option<Job> {
    if a.view.View? then StatusJob(cur, row, a.view.status) else None
  }

  function AdvancedJob(cur: Option<Job>, row: Job, a: Answers): Option<Job> {
    if !a.provider || row.status.Submitting? || !a.adapter || row.status.SubmissionUnknown? || row.upstreamId.None? then None
    else if row.cancelRequested && !row.status.Cancelling? && a.cancelThrows then None
    else ProbedJob(AfterCancel(cur, row), row, a)
  }

  function LogAfter(log: Settlements.Rows, settling: Option<Job>, a: Answers, got: Extent): Settlements.Rows {
    if settling.Some? then SettledLog(log, settling.value, a, got) else log
  }

  // ---- what the poller shares with everything else ----

  datatype Shared = Shared(rows: map<JobId, Job>, store: Store, log: Settlements.Rows)

  /** The row as an owner's statement sees it. */
  function Owned(rows: map<JobId, Job>, owner: string, id: JobId): Option<Job> {
    if id in rows && rows[id].owner == owner then Some(rows[id]) else None
  }

  function Put(rows: map<JobId, Job>, id: JobId, next: Option<Job>): map<JobId, Job> {
    if next.Some? then rows[id := next.value] else rows
  }

  /** The job's ceiling taken off every counter that governs it, as far as the release got. */
  function Freed(store: Store, job: Job, a: Answers): Store
    requires job.submittedAt >= 0
  {
    ReleasedStore(store, a.budgets, Some(job.agent), job.submittedAt, job.ceiling.GetOr(0), a.fault)
  }

  /** The counters after the job's row went from `cur` to `next`: released exactly if that made the job terminal. */
  function FreedIf(store: Store, cur: Option<Job>, next: Option<Job>, job: Job, a: Answers): Store
    requires job.submittedAt >= 0
  {
    if Live(cur) && Terminal(next) then Freed(store, job, a) else store
  }

  /** After the job's row became `next` and the ledger `log`. */
  function MovedTo(s: Shared, id: JobId, job: Job, next: Option<Job>, log: Settlements.Rows, a: Answers): Shared
    requires job.submittedAt >= 0
  {
    Shared(Put(s.rows, id, next), FreedIf(s.store, Owned(s.rows, job.owner, id), next, job, a), log)
  }

  /** Everything one advance leaves. */
  ghost function AdvancedTo(s: Shared, id: JobId, row: Job, a: Answers, got: Extent): Shared
    requires row.submittedAt >= 0
  {
    var cur := Owned(s.rows, row.owner, id);
    MovedTo(s, id, row, AdvancedRow(cur, id, row, a, got), LogAfter(s.log, AdvancedJob(cur, row, a), a, got), a)
  }

  /** A first write that leaves the job as live as it was is absorbed by what follows. */
  lemma {:induction false} MovedOnce(s: Shared, s1: Shared, id: JobId, row: Job, job: Job, first: Option<Job>, next: Option<Job>, log: Settlements.Rows, a: Answers)
    requires row.submittedAt >= 0 && SameIdentity(row, job)
    requires s1.rows == Put(s.rows, id, first) && s1.store == s.store && (first.None? <==> Owned(s.rows, row.owner, id).None?)
    requires first.Some? ==> next.Some? && first.value.owner == row.owner && (Live(first) <==> Live(Owned(s.rows, row.owner, id)))
    requires first.None? ==> next.None?
    ensures MovedTo(s1, id, job, next, log, a) == MovedTo(s, id, row, next, log, a)
  {
    if first.Some? {
      assert Put(s1.rows, id, next) == Put(s.rows, id, next);
    }
  }

  lemma {:induction false} HeldFirst(s: Shared, s1: Shared, id: JobId, row: Job, verdict: Status, a: Answers, got: Extent, log: Settlements.Rows)
    requires var cur := Owned(s.rows, row.owner, id);
             && row.submittedAt >= 0 && SameJob(cur, row) && (cur.Some? ==> RowOk(cur.value)) && !HoldResult(cur, row, verdict).Violated?
             && s1.rows == Put(s.rows, id, After(cur, HoldResult(cur, row, verdict))) && s1.store == s.store
    ensures var cur := Owned(s.rows, row.owner, id);
            var job := HeldJob(cur, row, verdict);
            SameIdentity(row, job)
            && MovedTo(s1, id, job, FinishedRow(After(cur, HoldResult(cur, row, verdict)), job, verdict, a, got), log, a)
               == MovedTo(s, id, row, DefinitiveRow(cur, row, verdict, a, got), log, a)
  {
    var cur := Owned(s.rows, row.owner, id);
    MovedOnce(s, s1, id, row, HeldJob(cur, row, verdict), After(cur, HoldResult(cur, row, verdict)), DefinitiveRow(cur, row, verdict, a, got), log, a);
  }

  lemma {:induction false} CancelledFirst(s: Shared, s1: Shared, id: JobId, row: Job, a: Answers, got: Extent, log: Settlements.Rows)
    requires var cur := Owned(s.rows, row.owner, id);
             && row.submittedAt >= 0 && SameJob(cur, row) && (cur.Some? ==> RowOk(cur.value))
             && s1.rows == Put(s.rows, id, AfterCancel(cur, row)) && s1.store == s.store
    ensures var cur := Owned(s.rows, row.owner, id);
            MovedTo(s1, id, row, CancelledThenProbed(cur, row, a, got), log, a) == MovedTo(s, id, row, CancelledThenProbed(cur, row, a, got), log, a)
  {
    var cur := Owned(s.rows, row.owner, id);
    MovedOnce(s, s1, id, row, row, AfterCancel(cur, row), CancelledThenProbed(cur, row, a, got), log, a);
  }

  // ---- the poller ----

  class Poller {
    const table: BatchJobTable
    const counter: SpendCounter
    const log: Settlements.RequestLog
    var inFlight: set<JobId>

    constructor (table: BatchJobTable, counter: SpendCounter, log: Settlements.RequestLog)
      ensures this.table == table && this.counter == counter && this.log == log && inFlight == {}
    {
      this.table, this.counter, this.log, inFlight := table, counter, log, {};
    }

    function State(): Shared reads table, counter, log { Shared(table.rows, counter.store, log.rows) }

    function Row(owner: string, id: JobId): (r: Option<Job>)
      reads table
      ensures r == table.Lookup(owner, id)
    {
      Owned(table.rows, owner, id)
    }

    /** The single place a job becomes terminal and its reservation is released: only if the compare-and-set matched. */
    method Finish(id: JobId, job: Job, status: Status, kind: Option<string>, t: Totals, a: Answers) returns (r: Advance)
      requires table.Valid() && job.submittedAt >= 0 && IsTerminal(status) && SameJob(Row(job.owner, id), job)
      modifies table, counter
      ensures table.Valid()
      ensures var cur := old(Row(job.owner, id));
              var w := FinishResult(cur, status, kind, t, a.now);
              && State() == MovedTo(old(State()), id, job, FinishRow(cur, status, kind, t, a.now), log.rows, a)
              && r == (if w.Written? then Advanced(t.completed + t.failed > 0, Some(status)) else if w.NoMatch? then WAITING else Threw)
    {
      var done := table.Settle(job.owner, id, Protocol.SettlementOf(status, kind, t, a.now), Protocol.FinishGuard(t));
      if done.Violated? {
        return Threw;
      }
      if done.NoMatch? {
        return WAITING;
      }
      if job.ceiling.Some? {
        ReleaseForBatch(counter, a.budgets, Some(job.agent), job.submittedAt, job.ceiling.value, a.fault);
      }
      r := Advanced(t.completed + t.failed > 0, Some(status));
    }

    /** Records the results of a job that has an upstream id; results that are gone count as none, whatever was recorded
        before they were. */
    method SettleResults(job: Job, a: Answers) returns (t: Option<Totals>, ghost got: Extent)
      modifies log
      ensures CanGet(a, got) && (t.None? <==> got.Cut?) && (t.Some? ==> t.value == SettledTotals(job, a, got))
      ensures log.rows == SettledLog(old(log.rows), job, a, got)
    {
      if job.upstreamId.None? {
        return Some(ZERO), Whole;
      }
      var out, gone, reached := Settlements.Settle(log, a.spec, a.results.stream, Settlements.CHUNK_SIZE, a.results.dies, a.results.breaks);
      if gone {
        return Some(ZERO), Gone(reached);
      }
      if out.None? {
        return None, Cut(reached);
      }
      return Some(Totals(out.value.completed, out.value.failed, out.value.settledCostMicros)), Whole;
    }

    /** Streams the results once, records them, then finishes. */
    method SettleAndFinish(id: JobId, job: Job, verdict: Status, a: Answers) returns (r: Advance, ghost got: Extent)
      requires table.Valid() && job.submittedAt >= 0 && IsTerminal(verdict) && SameJob(Row(job.owner, id), job)
      modifies table, counter, log
      ensures table.Valid() && CanGet(a, got) && (got.Cut? ==> r.Threw?)
      ensures var cur := old(Row(job.owner, id));
              var next := FinishedRow(cur, job, verdict, a, got);
              && State() == MovedTo(old(State()), id, job, next, SettledLog(old(log.rows), job, a, got), a)
              && Reported(cur, r, next)
    {
      var t;
      t, got := SettleResults(job, a);
      if t.None? {
        return Threw, got;
      }
      r := Finish(id, job, Protocol.FinalStatus(job, verdict), None, t.value, a);
    }

    /** One guarded write of the row; the counters and the ledger stay as they are. */
    method Write(owner: string, id: JobId, patch: Patch, when: Option<set<Status>>) returns (w: WriteResult)
      requires table.Valid()
      modifies table
      ensures table.Valid() && w == UpdateRow(old(Row(owner, id)), patch, when)
      ensures table.rows == Put(old(table.rows), id, After(old(Row(owner, id)), w))
      ensures Row(owner, id) == After(old(Row(owner, id)), w)
    {
      w := table.Update(owner, id, patch, when);
      UpdateKeepsOwner(old(Row(owner, id)), patch, when);
    }

    method ApplyDefinitive(id: JobId, row: Job, verdict: Status, a: Answers) returns (r: Advance, ghost got: Extent)
      requires table.Valid() && row.submittedAt >= 0 && SameJob(Row(row.owner, id), row) && IsTerminal(verdict)
      modifies table, counter, log
      ensures table.Valid() && CanGet(a, got) && (got.Cut? ==> r.Threw?)
      ensures var cur := old(Row(row.owner, id));
              var next := DefinitiveRow(cur, row, verdict, a, got);
              State() == MovedTo(old(State()), id, row, next, LogAfter(old(log.rows), DefinitiveJob(cur, row, verdict), a, got), a) && Reported(cur, r, next)
    {
      ghost var s := State();
      var held := Write(row.owner, id, Protocol.HoldPatch(row, verdict), Some(POLLABLE));
      if held.Violated? {
        return Threw, Whole;
      }
      var job := if held.Written? then held.row else row;
      ghost var s1 := State();
      r, got := SettleAndFinish(id, job, verdict, a);
      HeldFirst(s, s1, id, row, verdict, a, got, log.rows);
    }

    /** Maps the upstream's view onto the job: an unmapped status is not terminal, a definitive one settles. */
    method ApplyStatus(id: JobId, row: Job, status: Option<UpstreamStatus>, counts: Option<(nat, nat)>, a: Answers)
        returns (r: Advance, ghost got: Extent)
      requires table.Valid() && row.submittedAt >= 0 && SameJob(Row(row.owner, id), row)
      modifies table, counter, log
      ensures table.Valid() && CanGet(a, got) && (got.Cut? ==> r.Threw?)
      ensures var cur := old(Row(row.owner, id));
              var next := StatusRow(cur, row, status, counts, a, got);
              State() == MovedTo(old(State()), id, row, next, LogAfter(old(log.rows), StatusJob(cur, row, status), a, got), a) && Reported(cur, r, next)
    {
      got := Whole;
      if status.None? {
        var w := Write(row.owner, id, Protocol.UnmappedPatch(row, a.now), None);
        r := if w.Violated? then Threw else WAITING;
      } else if !IsTerminal(status.value) {
        var w := Write(row.owner, id, Protocol.ViewPatch(status.value, counts), Some(POLLABLE));
        r := if w.Violated? then Threw else WAITING;
      } else {
        r, got := ApplyDefinitive(id, row, status.value, a);
      }
    }

    method ExpiredOrLost(id: JobId, row: Job, a: Answers) returns (r: Advance)
      requires table.Valid() && row.submittedAt >= 0 && SameJob(Row(row.owner, id), row)
      modifies table, counter
      ensures table.Valid()
      ensures var cur := old(Row(row.owner, id));
              var next := LostRow(cur, row, a);
              State() == MovedTo(old(State()), id, row, next, log.rows, a) && Reported(cur, r, next)
    {
      if a.now >= row.submittedAt + a.window {
        r := Finish(id, row, Expired, None, ZERO, a);
      } else {
        r := Finish(id, row, Failed, Some("submit_lost"), ZERO, a);
      }
    }

    /** Adopts the job if the upstream lists it, and fails it only after the whole window has passed without. */
    method ReconcileSubmission(id: JobId, row: Job, entries: seq<Listed>, a: Answers) returns (r: Advance)
      requires table.Valid() && row.submittedAt >= 0 && SameJob(Row(row.owner, id), row)
      modifies table, counter
      ensures table.Valid()
      ensures var cur := old(Row(row.owner, id));
              var next := ListedRow(cur, id, row, entries, a);
              State() == MovedTo(old(State()), id, row, next, log.rows, a) && Reported(cur, r, next)
    {
      var found := Find(entries, id);
      if found.Some? {
        var w := Write(row.owner, id, Protocol.AdoptPatch(found.value.upstreamId, found.value.status), None);
        return if w.Violated? then Threw else WAITING;
      }
      if a.now - row.stalledSince.GetOr(row.submittedAt) >= SUBMISSION_UNKNOWN_WINDOW_MS {
        r := Finish(id, row, Failed, Some(if row.cancelRequested then "submit_lost" else "submit_unresolved"), ZERO, a);
      } else {
        r := WAITING;
      }
    }

    /** Asks the upstream for the job's status and acts on the answer. */
    method Probe(id: JobId, row: Job, a: Answers) returns (r: Advance, ghost got: Extent)
      requires table.Valid() && row.submittedAt >= 0 && SameJob(Row(row.owner, id), row)
      modifies table, counter, log
      ensures table.Valid() && CanGet(a, got) && (got.Cut? ==> r.Threw?)
      ensures var cur := old(Row(row.owner, id));
              var next := ProbedRow(cur, row, a, got);
              State() == MovedTo(old(State()), id, row, next, LogAfter(old(log.rows), ProbedJob(cur, row, a), a, got), a) && Reported(cur, r, next)
    {
      got := Whole;
      match a.view {
        case NotFound => r := ExpiredOrLost(id, row, a);
        case ViewThrows => r := Threw;
        case View(status, counts) => r, got := ApplyStatus(id, row, status, counts, a);
      }
    }

    /** Honours a cancel recorded before there was an upstream id, then probes. */
    method CancelAndProbe(id: JobId, row: Job, a: Answers) returns (r: Advance, ghost got: Extent)
      requires table.Valid() && row.submittedAt >= 0 && SameJob(Row(row.owner, id), row)
      modifies table, counter, log
      ensures table.Valid() && CanGet(a, got) && (got.Cut? ==> r.Threw?)
      ensures var cur := old(Row(row.owner, id));
              var next := CancelledThenProbed(cur, row, a, got);
              State() == MovedTo(old(State()), id, row, next, LogAfter(old(log.rows), ProbedJob(AfterCancel(cur, row), row, a), a, got), a) && Reported(cur, r, next)
    {
      ghost var s := State();
      if row.cancelRequested && !row.status.Cancelling? {
        var w := Write(row.owner, id, StatusPatch(Cancelling), Some(CANCELLABLE));
      }
      ghost var s1 := State();
      r, got := Probe(id, row, a);
      CancelledFirst(s, s1, id, row, a, got, log.rows);
    }

    /** Advances one job, deciding on a snapshot of its row: table, counters and ledger afterwards. */
    method AdvanceJob(id: JobId, row: Job, a: Answers) returns (r: Advance, ghost got: Extent)
      requires table.Valid() && row.submittedAt >= 0 && SameJob(Row(row.owner, id), row)
      modifies table, counter, log
      ensures table.Valid() && CanGet(a, got) && (got.Cut? ==> r.Threw?)
      ensures State() == AdvancedTo(old(State()), id, row, a, got)
      ensures var cur := old(Row(row.owner, id)); Reported(cur, r, AdvancedRow(cur, id, row, a, got))
    {
      got := Whole;
      if !a.provider {
        r := Finish(id, row, Failed, Some("provider_missing"), ZERO, a);
      } else if row.status.Submitting? {
        if a.now - row.submittedAt >= SUBMITTING_GRACE_MS {
          var w := Write(row.owner, id, Protocol.UnknownPatch(a.now), Some({Submitting}));
          assert !w.Violated?;
        }
        r := WAITING;
      } else if !a.adapter {
        r := Threw;
      } else if row.status.SubmissionUnknown? || row.upstreamId.None? {
        if a.listing.None? {
          return Threw, Whole;
        }
        r := ReconcileSubmission(id, row, a.listing.value, a);
      } else if row.cancelRequested && !row.status.Cancelling? && a.cancelThrows {
        r := Threw;
      } else {
        r, got := CancelAndProbe(id, row, a);
      }
    }

    /** One occurrence over the listed rows: a job already being advanced is skipped, one job's failure does not keep
        the next from advancing, and a shutdown (`stop`: before that row) ends the sweep. `states` are table, counters
        and ledger before each row and at the end. */
    method Sweep(listed: seq<(JobId, Job)>, answers: map<JobId, Answers>, stop: Option<nat>)
        returns (ghost gots: seq<Extent>, ghost states: seq<Shared>)
      requires table.Valid() && Listing(table.rows, listed, answers)
      modifies this`inFlight, table, counter, log
      ensures table.Valid() && inFlight == old(inFlight) && |gots| == Visited(stop, |listed|)
      ensures Sweeps(old(inFlight), states, listed, answers, gots) && states[0] == old(State()) && states[|gots|] == State()
      ensures forall i :: 0 <= i < |gots| ==> Swept(old(inFlight), listed[i].0, listed[i].1, answers, gots[i], table.rows)
      ensures OthersKept(old(table.rows), table.rows, listed, |gots|)
    {
      gots, states := RunSweep(listed, answers, stop);
      SweptSoFar(old(inFlight), states, listed, answers, gots, |gots|);
    }

    method RunSweep(listed: seq<(JobId, Job)>, answers: map<JobId, Answers>, stop: Option<nat>)
        returns (ghost gots: seq<Extent>, ghost states: seq<Shared>)
      requires table.Valid() && Listing(table.rows, listed, answers)
      modifies this`inFlight, table, counter, log
      ensures table.Valid() && inFlight == old(inFlight) && |gots| == Visited(stop, |listed|)
      ensures Sweeps(old(inFlight), states, listed, answers, gots) && states[0] == old(State()) && states[|gots|] == State()
    {
      ghost var busy := inFlight;
      gots, states := [], [State()];
      var i := 0;
      while i < |listed| && stop != Some(i)
        invariant 0 <= i == |gots| <= Visited(stop, |listed|)
        invariant table.Valid() && inFlight == busy
        invariant Sweeps(busy, states, listed, answers, gots) && states[0] == old(State()) && states[i] == State()
      {
        Unvisited(busy, states, listed, answers, gots);
        var got := SweepOne(listed[i].0, listed[i].1, answers[listed[i].0]);
        ChainOn(busy, states, listed, answers, gots, State(), got);
        gots, states := gots + [got], states + [State()];
        i := i + 1;
      }
    }

    method SweepOne(id: JobId, row: Job, a: Answers) returns (ghost got: Extent)
      requires table.Valid() && id in table.rows && table.rows[id] == row && row.submittedAt >= 0
      modifies this`inFlight, table, counter, log
      ensures table.Valid() && inFlight == old(inFlight) && Visit(old(inFlight), old(State()), State(), id, row, a, got)
    {
      got := Whole;
      if id in inFlight {
        return;
      }
      inFlight := inFlight + {id};
      var r;
      r, got := AdvanceJob(id, row, a);
      inFlight := inFlight - {id};
    }
  }

  /** An advance reports a final status exactly if it made the job terminal: the one it stored, and whether items were
      settled. */
  predicate Reported(cur: Option<Job>, r: Advance, next: Option<Job>) {
    && ((r.Advanced? && r.terminal.Some?) <==> (Live(cur) && Terminal(next)))
    && (r.Advanced? ==> if r.terminal.Some? then r.terminal == Some(next.value.status) && (r.settled <==> next.value.completed + next.value.failed > 0)
                        else !r.settled)
  }

  /** The rows a sweep visits before a shutdown. */
  function Visited(stop: Option<nat>, n: nat): nat { if stop.Some? && stop.value < n then stop.value else n }

  /** One visited row: as the table then holds it, advanced from there. */
  ghost predicate Visit(busy: set<JobId>, s: Shared, s': Shared, id: JobId, row: Job, a: Answers, got: Extent)
    requires row.submittedAt >= 0
  {
    && id in s.rows && s.rows[id] == row && CanGet(a, got)
    && s' == if id in busy then s else AdvancedTo(s, id, row, a, got)
  }

  /** Each visited row's advance starts from what the one before it left, in all three stores. */
  ghost predicate Sweeps(busy: set<JobId>, states: seq<Shared>, listed: seq<(JobId, Job)>, answers: map<JobId, Answers>, gots: seq<Extent>)
    requires Sweepable(listed, answers)
  {
    && |gots| <= |listed| && |states| == |gots| + 1
    && (forall i {:trigger gots[i]} :: 0 <= i < |gots| ==>
          Visit(busy, states[i], states[i + 1], listed[i].0, listed[i].1, answers[listed[i].0], gots[i]))
  }

  /** The sweep's listing: distinct live rows as the table holds them, in any order and number. */
  predicate Listing(rows: map<JobId, Job>, listed: seq<(JobId, Job)>, answers: map<JobId, Answers>) {
    Sweepable(listed, answers) && forall i :: 0 <= i < |listed| ==> listed[i].0 in rows && rows[listed[i].0] == listed[i].1
  }

  predicate Sweepable(listed: seq<(JobId, Job)>, answers: map<JobId, Answers>) {
    && (forall i :: 0 <= i < |listed| ==> listed[i].0 in answers && !IsTerminal(listed[i].1.status) && listed[i].1.submittedAt >= 0)
    && (forall i, k :: 0 <= i < k < |listed| ==> listed[i].0 != listed[k].0)
  }

  /** Rows that are not among the first `n` listed are as they were. */
  ghost predicate OthersKept(before: map<JobId, Job>, after: map<JobId, Job>, listed: seq<(JobId, Job)>, n: nat) {
    forall id :: !IsListed(id, listed, n) ==> (id in after <==> id in before) && (id in after ==> after[id] == before[id])
  }

  predicate IsListed(id: JobId, listed: seq<(JobId, Job)>, n: nat) { exists i :: 0 <= i < n && i < |listed| && listed[i].0 == id }

  lemma {:induction false} KeepsOthers(first: map<JobId, Job>, before: map<JobId, Job>, after: map<JobId, Job>, listed: seq<(JobId, Job)>, i: nat)
    requires i < |listed| && OthersKept(first, before, listed, i)
    requires listed[i].0 in after && after == before[listed[i].0 := after[listed[i].0]]
    ensures OthersKept(first, after, listed, i + 1)
  {
    assert IsListed(listed[i].0, listed, i + 1);
    assert forall id :: IsListed(id, listed, i) ==> IsListed(id, listed, i + 1);
  }

  /** What the sweep left of one listed row. */
  ghost predicate Swept(busy: set<JobId>, id: JobId, row: Job, answers: map<JobId, Answers>, got: Extent, rows: map<JobId, Job>)
    requires id in answers
  {
    id in rows && Some(rows[id]) == if id in busy then Some(row) else AdvancedRow(Some(row), id, row, answers[id], got)
  }

  /** The first `i` listed rows are swept, the others as listed. */
  ghost predicate SweptTo(busy: set<JobId>, rows: map<JobId, Job>, listed: seq<(JobId, Job)>, answers: map<JobId, Answers>,
                          gots: seq<Extent>, i: nat)
    requires (forall k :: 0 <= k < |listed| ==> listed[k].0 in answers) && i <= |gots| <= |listed|
  {
    && (forall k :: 0 <= k < i ==> Swept(busy, listed[k].0, listed[k].1, answers, gots[k], rows))
    && (forall k :: i <= k < |listed| ==> listed[k].0 in rows && rows[listed[k].0] == listed[k].1)
  }

  lemma {:induction false} OneMore(busy: set<JobId>, before: map<JobId, Job>, now: map<JobId, Job>, listed: seq<(JobId, Job)>,
                                   answers: map<JobId, Answers>, gots: seq<Extent>, i: nat)
    requires Sweepable(listed, answers) && i < |gots| <= |listed| && SweptTo(busy, before, listed, answers, gots, i)
    requires Swept(busy, listed[i].0, listed[i].1, answers, gots[i], now) && now == before[listed[i].0 := now[listed[i].0]]
    ensures SweptTo(busy, now, listed, answers, gots, i + 1)
  {
    forall k | 0 <= k < i + 1
      ensures Swept(busy, listed[k].0, listed[k].1, answers, gots[k], now)
    {
      assert k < i ==> listed[k].0 != listed[i].0 && Swept(busy, listed[k].0, listed[k].1, answers, gots[k], before);
    }
  }

  lemma {:induction false} ChainOn(busy: set<JobId>, states: seq<Shared>, listed: seq<(JobId, Job)>, answers: map<JobId, Answers>,
                                   gots: seq<Extent>, next: Shared, got: Extent)
    requires Sweepable(listed, answers) && Sweeps(busy, states, listed, answers, gots) && |gots| < |listed|
    requires var i := |gots|; Visit(busy, states[i], next, listed[i].0, listed[i].1, answers[listed[i].0], got)
    ensures Sweeps(busy, states + [next], listed, answers, gots + [got])
  {
  }

  lemma {:induction false} SweptRow(busy: set<JobId>, before: Shared, now: Shared, id: JobId, row: Job, answers: map<JobId, Answers>, got: Extent)
    requires id in answers && row.submittedAt >= 0 && Visit(busy, before, now, id, row, answers[id], got)
    ensures Swept(busy, id, row, answers, got, now.rows) && now.rows == before.rows[id := now.rows[id]]
  {
  }

  lemma {:induction false} VisitedRow(busy: set<JobId>, states: seq<Shared>, listed: seq<(JobId, Job)>, answers: map<JobId, Answers>,
                                      gots: seq<Extent>, i: nat)
    requires Sweepable(listed, answers) && Sweeps(busy, states, listed, answers, gots) && i < |gots|
    ensures var before, now := states[i].rows, states[i + 1].rows;
            Swept(busy, listed[i].0, listed[i].1, answers, gots[i], now) && now == before[listed[i].0 := now[listed[i].0]]
  {
    assert Visit(busy, states[i], states[i + 1], listed[i].0, listed[i].1, answers[listed[i].0], gots[i]);
    SweptRow(busy, states[i], states[i + 1], listed[i].0, listed[i].1, answers, gots[i]);
  }

  /** The first `n` listed rows are swept, the others as listed, and no other row has moved. */
  ghost predicate SoFar(busy: set<JobId>, before: map<JobId, Job>, now: map<JobId, Job>, listed: seq<(JobId, Job)>, answers: map<JobId, Answers>,
                        gots: seq<Extent>, n: nat)
    requires (forall k :: 0 <= k < |listed| ==> listed[k].0 in answers) && n <= |gots| <= |listed|
  {
    SweptTo(busy, now, listed, answers, gots, n) && OthersKept(before, now, listed, n)
  }

  lemma {:induction false} NothingSwept(busy: set<JobId>, rows: map<JobId, Job>, listed: seq<(JobId, Job)>, answers: map<JobId, Answers>, gots: seq<Extent>)
    requires Listing(rows, listed, answers) && |gots| <= |listed|
    ensures SoFar(busy, rows, rows, listed, answers, gots, 0)
  {
  }

  lemma {:induction false} OneVisit(busy: set<JobId>, first: map<JobId, Job>, states: seq<Shared>, listed: seq<(JobId, Job)>, answers: map<JobId, Answers>,
                                    gots: seq<Extent>, i: nat)
    requires Sweepable(listed, answers) && Sweeps(busy, states, listed, answers, gots) && i < |gots|
    requires SoFar(busy, first, states[i].rows, listed, answers, gots, i)
    ensures SoFar(busy, first, states[i + 1].rows, listed, answers, gots, i + 1)
  {
    VisitedRow(busy, states, listed, answers, gots, i);
    OneMore(busy, states[i].rows, states[i + 1].rows, listed, answers, gots, i);
    KeepsOthers(first, states[i].rows, states[i + 1].rows, listed, i);
  }

  /** So it is up to any row of a sweep. */
  lemma {:induction false} SweptSoFar(busy: set<JobId>, states: seq<Shared>, listed: seq<(JobId, Job)>, answers: map<JobId, Answers>,
                                      gots: seq<Extent>, n: nat)
    requires Sweepable(listed, answers) && Sweeps(busy, states, listed, answers, gots) && n <= |gots|
    requires Listing(states[0].rows, listed, answers)
    ensures SoFar(busy, states[0].rows, states[n].rows, listed, answers, gots, n)
  {
    if n > 0 {
      SweptSoFar(busy, states, listed, answers, gots, n - 1);
      OneVisit(busy, states[0].rows, states, listed, answers, gots, n - 1);
    } else {
      NothingSwept(busy, states[0].rows, listed, answers, gots);
    }
  }

  /** The row a sweep comes to next is as it was listed. */
  lemma {:induction false} Unvisited(busy: set<JobId>, states: seq<Shared>, listed: seq<(JobId, Job)>, answers: map<JobId, Answers>, gots: seq<Extent>)
    requires Sweepable(listed, answers) && Sweeps(busy, states, listed, answers, gots) && |gots| < |listed|
    requires Listing(states[0].rows, listed, answers)
    ensures var i, now := |gots|, states[|gots|];
            listed[i].0 in now.rows && now.rows[listed[i].0] == listed[i].1 && listed[i].0 in answers && listed[i].1.submittedAt >= 0
  {
    SweptSoFar(busy, states, listed, answers, gots, |gots|);
  }

  // ---- when a job ends ----

  /** The environment's answers that end a live job, advanced alone: the provider is gone, the upstream has not shown
      the submission for its whole window, it no longer knows the job, or it gave a final status whose results were
      recorded and fit the job, or are gone. */
  ghost predicate Ends(j: Job, id: JobId, a: Answers, got: Extent) {
    !a.provider || (!j.status.Submitting? && a.adapter && EndsUpstream(j, id, a, got))
  }

  ghost predicate EndsUpstream(j: Job, id: JobId, a: Answers, got: Extent) {
    if j.status.SubmissionUnknown? || j.upstreamId.None? then
      && a.listing.Some? && Find(a.listing.value, id).None?
      && a.now - j.stalledSince.GetOr(j.submittedAt) >= SUBMISSION_UNKNOWN_WINDOW_MS
    else
      && !(j.cancelRequested && !j.status.Cancelling? && a.cancelThrows)
      && (a.view.NotFound? || (a.view.View? && a.view.status.Some? && IsTerminal(a.view.status.value) && !got.Cut? && ResultsFit(j, a, got)))
  }

  /** The upstream reported no more distinct results than the batch has items. */
  ghost predicate ResultsFit(j: Job, a: Answers, got: Extent) {
    var t := SettledTotals(j, a, got);
    t.completed + t.failed <= j.itemCount
  }

  lemma {:induction false} DefinitiveEnds(cur: Job, row: Job, verdict: Status, a: Answers, got: Extent)
    requires RowOk(cur) && cur.status in POLLABLE && cur.upstreamId == row.upstreamId && cur.itemCount == row.itemCount && IsTerminal(verdict)
    ensures Terminal(DefinitiveRow(Some(cur), row, verdict, a, got)) <==> !got.Cut? && ResultsFit(row, a, got)
  {
    var job := HeldJob(Some(cur), row, verdict);
    assert HoldResult(Some(cur), row, verdict).Written? && job.status in SETTLED_FROM;
    assert SettledTotals(job, a, got) == SettledTotals(row, a, got);
  }

  lemma {:induction false} ProbedEnds(cur: Job, row: Job, a: Answers, got: Extent)
    requires RowOk(cur) && cur.status in POLLABLE && cur.upstreamId == row.upstreamId && cur.itemCount == row.itemCount
    ensures Terminal(ProbedRow(Some(cur), row, a, got))
            <==> a.view.NotFound? || (a.view.View? && a.view.status.Some? && IsTerminal(a.view.status.value) && !got.Cut? && ResultsFit(row, a, got))
  {
    if a.view.View? && a.view.status.Some? && IsTerminal(a.view.status.value) {
      DefinitiveEnds(cur, row, a.view.status.value, a, got);
    }
  }

  /** A live job, advanced alone, becomes terminal exactly when one of those answers says so: nothing is released on a
      guess, and a job whose upstream reports more results than it has items never ends. */
  lemma {:induction false} EndsIff(j: Job, id: JobId, a: Answers, got: Extent)
    requires RowOk(j) && !IsTerminal(j.status)
    ensures Terminal(AdvancedRow(Some(j), id, j, a, got)) <==> Ends(j, id, a, got)
  {
    if a.provider && !j.status.Submitting? && a.adapter && !j.status.SubmissionUnknown? && j.upstreamId.Some? {
      if j.cancelRequested && !j.status.Cancelling? {
        if !a.cancelThrows {
          ProbedEnds(j.(status := Cancelling), j, a, got);
        }
      } else {
        ProbedEnds(j, j, a, got);
      }
    }
  }

  // ---- a job that never ends ----

  const SPEC := Settlements.BatchJob("job", 1, 4, None, None, None, None)
  const TWO: seq<Settlements.Outcome> := [Settlements.Success("a", None), Settlements.Success("b", None)]
  const STUCK := Job("owner", "agent", 0, 1, Some(5), Finalizing, Some("u"), 0, 0, false, None, None, None, None)
  const COMPLETED := Answers(true, true, None, false, View(Some(Completed), None), Results(TWO, None, None), None, None, SPEC, 0, 0)

  lemma {:induction false} TwoResults()
    ensures var m := Settlements.Summaries(Settlements.FirstRows(SPEC, TWO));
            m.Keys == {"a", "b"} && m["a"].ok && m["b"].ok
  {
    var one := TWO[..1];
    assert |TWO| == 2 && one[..0] == [] && one == [TWO[0]] && TWO[..|TWO| - 1] == one;
    assert "a"[0] != "b"[0];
    assert Settlements.FirstRows(SPEC, one) == map["a" := Settlements.RowFor(SPEC, TWO[0])];
  }

  lemma {:induction false} TwoTotals()
    ensures SettledTotals(STUCK, COMPLETED, Whole).completed == 2
  {
    TwoResults();
    var m := Settlements.Summaries(Settlements.FirstRows(SPEC, TWO));
    TotalsWithout(m, "a");
    TotalsWithout(m - {"a"}, "b");
    assert "a"[0] != "b"[0] && m - {"a"} - {"b"} == map[];
  }

  /** Held as it is, a settlement of more results than items is refused by the counts constraint. */
  lemma {:induction false} OverfullRefused(j: Job, verdict: Status, a: Answers, got: Extent)
    requires RowOk(j) && j.status.Finalizing? && j.errorKind.None? && j.stalledSince.None? && !verdict.Cancelled? && !ResultsFit(j, a, got)
    ensures DefinitiveRow(Some(j), j, verdict, a, got) == Some(j)
  {
    assert Patched(j, Protocol.HoldPatch(j, verdict)) == j;
  }

  /** A job whose upstream returns more distinct results than it has items never ends while its provider is there and its
      upstream knows it, whatever else is answered. */
  lemma {:induction false} OverfullNeverEnds(j: Job, id: JobId, a: Answers, got: Extent)
    requires RowOk(j) && !IsTerminal(j.status) && !j.status.SubmissionUnknown? && j.upstreamId.Some? && !ResultsFit(j, a, got)
    requires a.provider && !a.view.NotFound?
    ensures !Terminal(AdvancedRow(Some(j), id, j, a, got))
  {
    EndsIff(j, id, a, got);
  }

  /** Once it is held in `finalizing`, without a stall note or a cancel request, an advance that is told a final status
      other than a cancellation, or cannot ask, leaves it exactly as it is. */
  lemma {:induction false} OverfullStays(j: Job, id: JobId, a: Answers, got: Extent)
    requires RowOk(j) && j.status.Finalizing? && j.errorKind.None? && j.stalledSince.None? && !j.cancelRequested && j.upstreamId.Some?
    requires !ResultsFit(j, a, got) && a.provider
    requires a.view.ViewThrows? || (a.view.View? && a.view.status.Some? && IsTerminal(a.view.status.value) && !a.view.status.value.Cancelled?)
    ensures AdvancedRow(Some(j), id, j, a, got) == Some(j)
  {
    if a.view.View? {
      OverfullRefused(j, a.view.status.value, a, got);
    }
  }

  /** Such a job: one item, and an upstream that reports two distinct results. */
  lemma {:induction false} TwoInOne()
    ensures RowOk(STUCK) && STUCK.itemCount == 1 && !ResultsFit(STUCK, COMPLETED, Whole)
    ensures forall id :: AdvancedRow(Some(STUCK), id, STUCK, COMPLETED, Whole) == Some(STUCK)
  {
    TwoTotals();
    forall id: JobId
      ensures AdvancedRow(Some(STUCK), id, STUCK, COMPLETED, Whole) == Some(STUCK)
    {
      OverfullStays(STUCK, id, COMPLETED, Whole);
    }
  }

  /** The snapshot is of this job: the columns no statement writes are the same. */
  predicate SameJob(cur: Option<Job>, row: Job) { cur.Some? ==> SameIdentity(cur.value, row) }

  lemma {:induction false} UpdateKeepsOwner(cur: Option<Job>, p: Patch, when: Option<set<Status>>)
    ensures var w := UpdateRow(cur, p, when); w.Written? ==> SameIdentity(cur.value, w.row)
  {
  }
}
