/** The `batch_job` table: its statuses, the CHECK constraints a write must satisfy, and the
    compare-and-set statements through which every lifecycle transition goes. */
module BatchJobs {
  import opened Options

  datatype Status =
    | Submitting | SubmissionUnknown | Validating | InProgress | Finalizing
    | Completed | Failed | Expired | Cancelling | Cancelled

  /** What an upstream can report: everything but the two states before its acceptance. */
  type UpstreamStatus = s: Status | !s.Submitting? && !s.SubmissionUnknown? witness Validating

  type JobId = nat

  predicate IsTerminal(s: Status) {
    s.Completed? || s.Failed? || s.Expired? || s.Cancelled?
  }

  const NON_TERMINAL: set<Status> :=
    {Submitting, SubmissionUnknown, Validating, InProgress, Finalizing, Cancelling}

  /** The states from which an upstream view may still move a job. */
  const POLLABLE: set<Status> :=
    {Validating, InProgress, Finalizing, Cancelling, SubmissionUnknown}

  const CANCELLABLE: set<Status> := {Validating, InProgress, Finalizing}
  const SETTLED_FROM: set<Status> := {Finalizing, Cancelling}

  /** One row. The first five columns are written once, at insertion. */
  datatype Job = Job(
    owner: string,
    agent: string,
    submittedAt: int,
    itemCount: nat,
    ceiling: Option<nat>,
    status: Status,
    upstreamId: Option<string>,
    completed: nat,
    failed: nat,
    cancelRequested: bool,
    settledCost: Option<nat>,
    terminalAt: Option<int>,
    errorKind: Option<string>,
    stalledSince: Option<int>)

  /** The columns an `update` may touch. `None` leaves the column alone. */
  datatype Patch = Patch(
    status: Option<Status>,
    upstreamId: Option<string>,
    completed: Option<nat>,
    failed: Option<nat>,
    cancelRequested: Option<bool>,
    errorKind: Option<Option<string>>,
    stalledSince: Option<Option<int>>)

  const NO_CHANGE := Patch(None, None, None, None, None, None, None)

  function StatusPatch(s: Status): Patch { NO_CHANGE.(status := Some(s)) }

  datatype Settlement = Settlement(
    status: Status, completed: nat, failed: nat, settledCost: nat, terminalAt: int, errorKind: Option<string>)

  /** What a statement reports: the row after it, no matching row, or a CHECK violation (an exception). */
  datatype WriteResult = Written(row: Job) | NoMatch | Violated

  /** The CHECK constraints on the lifecycle columns. */
  predicate RowOk(j: Job) {
    j.completed + j.failed <= j.itemCount && (j.terminalAt.None? <==> !IsTerminal(j.status))
  }

  predicate Live(row: Option<Job>) { row.Some? && !IsTerminal(row.value.status) }

  predicate Terminal(row: Option<Job>) { row.Some? && IsTerminal(row.value.status) }

  // ---- the statements, on one row (`None`: the row does not exist) ----

  function Patched(j: Job, p: Patch): Job {
    j.(status := p.status.GetOr(j.status),
       upstreamId := if p.upstreamId.Some? then p.upstreamId else j.upstreamId,
       completed := p.completed.GetOr(j.completed),
       failed := p.failed.GetOr(j.failed),
       cancelRequested := p.cancelRequested.GetOr(j.cancelRequested),
       errorKind := p.errorKind.GetOr(j.errorKind),
       stalledSince := p.stalledSince.GetOr(j.stalledSince))
  }

  function Check(j: Job): WriteResult { if RowOk(j) then Written(j) else Violated }

  function UpdateRow(row: Option<Job>, p: Patch, when: Option<set<Status>>): WriteResult {
    if row.None? || (when.Some? && row.value.status !in when.value) then NoMatch
    else Check(Patched(row.value, p))
  }

  function SettledRow(j: Job, s: Settlement): Job {
    j.(status := s.status, completed := s.completed, failed := s.failed,
       settledCost := Some(s.settledCost), terminalAt := Some(s.terminalAt),
       errorKind := s.errorKind, stalledSince := None)
  }

  function SettleRow(row: Option<Job>, s: Settlement, allowed: set<Status>): WriteResult {
    if row.None? || row.value.status !in allowed || row.value.terminalAt.Some? then NoMatch
    else Check(SettledRow(row.value, s))
  }

  function FailRow(row: Option<Job>, kind: string, now: int): WriteResult {
    if !Live(row) then NoMatch
    else Check(row.value.(status := Failed, errorKind := Some(kind), settledCost := Some(0),
                          terminalAt := Some(now), stalledSince := None))
  }

  /** Whether `discard` deletes the row. */
  predicate Discards(row: Option<Job>) {
    row.Some? && row.value.status.Submitting? && row.value.upstreamId.None?
  }

  function After(row: Option<Job>, r: WriteResult): Option<Job> {
    if r.Written? then Some(r.row) else row
  }

  // ---- what every statement keeps ----

  /** The columns no statement writes. */
  predicate SameIdentity(a: Job, b: Job) {
    a.owner == b.owner && a.agent == b.agent && a.submittedAt == b.submittedAt
    && a.itemCount == b.itemCount && a.ceiling == b.ceiling
  }

  /** No `update`, whatever its patch and guard, brings a terminal row back to life: the CHECK pairing
      `terminal_at` with the status refuses it, since no patch can clear `terminal_at`. */
  lemma {:induction false} TerminalAbsorbs(row: Option<Job>, p: Patch, when: Option<set<Status>>)
    requires row.Some? && RowOk(row.value)
    ensures var next := After(row, UpdateRow(row, p, when));
            next.Some? && RowOk(next.value) && SameIdentity(row.value, next.value)
            && (IsTerminal(row.value.status) <==> IsTerminal(next.value.status))
            && next.value.terminalAt == row.value.terminalAt
            && next.value.settledCost == row.value.settledCost
  {
  }

  /** Of two `settle` (or `fail`) statements on one row, the second never matches. */
  lemma {:induction false} SettleOnce(row: Option<Job>, s: Settlement, allowed: set<Status>, s2: Settlement, allowed2: set<Status>, kind: string, now: int)
    requires row.Some? && RowOk(row.value) && IsTerminal(s.status) && SettleRow(row, s, allowed).Written?
    ensures var next := After(row, SettleRow(row, s, allowed));
            SettleRow(next, s2, allowed2).NoMatch? && FailRow(next, kind, now).NoMatch? && !Discards(next)
  {
  }

  // ---- the table ----

  /** The table as the accessor sees it: statements carry the owner, and a foreign row does not match. */
  class BatchJobTable {
    var rows: map<JobId, Job>

    ghost predicate Valid() reads this {
      forall id :: id in rows ==> RowOk(rows[id])
    }

    constructor ()
      ensures Valid() && rows == map[]
    {
      rows := map[];
    }

    function Lookup(owner: string, id: JobId): (r: Option<Job>)
      reads this
    {
      if id in rows && rows[id].owner == owner then Some(rows[id]) else None
    }

    method Insert(owner: string, id: JobId, agent: string, submittedAt: int, itemCount: nat, ceiling: Option<nat>) returns (row: Job)
      requires Valid() && id !in rows
      modifies this
      ensures Valid() && rows == old(rows)[id := row]
      ensures row == Job(owner, agent, submittedAt, itemCount, ceiling, Submitting, None, 0, 0, false, None, None, None, None)
    {
      row := Job(owner, agent, submittedAt, itemCount, ceiling, Submitting, None, 0, 0, false, None, None, None, None);
      rows := rows[id := row];
    }

    method Update(owner: string, id: JobId, patch: Patch, when: Option<set<Status>>) returns (r: WriteResult)
      requires Valid()
      modifies this
      ensures Valid()
      ensures r == UpdateRow(old(Lookup(owner, id)), patch, when)
      ensures rows == if r.Written? then old(rows)[id := r.row] else old(rows)
    {
      if id !in rows || rows[id].owner != owner {
        return NoMatch;
      }
      if when.Some? && rows[id].status !in when.value {
        return NoMatch;
      }
      var j := Patched(rows[id], patch);
      if !RowOk(j) {
        return Violated;
      }
      rows := rows[id := j];
      r := Written(j);
    }

    method Settle(owner: string, id: JobId, s: Settlement, allowed: set<Status>) returns (r: WriteResult)
      requires Valid()
      modifies this
      ensures Valid()
      ensures r == SettleRow(old(Lookup(owner, id)), s, allowed)
      ensures rows == if r.Written? then old(rows)[id := r.row] else old(rows)
    {
      if id !in rows || rows[id].owner != owner || rows[id].status !in allowed || rows[id].terminalAt.Some? {
        return NoMatch;
      }
      var j := SettledRow(rows[id], s);
      if !RowOk(j) {
        return Violated;
      }
      rows := rows[id := j];
      r := Written(j);
    }

    method Fail(owner: string, id: JobId, kind: string, now: int) returns (r: WriteResult)
      requires Valid()
      modifies this
      ensures Valid()
      ensures r == FailRow(old(Lookup(owner, id)), kind, now)
      ensures var cur := old(Lookup(owner, id));
              if !Live(cur) then r.NoMatch?
              else r == Written(cur.value.(status := Failed, errorKind := Some(kind), settledCost := Some(0), terminalAt := Some(now), stalledSince := None))
      ensures rows == if r.Written? then old(rows)[id := r.row] else old(rows)
    {
      if id !in rows || rows[id].owner != owner || IsTerminal(rows[id].status) {
        return NoMatch;
      }
      var j := rows[id].(status := Failed, errorKind := Some(kind), settledCost := Some(0),
                         terminalAt := Some(now), stalledSince := None);
      if !RowOk(j) {
        return Violated;
      }
      rows := rows[id := j];
      r := Written(j);
    }

    method Discard(owner: string, id: JobId) returns (deleted: bool)
      requires Valid()
      modifies this
      ensures Valid()
      ensures deleted == Discards(old(Lookup(owner, id)))
      ensures rows == if deleted then old(rows) - {id} else old(rows)
    {
      deleted := id in rows && rows[id].owner == owner && rows[id].status == Submitting && rows[id].upstreamId == None;
      if deleted {
        rows := rows - {id};
      }
    }
  }
}
