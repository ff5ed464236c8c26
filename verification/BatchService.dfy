/** Submitting and cancelling a batch, run alone. */
module BatchService {
  import opened Options
  import opened BatchJobs
  import opened SpendCounters
  import opened BudgetService
  import Protocol = BatchProtocol

  /** The upstream's answer to the create: accepted, refused with a definitive error, or no answer. */
  datatype CreateAnswer = Created(upstreamId: string, status: Option<UpstreamStatus>) | Refused(kind: string) | NoAnswer

  /** `Unpersisted`: the accepted create came with a status the row's constraint refuses. */
  datatype SubmitResult =
    | Submitted(row: Job)
    | Unpersisted
    | BudgetBlocked(hit: Budget)
    | BatchUnbounded
    | EnforcementUnavailable
    | UpstreamRefused
    | Unresolved

  function NewRow(owner: string, agent: string, at: nat, itemCount: nat, ceiling: Option<nat>): Job {
    Job(owner, agent, at, itemCount, ceiling, Submitting, None, 0, 0, false, None, None, None, None)
  }

  function FailedRow(j: Job, kind: string, now: int): Job {
    j.(status := Failed, errorKind := Some(kind), settledCost := Some(0), terminalAt := Some(now))
  }

  /** Every governing counter gained the ceiling once, and every governing budget had room for it. */
  ghost predicate ReservedFor(before: Store, after: Store, cached: Option<seq<Budget>>, j: Job)
    requires j.submittedAt >= 0
  {
    j.ceiling.Some? && cached.Some? && exists keys ::
      && GoverningKeys(keys, cached.value, Some(j.agent), j.submittedAt) && after == Bumped(before, keys, j.ceiling.value)
      && AllFit(before, cached.value, Some(j.agent), j.submittedAt, j.ceiling.value)
  }

  /** Budgets were read, and one of them governs the job. */
  ghost predicate IsGoverned(cached: Option<seq<Budget>>, j: Job) { cached.Some? && Governed(cached.value, Some(j.agent)) }

  /** A reservation interrupted by a failed call was given back, up to the script whose reply was lost. */
  ghost predicate Interrupted(before: Store, after: Store, j: Job, fault: Option<Fault>) {
    fault.Some? && j.ceiling.Some? && (SameReads(after, before) || Stray(before, after, j.ceiling.value, fault))
  }

  /** An admitted job. One that no budget governs holds no reservation, and neither does one let through by the fail-open
      mode because the budgets could not be read, the counters are stale or a call failed. Every other has its ceiling on
      the counter of each budget that governs it, all of which had room. */
  ghost predicate Admitted(reserved: bool, before: Store, after: Store, cached: Option<seq<Budget>>, j: Job, recent: bool, failOpen: bool,
                           fault: Option<Fault>)
    requires j.submittedAt >= 0
  {
    if cached.None? then failOpen && !reserved && after == before
    else if !IsGoverned(cached, j) then !reserved && after == before
    else
      && j.ceiling.Some?
      && (if !recent then failOpen && !reserved && after == before
          else if reserved then ReservedFor(before, after, cached, j)
          else failOpen && Interrupted(before, after, j, fault))
  }

  /** A job turned away leaves no reservation, and the reason is true. */
  ghost predicate Denied(r: SubmitResult, j: Job, before: Store, after: Store, cached: Option<seq<Budget>>, recent: bool, failOpen: bool,
                         fault: Option<Fault>)
    requires j.submittedAt >= 0
  {
    match r
    case BudgetBlocked(hit) =>
      && SameReads(after, before) && recent && j.ceiling.Some? && cached.Some? && hit in cached.value && Governs(hit, Some(j.agent))
      && !Fits(before, KeyFor(hit, j.submittedAt), hit, j.ceiling.value)
    case BatchUnbounded => after == before && j.ceiling.None? && IsGoverned(cached, j)
    case EnforcementUnavailable =>
      && !failOpen
      && (if cached.None? || !recent then after == before else Interrupted(before, after, j, fault))
      && (cached.Some? ==> IsGoverned(cached, j) && j.ceiling.Some?)
    case _ => false
  }

  /** A release cut short by a failed call leaves the ceiling on the counters it did not reach, and only there. */
  ghost predicate LeftBehind(before: Store, after: Store, cached: Option<seq<Budget>>, j: Job, lost: Option<Fault>)
    requires j.submittedAt >= 0
  {
    lost.Some? && j.ceiling.Some? && cached.Some? && exists keys ::
      && GoverningKeys(keys, cached.value, Some(j.agent), j.submittedAt)
      && SameReads(after, Bumped(before, keys[Reach(lost, |keys|)..], j.ceiling.value))
  }

  ghost predicate Admits(before: Store, after: Store, cached: Option<seq<Budget>>, j: Job, recent: bool, failOpen: bool, fault: Option<Fault>)
    requires j.submittedAt >= 0
  {
    exists reserved :: Admitted(reserved, before, after, cached, j, recent, failOpen, fault)
  }

  /** The job is governed, and every budget that governs it has room for its ceiling. */
  ghost predicate Reserves(before: Store, cached: Option<seq<Budget>>, j: Job, recent: bool)
    requires j.submittedAt >= 0
  {
    recent && IsGoverned(cached, j) && j.ceiling.Some? && AllFit(before, cached.value, Some(j.agent), j.submittedAt, j.ceiling.value)
  }

  predicate EndsAtOnce(create: CreateAnswer) { create.Created? && create.status.Some? && IsTerminal(create.status.value) }

  /** Table and counters after a submission, by its result: a submission that is turned away leaves no row and no
      reservation; a refused one a failed row and no reservation, up to the calls that failed; an unanswered one, and
      one whose create already reports a final status, keeps both for the poller. */
  ghost predicate SubmitOk(r: SubmitResult, id: JobId, j: Job, rows: map<JobId, Job>, rows': map<JobId, Job>, before: Store, after: Store,
                           cached: Option<seq<Budget>>, recent: bool, failOpen: bool, create: CreateAnswer, fault: Option<Fault>,
                           lost: Option<Fault>, now: int)
    requires j.submittedAt >= 0
  {
    match r
    case Submitted(row) =>
      && create.Created? && !EndsAtOnce(create) && row == j.(status := create.status.GetOr(Validating), upstreamId := Some(create.upstreamId))
      && rows' == rows[id := row] && Admits(before, after, cached, j, recent, failOpen, fault)
    case Unpersisted =>
      && EndsAtOnce(create) && rows' == rows[id := j] && Admits(before, after, cached, j, recent, failOpen, fault)
    case Unresolved =>
      && create.NoAnswer? && rows' == rows[id := j] && Admits(before, after, cached, j, recent, failOpen, fault)
    case UpstreamRefused =>
      && create.Refused? && rows' == rows[id := FailedRow(j, create.kind, now)]
      && (Admitted(false, before, after, cached, j, recent, failOpen, fault)
          || (Reserves(before, cached, j, recent) && (SameReads(after, before) || LeftBehind(before, after, cached, j, lost))))
    case _ => rows' == rows && Denied(r, j, before, after, cached, recent, failOpen, fault)
  }

  /** What the admission decided: go on (`reserved` or not), or turn the job away. */
  datatype Admission = Admit(reserved: bool) | Deny(result: SubmitResult)

  class BatchService {
    const table: BatchJobTable
    const counter: SpendCounter

    constructor (table: BatchJobTable, counter: SpendCounter)
      ensures this.table == table && this.counter == counter
    {
      this.table, this.counter := table, counter;
    }

    /** The check-and-reserve of a bounded job, or the gate an unbounded one must pass. */
    method AdmitJob(j: Job, cached: Option<seq<Budget>>, recent: bool, failOpen: bool, fault: Option<Fault>) returns (d: Admission)
      requires j.submittedAt >= 0
      modifies counter
      ensures d.Admit? ==> Admitted(d.reserved, old(counter.store), counter.store, cached, j, recent, failOpen, fault)
      ensures d.Deny? ==> Denied(d.result, j, old(counter.store), counter.store, cached, recent, failOpen, fault)
    {
      if j.ceiling.Some? {
        var r := ReserveForBatch(counter, cached, Some(j.agent), j.submittedAt, j.ceiling.value, recent, failOpen, fault);
        match r {
          case Rejected(hit, _, _) => d := Deny(BudgetBlocked(hit));
          case Unavailable => d := Deny(EnforcementUnavailable);
          case Reserved(keys) => d := Admit(true);
          case _ => d := Admit(false);
        }
      } else if cached.None? {
        d := if failOpen then Admit(false) else Deny(EnforcementUnavailable);
      } else {
        var matched := Matching(cached.value, Some(j.agent));
        if matched == [] {
          d := Admit(false);
        } else {
          assert matched[0] in matched;
          d := Deny(BatchUnbounded);
        }
      }
    }

    /** Takes the row back when the job is turned away. */
    method Refuse(owner: string, id: JobId, ghost rows: map<JobId, Job>)
      requires table.Valid() && id !in rows && id in table.rows && table.rows == rows[id := table.rows[id]]
      requires table.rows[id].owner == owner && Discards(Some(table.rows[id]))
      modifies table
      ensures table.Valid() && table.rows == rows
    {
      var deleted := table.Discard(owner, id);
    }

    /** The upstream's definitive refusal: the row is failed and the reservation released. */
    method RefusedByUpstream(owner: string, id: JobId, j: Job, kind: string, reserved: bool, cached: Option<seq<Budget>>, lost: Option<Fault>,
                             now: int, ghost before: Store)
      requires table.Valid() && id in table.rows && table.rows[id] == j && j.owner == owner && !IsTerminal(j.status)
      requires j.completed == 0 && j.failed == 0 && j.stalledSince.None? && j.submittedAt >= 0
      requires reserved ==> ReservedFor(before, counter.store, cached, j)
      modifies table, counter
      ensures table.Valid() && table.rows == old(table.rows)[id := FailedRow(j, kind, now)]
      ensures if reserved then SameReads(counter.store, before) || LeftBehind(before, counter.store, cached, j, lost)
              else counter.store == old(counter.store)
    {
      var w := table.Fail(owner, id, kind, now);
      if reserved {
        ghost var store := counter.store;
        ReleaseForBatch(counter, cached, Some(j.agent), j.submittedAt, j.ceiling.value, lost);
        Undone(before, store, cached, j, lost);
      }
    }

    /** Row first, then the reservation, then the create, then the upstream id. `fault` and `lost` are failed calls of
        the reservation and of the release. */
    method Submit(owner: string, id: JobId, agent: string, at: nat, itemCount: nat, ceiling: Option<nat>, cached: Option<seq<Budget>>,
                  recent: bool, failOpen: bool, fault: Option<Fault>, lost: Option<Fault>, create: CreateAnswer, now: int)
        returns (r: SubmitResult)
      requires table.Valid() && id !in table.rows
      modifies table, counter
      ensures table.Valid()
      ensures SubmitOk(r, id, NewRow(owner, agent, at, itemCount, ceiling), old(table.rows), table.rows,
                       old(counter.store), counter.store, cached, recent, failOpen, create, fault, lost, now)
    {
      ghost var rows, before := table.rows, counter.store;
      var j := table.Insert(owner, id, agent, at, itemCount, ceiling);
      var d := AdmitJob(j, cached, recent, failOpen, fault);
      if d.Deny? {
        Refuse(owner, id, rows);
        return d.result;
      }
      if create.NoAnswer? {
        return Unresolved;
      }
      if create.Refused? {
        RefusedByUpstream(owner, id, j, create.kind, d.reserved, cached, lost, now, before);
        return UpstreamRefused;
      }
      r := Persist(owner, id, j, create);
    }

    /** The upstream id, persisted; a final status violates the row's constraint, and the row stays `submitting`. */
    method Persist(owner: string, id: JobId, j: Job, create: CreateAnswer) returns (r: SubmitResult)
      requires table.Valid() && id in table.rows && table.rows[id] == j && j.owner == owner && j.status.Submitting? && create.Created?
      modifies table
      ensures table.Valid() && (r.Unpersisted? <==> EndsAtOnce(create)) && (r.Submitted? || r.Unpersisted?)
      ensures r.Submitted? ==> r.row == j.(status := create.status.GetOr(Validating), upstreamId := Some(create.upstreamId))
      ensures table.rows == if r.Submitted? then old(table.rows)[id := r.row] else old(table.rows)
    {
      var w := table.Update(owner, id, Protocol.PersistPatch(create.upstreamId, create.status), Some({Submitting}));
      r := if w.Written? then Submitted(w.row) else Unpersisted;
    }

    /** The cancel of a loaded row. A terminal job, and one already cancelling upstream, is left as it is. A job without an
        upstream id, or whose provider is gone, records the request and nothing else. Otherwise the upstream is asked; if
        that fails nothing is written, and if not a validating, running or finalizing job becomes `cancelling` with the
        request recorded. `changed` is what the caller is told. */
    method CancelJob(owner: string, id: JobId, provider: bool, cancelOk: bool) returns (row: Option<Job>, changed: bool, threw: bool)
      requires table.Valid()
      modifies table
      ensures table.Valid()
      ensures var cur := old(table.Lookup(owner, id));
              if cur.None? then threw && !changed && row.None? && table.rows == old(table.rows)
              else
                var j := cur.value;
                if IsTerminal(j.status) || (j.upstreamId.Some? && j.status.Cancelling?) then
                  !threw && !changed && row == cur && table.rows == old(table.rows)
                else if j.upstreamId.None? || !provider then
                  !threw && changed && row == Some(j.(cancelRequested := true)) && table.rows == old(table.rows)[id := row.value]
                else if !cancelOk then
                  threw && !changed && row == cur && table.rows == old(table.rows)
                else if j.status.Validating? || j.status.InProgress? || j.status.Finalizing? then
                  !threw && changed && row == Some(j.(status := Cancelling, cancelRequested := true)) && table.rows == old(table.rows)[id := row.value]
                else
                  !threw && changed && row == cur && table.rows == old(table.rows)
    {
      row, changed, threw := table.Lookup(owner, id), false, false;
      if row.None? {
        return row, false, true;
      }
      var j := row.value;
      if IsTerminal(j.status) || (j.upstreamId.Some? && j.status.Cancelling?) {
        return row, false, false;
      }
      if j.upstreamId.None? || !provider {
        var w := table.Update(owner, id, Protocol.INTENT, None);
        return Some(w.row), true, false;
      }
      if !cancelOk {
        return row, false, true;
      }
      var w := table.Update(owner, id, Protocol.CANCEL, Some(CANCELLABLE));
      row, changed := if w.Written? then Some(w.row) else row, true;
    }
  }

  /** A governing budget without room for the job's ceiling, in dollars. */
  ghost predicate TooSmall(before: Store, b: Budget, j: Job)
    requires j.submittedAt >= 0 && j.ceiling.Some?
  {
    Committed(before, b, j.submittedAt) + j.ceiling.value > 0 && !WithinUsd(Committed(before, b, j.submittedAt) + j.ceiling.value, b.amount)
  }

  /** Without failed calls the outcome of a submission is decided by the budgets alone: a job no budget governs passes; a
      governed one without a ceiling is refused, one with a ceiling is blocked exactly if some budget is too small for it,
      and holds its ceiling on every governing counter otherwise; unreadable budgets and stale counters turn a job away
      exactly if the fail mode is closed. */
  lemma {:induction false} SubmitDecides(r: SubmitResult, id: JobId, j: Job, rows: map<JobId, Job>, rows': map<JobId, Job>, before: Store, after: Store,
                                         cached: Option<seq<Budget>>, recent: bool, failOpen: bool, create: CreateAnswer, lost: Option<Fault>, now: int)
    requires j.submittedAt >= 0 && SubmitOk(r, id, j, rows, rows', before, after, cached, recent, failOpen, create, None, lost, now)
    ensures r.BatchUnbounded? <==> IsGoverned(cached, j) && j.ceiling.None?
    ensures r.EnforcementUnavailable? <==> !failOpen && (cached.None? || (IsGoverned(cached, j) && j.ceiling.Some? && !recent))
    ensures r.BudgetBlocked? <==> IsGoverned(cached, j) && j.ceiling.Some? && recent
                                  && exists b :: b in cached.value && Governs(b, Some(j.agent)) && TooSmall(before, b, j)
    ensures r.Submitted? || r.Unpersisted? || r.Unresolved?
            ==> if IsGoverned(cached, j) && recent then ReservedFor(before, after, cached, j) else after == before
  {
    if j.ceiling.Some? && cached.Some? {
      forall b
        ensures Fits(before, KeyFor(b, j.submittedAt), b, j.ceiling.value) <==> !TooSmall(before, b, j)
      {
        FitsInUsd(before, KeyFor(b, j.submittedAt), b, j.ceiling.value);
      }
    }
  }

  lemma {:induction false} Undone(before: Store, reserved: Store, cached: Option<seq<Budget>>, j: Job, lost: Option<Fault>)
    requires j.submittedAt >= 0 && ReservedFor(before, reserved, cached, j)
    ensures var after := ReleasedStore(reserved, cached, Some(j.agent), j.submittedAt, j.ceiling.value, lost);
            SameReads(after, before) || LeftBehind(before, after, cached, j, lost)
  {
    var agent, ceiling := Some(j.agent), j.ceiling.value;
    var keys :| GoverningKeys(keys, cached.value, agent, j.submittedAt) && reserved == Bumped(before, keys, ceiling);
    if ceiling == 0 {
      ZeroMovesNothing(before, keys);
    } else {
      var keys' := BatchKeys(cached.value, agent, j.submittedAt);
      AreGoverning(cached.value, agent, j.submittedAt);
      ReleaseMatchesReserve(before, cached.value, agent, j.submittedAt, ceiling, keys, keys', Reach(lost, |keys'|));
    }
  }

  lemma {:induction false} ZeroMovesNothing(store: Store, keys: seq<string>)
    requires DistinctSpendKeys(keys)
    ensures SameReads(Bumped(store, keys, 0), store)
  {
    forall k
      ensures Pending(Bumped(store, keys, 0), k) == Pending(store, k)
      ensures IsSpendKey(k) ==> Read(Bumped(store, keys, 0), k) == Read(store, k)
    {
      BumpedAt(store, keys, 0, k);
    }
  }
}
