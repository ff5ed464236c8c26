/** One advance of the poller, answer by answer: the columns it stores, spelled out. */
module BatchAdvances {
  import opened Options
  import opened ItemTotals
  import opened BatchJobs
  import Counters = SpendCounters
  import Budgets = BudgetService
  import Poller = BatchPoller
  import Settlements = BatchSettlement

  // ---- what an ending stores ----

  /** The job ended now, in this way, with these counts and cost, and nothing else of it changed. */
  predicate EndedAs(next: Job, cur: Job, status: Status, kind: Option<string>, t: Totals, now: int) {
    next == cur.(status := status, errorKind := kind, completed := t.completed, failed := t.failed, settledCost := Some(t.cost),
                 terminalAt := Some(now), stalledSince := None)
  }

  /** The upstream is not asked for the job's status: the submission's fate is unknown, or there is no id to ask for. */
  predicate Unlocated(row: Job) { row.status.SubmissionUnknown? || row.upstreamId.None? }

  /** The ledger rows of the whole stream. */
  function AllRows(a: Poller.Answers): map<CustomId, ItemRow> { Settlements.Summaries(Settlements.FirstRows(a.spec, a.results.stream)) }

  /** The job ended with nothing settled. */
  predicate EndedUnsettled(next: Job, cur: Job, status: Status, kind: Option<string>, now: int) {
    EndedAs(next, cur, status, kind, Totals(0, 0, 0), now)
  }

  /** The row the upstream's status is read beside: a cancel requested before there was an id has been passed on. */
  function Honoured(cur: Job, row: Job): Job {
    if row.cancelRequested && !row.status.Cancelling? && cur.status in {Validating, InProgress, Finalizing} then cur.(status := Cancelling) else cur
  }

  /** A live job that ends on anything but a final status, whatever snapshot the advance decided on. A provider that is
      gone fails it; so does a submission that was not listed for its whole window; a job the upstream does not know
      expired past its window, and was lost before it. */
  lemma {:induction false} EndsWithoutView(cur: Job, id: JobId, row: Job, a: Poller.Answers, got: Poller.Extent)
    requires RowOk(cur) && !IsTerminal(cur.status) && Terminal(Poller.AdvancedRow(Some(cur), id, row, a, got))
    requires !a.provider || Unlocated(row) || !a.view.View?
    ensures var next := Poller.AdvancedRow(Some(cur), id, row, a, got).value;
            if !a.provider then EndedUnsettled(next, cur, Failed, Some("provider_missing"), a.now)
            else if Unlocated(row) then
              && a.now - (if row.stalledSince.Some? then row.stalledSince.value else row.submittedAt) >= 21600000
              && EndedUnsettled(next, cur, Failed, Some(if row.cancelRequested then "submit_lost" else "submit_unresolved"), a.now)
            else
              && a.view.NotFound?
              && (if a.now < row.submittedAt + a.window then EndedUnsettled(next, Honoured(cur, row), Failed, Some("submit_lost"), a.now)
                  else EndedUnsettled(next, Honoured(cur, row), Expired, None, a.now))
  {
  }

  /** The snapshot lets the advance get as far as reading the job's status. */
  predicate Asks(row: Job, a: Poller.Answers) {
    && a.provider && a.adapter && !row.status.Submitting? && !Unlocated(row)
    && !(row.cancelRequested && !row.status.Cancelling? && a.cancelThrows)
  }

  lemma {:induction false} HonouredFirst(cur: Job, row: Job)
    requires RowOk(cur) && !IsTerminal(cur.status)
    ensures Poller.AfterCancel(Some(cur), row) == Some(Honoured(cur, row))
    ensures RowOk(Honoured(cur, row)) && !IsTerminal(Honoured(cur, row).status)
  {
  }

  lemma {:induction false} Views(cur: Job, id: JobId, row: Job, a: Poller.Answers, got: Poller.Extent)
    requires RowOk(cur) && !IsTerminal(cur.status) && a.view.View? && Asks(row, a)
    ensures Poller.AdvancedRow(Some(cur), id, row, a, got)
            == Poller.StatusRow(Some(Honoured(cur, row)), row, a.view.status, a.view.counts, a, got)
  {
    HonouredFirst(cur, row);
  }

  /** The status a settlement holds the job in. */
  function HoldsAs(row: Job, v: Status): Status { if row.status.Cancelling? || v.Cancelled? then Cancelling else Finalizing }

  lemma {:induction false} Holds(base: Job, row: Job, v: Status)
    requires RowOk(base) && !IsTerminal(base.status)
    ensures !base.status.Submitting?
            ==> Poller.HoldResult(Some(base), row, v) == Written(base.(status := HoldsAs(row, v), errorKind := None, stalledSince := None))
    ensures base.status.Submitting? ==> Poller.HoldResult(Some(base), row, v) == NoMatch
  {
  }

  lemma {:induction false} Settles(held: Job, job: Job, v: Status, status: Status, a: Poller.Answers, got: Poller.Extent)
    requires RowOk(held) && !IsTerminal(held.status) && IsTerminal(v) && Terminal(Poller.FinishedRow(Some(held), job, v, a, got))
    requires job.upstreamId.Some? && status == if v.Cancelled? || job.status.Cancelling? then Cancelled else v
    ensures EndedAs(Poller.FinishedRow(Some(held), job, v, a, got).value, held, status, None,
                    if got.Gone? then Totals(0, 0, 0) else TotalsOf(AllRows(a)), a.now)
  {
  }

  /** A live job that ends on a final status: it is stored with that very status, unless that is a cancellation or the
      snapshot was already cancelling, and then it is cancelled - in either case without an error kind. Its counts and cost
      are those of all its distinct results, or zero where they are gone. */
  lemma {:induction false} EndsWithView(cur: Job, id: JobId, row: Job, a: Poller.Answers, got: Poller.Extent)
    requires RowOk(cur) && !IsTerminal(cur.status) && Terminal(Poller.AdvancedRow(Some(cur), id, row, a, got))
    requires a.provider && !Unlocated(row) && a.view.View? && cur.upstreamId.Some?
    ensures a.view.status.Some? && IsTerminal(a.view.status.value)
    ensures var next, v := Poller.AdvancedRow(Some(cur), id, row, a, got).value, a.view.status.value;
            EndedAs(next, cur, if v.Cancelled? || row.status.Cancelling? then Cancelled else v, None,
                    if got.Gone? then Totals(0, 0, 0) else TotalsOf(AllRows(a)), a.now)
  {
    Views(cur, id, row, a, got);
    OnlyFinalEnds(cur, row, a, got);
    EndsHeld(cur, row, a.view.status.value, a, got);
  }

  lemma {:induction false} OnlyFinalEnds(cur: Job, row: Job, a: Poller.Answers, got: Poller.Extent)
    requires RowOk(cur) && !IsTerminal(cur.status) && a.view.View?
    requires Terminal(Poller.StatusRow(Some(Honoured(cur, row)), row, a.view.status, a.view.counts, a, got))
    ensures a.view.status.Some? && IsTerminal(a.view.status.value)
  {
  }

  lemma {:induction false} EndsHeld(cur: Job, row: Job, v: Status, a: Poller.Answers, got: Poller.Extent)
    requires RowOk(cur) && !IsTerminal(cur.status) && IsTerminal(v) && cur.upstreamId.Some? && row.upstreamId.Some?
    requires Terminal(Poller.DefinitiveRow(Some(Honoured(cur, row)), row, v, a, got))
    ensures EndedAs(Poller.DefinitiveRow(Some(Honoured(cur, row)), row, v, a, got).value, cur,
                    if v.Cancelled? || row.status.Cancelling? then Cancelled else v, None,
                    if got.Gone? then Totals(0, 0, 0) else TotalsOf(AllRows(a)), a.now)
  {
    var base := Honoured(cur, row);
    HonouredFirst(cur, row);
    Holds(base, row, v);
    var job := Poller.HeldJob(Some(base), row, v);
    var held := After(Some(base), Poller.HoldResult(Some(base), row, v)).value;
    Settles(held, job, v, if v.Cancelled? || row.status.Cancelling? then Cancelled else v, a, got);
  }

  /** When a finish matches: with results it must find the job held, without any only live, and the counts must fit the
      batch. It then ends the job in just that way. */
  lemma {:induction false} FinishIff(cur: Job, status: Status, kind: Option<string>, t: Totals, now: int)
    requires RowOk(cur) && IsTerminal(status)
    ensures var r := Poller.FinishResult(Some(cur), status, kind, t, now);
            && (r.Written? <==> !IsTerminal(cur.status) && t.completed + t.failed <= cur.itemCount
                                && (t.completed + t.failed > 0 ==> cur.status == Finalizing || cur.status == Cancelling))
            && (r.Written? ==> EndedAs(r.row, cur, status, kind, t, now))
  {
  }

  // ---- what every other answer stores ----

  /** A submission without an id, before and after its grace. */
  lemma {:induction false} SubmittingStores(cur: Job, id: JobId, row: Job, a: Poller.Answers, got: Poller.Extent)
    requires RowOk(cur) && !IsTerminal(cur.status) && a.provider && row.status.Submitting?
    ensures Poller.AdvancedRow(Some(cur), id, row, a, got)
            == Some(if a.now - row.submittedAt >= 120000 && cur.status.Submitting?
                    then cur.(status := SubmissionUnknown, errorKind := None, stalledSince := Some(a.now)) else cur)
  {
  }

  lemma {:induction false} FindIs(entries: seq<Poller.Listed>, id: JobId)
    ensures Poller.Find(entries, id).None? <==> forall i :: 0 <= i < |entries| ==> entries[i].jobId != id
    ensures forall i :: 0 <= i < |entries| && entries[i].jobId == id && (forall k :: 0 <= k < i ==> entries[k].jobId != id)
              ==> Poller.Find(entries, id) == Some(entries[i])
  {
    if entries != [] && entries[0].jobId != id {
      FindIs(entries[1..], id);
      assert forall i :: 0 < i < |entries| ==> entries[i] == entries[1..][i - 1];
    }
  }

  /** The first listed entry that names the job. */
  predicate ListedAt(entries: seq<Poller.Listed>, i: nat, id: JobId) {
    i < |entries| && entries[i].jobId == id && forall k :: 0 <= k < i ==> entries[k].jobId != id
  }

  /** A job that is found in the listing takes its id and status - `in_progress` where that is unmapped - unless the status
      is final, which leaves the row as it is; an absent one waits for its window, and then ends. */
  lemma {:induction false} ListingStores(cur: Job, id: JobId, row: Job, a: Poller.Answers, got: Poller.Extent)
    requires RowOk(cur) && !IsTerminal(cur.status) && a.provider && a.adapter && !row.status.Submitting? && Unlocated(row) && a.listing.Some?
    ensures forall i: nat :: ListedAt(a.listing.value, i, id) ==>
              var found := a.listing.value[i];
              var status := if found.status.Some? then found.status.value else InProgress;
              Poller.AdvancedRow(Some(cur), id, row, a, got)
              == Some(if IsTerminal(status) then cur
                      else cur.(status := status, upstreamId := Some(found.upstreamId), errorKind := None, stalledSince := None))
    ensures (forall i :: 0 <= i < |a.listing.value| ==> a.listing.value[i].jobId != id)
            && a.now - (if row.stalledSince.Some? then row.stalledSince.value else row.submittedAt) < 21600000
            ==> Poller.AdvancedRow(Some(cur), id, row, a, got) == Some(cur)
    ensures (forall i :: 0 <= i < |a.listing.value| ==> a.listing.value[i].jobId != id)
            && a.now - (if row.stalledSince.Some? then row.stalledSince.value else row.submittedAt) >= 21600000
            ==> Terminal(Poller.AdvancedRow(Some(cur), id, row, a, got))
  {
    FindIs(a.listing.value, id);
  }

  /** A call that fails before the job's status is known stores nothing but the cancel passed on. */
  lemma {:induction false} FailuresStore(cur: Job, id: JobId, row: Job, a: Poller.Answers, got: Poller.Extent)
    requires RowOk(cur) && !IsTerminal(cur.status) && a.provider && !row.status.Submitting?
    requires !a.adapter || (Unlocated(row) && a.listing.None?) || (!Unlocated(row) && (a.view.ViewThrows? || (row.cancelRequested && a.cancelThrows)))
    requires a.adapter && !Unlocated(row) && a.cancelThrows ==> row.cancelRequested && !row.status.Cancelling?
    ensures Poller.AdvancedRow(Some(cur), id, row, a, got)
            == Some(if a.adapter && !Unlocated(row) && !a.cancelThrows then Honoured(cur, row) else cur)
  {
  }

  /** The counts a view reports, or those the row has. */
  function CountsOf(cur: Job, counts: Option<(nat, nat)>): (nat, nat) { if counts.Some? then counts.value else (cur.completed, cur.failed) }

  /** A status that is not final: an unmapped one notes the stall, dated from the first such view; a mapped one is stored
      with its counts as long as they fit the batch. */
  lemma {:induction false} ViewStores(cur: Job, id: JobId, row: Job, a: Poller.Answers, got: Poller.Extent)
    requires RowOk(cur) && !IsTerminal(cur.status) && Asks(row, a) && a.view.View?
    requires a.view.status.None? || !IsTerminal(a.view.status.value)
    ensures var base, next := Honoured(cur, row), Poller.AdvancedRow(Some(cur), id, row, a, got);
            if a.view.status.None? then
              next == Some(base.(errorKind := Some("upstream_status_unknown"),
                                 stalledSince := Some(if row.stalledSince.Some? then row.stalledSince.value else a.now)))
            else
              var counts := CountsOf(cur, a.view.counts);
              next == Some(if cur.status.Submitting? || counts.0 + counts.1 > cur.itemCount then base
                           else base.(status := a.view.status.value, completed := counts.0, failed := counts.1, errorKind := None, stalledSince := None))
  {
    Views(cur, id, row, a, got);
    HonouredFirst(cur, row);
  }

  /** A final status whose settlement does not get to the end, or does not fit the batch, leaves the job held. */
  lemma {:induction false} HoldStores(cur: Job, id: JobId, row: Job, a: Poller.Answers, got: Poller.Extent)
    requires RowOk(cur) && !IsTerminal(cur.status) && Asks(row, a) && a.view.View? && a.view.status.Some? && IsTerminal(a.view.status.value)
    ensures var base, next := Honoured(cur, row), Poller.AdvancedRow(Some(cur), id, row, a, got);
            Terminal(next) || next == Some(if cur.status.Submitting? then base
                                           else base.(status := HoldsAs(row, a.view.status.value), errorKind := None, stalledSince := None))
  {
    Views(cur, id, row, a, got);
    HonouredFirst(cur, row);
    Holds(Honoured(cur, row), row, a.view.status.value);
  }

  // ---- what an advance does to the counters ----

  /** A counter of one of the budgets that govern the job, for the instant it was submitted at. */
  ghost predicate OnCounter(budgets: seq<Budgets.Budget>, row: Job, k: string)
    requires row.submittedAt >= 0
  {
    exists b :: b in budgets && Budgets.Governs(b, Some(row.agent)) && Budgets.KeyFor(b, row.submittedAt) == k
  }

  /** An advance takes the job's ceiling off every governing counter, once and not below zero, exactly if it ends a live
      job; no other counter moves, and no spend. */
  lemma {:induction false} EndingReleases(s: Poller.Shared, id: JobId, row: Job, a: Poller.Answers, got: Poller.Extent, k: string)
    requires row.submittedAt >= 0 && a.budgets.Some? && a.fault.None?
    ensures var cur, after := Poller.Owned(s.rows, row.owner, id), Poller.AdvancedTo(s, id, row, a, got).store;
            && (Counters.IsSpendKey(k) ==> Counters.Read(after, k) == Counters.Read(s.store, k))
            && Counters.Pending(after, k)
               == if Live(cur) && Terminal(Poller.AdvancedRow(cur, id, row, a, got)) && OnCounter(a.budgets.value, row, k) && row.ceiling.Some?
                  then (if Counters.Pending(s.store, k) <= row.ceiling.value then 0 else Counters.Pending(s.store, k) - row.ceiling.value)
                  else Counters.Pending(s.store, k)
  {
    Released(s.store, row, a, k);
  }

  lemma {:induction false} Released(store: Counters.Store, row: Job, a: Poller.Answers, k: string)
    requires row.submittedAt >= 0 && a.budgets.Some? && a.fault.None?
    ensures var after := Poller.Freed(store, row, a);
            && (Counters.IsSpendKey(k) ==> Counters.Read(after, k) == Counters.Read(store, k))
            && Counters.Pending(after, k)
               == if OnCounter(a.budgets.value, row, k) && row.ceiling.Some?
                  then (if Counters.Pending(store, k) <= row.ceiling.value then 0 else Counters.Pending(store, k) - row.ceiling.value)
                  else Counters.Pending(store, k)
  {
    var keys := Budgets.BatchKeys(a.budgets.value, Some(row.agent), row.submittedAt);
    FreedIs(store, row, a, keys);
    OnKeys(a.budgets.value, row, keys, k);
    Budgets.DroppedAt(store, keys, row.ceiling.GetOr(0), k);
  }

  lemma {:induction false} FreedIs(store: Counters.Store, row: Job, a: Poller.Answers, keys: seq<string>)
    requires row.submittedAt >= 0 && a.budgets.Some? && a.fault.None?
    requires keys == Budgets.BatchKeys(a.budgets.value, Some(row.agent), row.submittedAt)
    ensures Poller.Freed(store, row, a) == if row.ceiling.GetOr(0) == 0 then store else Budgets.Dropped(store, keys, row.ceiling.value)
  {
    assert keys[..|keys|] == keys;
  }

  lemma {:induction false} OnKeys(budgets: seq<Budgets.Budget>, row: Job, keys: seq<string>, k: string)
    requires row.submittedAt >= 0 && keys == Budgets.BatchKeys(budgets, Some(row.agent), row.submittedAt)
    ensures Budgets.DistinctSpendKeys(keys) && (k in keys <==> OnCounter(budgets, row, k))
  {
    Budgets.AreGoverning(budgets, Some(row.agent), row.submittedAt);
  }

  // ---- a cancel request ----

  /** A recorded cancel request is honoured by the first advance that finds an upstream id and can pass it on: the job is
      `cancelling` beside whatever that advance then reads, and from there on every final status ends it as cancelled. */
  lemma {:induction false} CancelHonoured(j: Job, id: JobId, a: Poller.Answers, got: Poller.Extent)
    requires RowOk(j) && j.cancelRequested && j.upstreamId.Some? && j.status in {Validating, InProgress, Finalizing}
    requires a.provider && a.adapter && !a.cancelThrows && a.view.ViewThrows?
    ensures Poller.AdvancedRow(Some(j), id, j, a, got) == Some(j.(status := Cancelling))
    ensures forall b: Poller.Answers, more: Poller.Extent :: b.provider && b.view.View?
              && Terminal(Poller.AdvancedRow(Some(j.(status := Cancelling)), id, j.(status := Cancelling), b, more))
              ==> Poller.AdvancedRow(Some(j.(status := Cancelling)), id, j.(status := Cancelling), b, more).value.status == Cancelled
  {
    var c := j.(status := Cancelling);
    forall b: Poller.Answers, more: Poller.Extent | b.provider && b.view.View? && Terminal(Poller.AdvancedRow(Some(c), id, c, b, more))
      ensures Poller.AdvancedRow(Some(c), id, c, b, more).value.status == Cancelled
    {
      EndsWithView(c, id, c, b, more);
    }
  }
}
