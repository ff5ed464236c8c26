/** The scripts on the shared store are the money steps of the batch protocol, and the scheduler's read of the table is
    the sum its reconcile writes. */
module BatchCounters {
  import opened Options
  import opened BatchJobs
  import opened BatchProtocol
  import opened SpendCounters
  import opened Rounding
  import opened Period
  import Budgets = BudgetService
  import Scheduler = BudgetScheduler
  import Safety = BatchSafety

  /** The store holds what the protocol's counters hold. */
  ghost predicate Shows(store: Store, w: World) {
    forall k :: IsSpendKey(k) ==> Read(store, k) == Get(w.spend, k) && Pending(store, k) == GetNat(w.pending, k)
  }

  /** A check-and-reserve admits exactly when the protocol does, and adds what the protocol adds. */
  lemma {:induction false} ReserveIsStep(store: Store, w: World, k: Key, cost: nat)
    requires Shows(store, w) && IsSpendKey(k) && Get(w.amounts, k) >= 0
    ensures SpendCounters.Admits(store, k, Get(w.amounts, k), cost) <==> BatchProtocol.Admits(w, cost, k)
    ensures Shows(SetPending(store, k, Pending(store, k) + cost), Moved(w, Adds(k), cost))
  {
    forall q | IsSpendKey(q)
      ensures Pending(SetPending(store, k, Pending(store, k) + cost), q) == GetNat(Moved(w, Adds(k), cost).pending, q)
      ensures Read(SetPending(store, k, Pending(store, k) + cost), q) == Get(w.spend, q)
    {
      SetPendingMoves(store, k, Pending(store, k) + cost, q);
    }
  }

  /** A release is the protocol's release, floor included. */
  lemma {:induction false} ReleaseIsStep(store: Store, w: World, k: Key, cost: nat)
    requires Shows(store, w) && IsSpendKey(k)
    ensures Shows(SetPending(store, k, NonNegative(Pending(store, k) - cost)), Moved(w, Releases(k), cost))
  {
    var left := NonNegative(Pending(store, k) - cost);
    forall q | IsSpendKey(q)
      ensures Pending(SetPending(store, k, left), q) == GetNat(Moved(w, Releases(k), cost).pending, q)
      ensures Read(SetPending(store, k, left), q) == Get(w.spend, q)
    {
      SetPendingMoves(store, k, left, q);
    }
  }

  // ---- the scheduler's read ----

  /** The rows the table holds. */
  function Rows(jobs: seq<Entry>): seq<Job> {
    if jobs == [] then []
    else
      var row := jobs[|jobs| - 1].core.row;
      if row.Some? then Rows(jobs[..|jobs| - 1]) + [row.value] else Rows(jobs[..|jobs| - 1])
  }

  type Owners = string -> seq<Budgets.Budget>

  /** The job carries its row's ceiling, and its keys are the counters its submission reserves on. */
  ghost predicate Keyed(c: Core, budgets: Owners) {
    c.row.Some? ==>
      var j := c.row.value;
      && j.submittedAt >= 0 && c.ceiling == j.ceiling && Scheduler.OwnBudgets(budgets(j.owner), j.owner)
      && Budgets.GoverningKeys(c.keys, budgets(j.owner), Some(j.agent), j.submittedAt)
  }

  ghost predicate AllKeyed(jobs: seq<Entry>, budgets: Owners) { forall i :: 0 <= i < |jobs| ==> Keyed(jobs[i].core, budgets) }

  /** Every submission of the run keys its job on the counters it reserves on. */
  ghost predicate KeyedInserts(evs: seq<Event>, budgets: Owners) {
    forall i :: 0 <= i < |evs| && evs[i].Insert? ==> Keyed(NewEntry(evs[i].job, evs[i].keys, evs[i].results).core, budgets)
  }

  lemma {:induction false} KeyedStays(a: Core, b: Core, budgets: Owners)
    requires Keyed(a, budgets) && Safety.Evolves(a, b)
    ensures Keyed(b, budgets)
  {
  }

  lemma {:induction false} AllKeyedStep(w: World, ev: Event, budgets: Owners)
    requires AllKeyed(w.jobs, budgets) && Safety.Inv(w) && KeyedInserts([ev], budgets)
    ensures AllKeyed(Step(w, ev).jobs, budgets)
  {
    Safety.StepKeeps(w, ev);
    var next := Step(w, ev).jobs;
    forall i | 0 <= i < |next|
      ensures Keyed(next[i].core, budgets)
    {
      if i < |w.jobs| {
        KeyedStays(w.jobs[i].core, next[i].core, budgets);
      } else {
        assert [ev][0].Insert?;
      }
    }
  }

  /** While budgets stay as they are, every state of a run keeps its jobs on those counters. */
  lemma {:induction false} KeyedRun(amounts: map<Key, int>, evs: seq<Event>, budgets: Owners)
    requires KeyedInserts(evs, budgets)
    ensures AllKeyed(Run(Start(amounts), evs).jobs, budgets)
  {
    if evs != [] {
      var front, last := evs[..|evs| - 1], evs[|evs| - 1];
      KeyedRun(amounts, front, budgets);
      Safety.RunKeeps(Start(amounts), front);
      assert KeyedInserts([last], budgets);
      AllKeyedStep(Run(Start(amounts), front), last, budgets);
    }
  }

  /** A block budget of its owner. */
  ghost predicate Meters(b: Budgets.Budget, budgets: Owners) {
    Scheduler.PlainBudget(b) && b.enabled && b.action.Block? && b in budgets(b.owner)
  }

  /** The query's range counts a job on the budget's counter exactly when the protocol does. */
  lemma {:induction false} CountsIff(c: Core, budgets: Owners, b: Budgets.Budget, at: nat)
    requires Keyed(c, budgets) && Meters(b, budgets) && c.row.Some?
    ensures var p := PeriodOf(b.window, at);
            Scheduler.InRange(c.row.value, b.owner, Scheduler.AgentFilter(b), p.startMs, p.endMs) <==> Counts(c, Budgets.KeyFor(b, at))
  {
    var j := c.row.value;
    Scheduler.RangeSelects(j, b, at);
    if !IsTerminal(j.status) {
      Scheduler.ReconcileCountsReserved(j, budgets(j.owner), b, at);
    }
  }

  lemma {:induction false} RowsDated(jobs: seq<Entry>, budgets: Owners)
    requires AllKeyed(jobs, budgets)
    ensures forall i :: 0 <= i < |Rows(jobs)| ==> Rows(jobs)[i].submittedAt >= 0
  {
    if jobs != [] {
      RowsDated(jobs[..|jobs| - 1], budgets);
      assert Keyed(jobs[|jobs| - 1].core, budgets);
    }
  }

  /** What the scheduler's query adds up over the table is the protocol's sum for the counter. */
  lemma {:induction false} QueryIsDbSum(jobs: seq<Entry>, budgets: Owners, b: Budgets.Budget, at: nat)
    requires AllKeyed(jobs, budgets) && Meters(b, budgets)
    ensures var p := PeriodOf(b.window, at);
            Scheduler.PendingMicrosFor(Rows(jobs), b.owner, Scheduler.AgentFilter(b), p.startMs, p.endMs) == DbSum(jobs, Budgets.KeyFor(b, at))
  {
    if jobs != [] {
      var front, last := jobs[..|jobs| - 1], jobs[|jobs| - 1].core;
      QueryIsDbSum(front, budgets, b, at);
      assert Keyed(last, budgets);
      if last.row.Some? {
        CountsIff(last, budgets, b, at);
        assert Rows(jobs)[..|Rows(jobs)| - 1] == Rows(front);
      }
    }
  }

  /** A counter that an occurrence reconciled from the table as it is holds what the protocol's two reconciles of it
      write, so the protocol's theorems speak of the scheduler's own read. */
  lemma {:induction false} ReconcileIsStep(store: Store, after: Store, w: World, budgets: Owners, b: Budgets.Budget, at: nat, r: Scheduler.Reading)
    requires Shows(store, w) && AllKeyed(w.jobs, budgets) && Meters(b, budgets) && r.rows == Some(Rows(w.jobs))
    requires var k := Budgets.KeyFor(b, at);
             Scheduler.Meets(store, after, k, r, Scheduler.SumFor(r, b, at)) && Scheduler.OnlyMoved(store, after, [k])
    ensures var k := Budgets.KeyFor(b, at); Shows(after, StepReconcile(StepSpend(w, k, r.micros), k))
  {
    RowsDated(w.jobs, budgets);
    Scheduler.RangeSums(Rows(w.jobs), b, at);
    QueryIsDbSum(w.jobs, budgets, b, at);
    Overwrites(store, after, w, Budgets.KeyFor(b, at), r.micros);
  }

  lemma {:induction false} Overwrites(store: Store, after: Store, w: World, k: Key, micros: nat)
    requires Shows(store, w) && IsSpendKey(k) && Pending(after, k) == DbSum(w.jobs, k) && Scheduler.OnlyMoved(store, after, [k])
    requires Read(after, k) == if micros > Read(store, k) then micros else Read(store, k)
    ensures Shows(after, StepReconcile(StepSpend(w, k, micros), k))
  {
    var next := StepReconcile(StepSpend(w, k, micros), k);
    forall q | IsSpendKey(q)
      ensures Pending(after, q) == GetNat(next.pending, q) && Read(after, q) == Get(next.spend, q)
    {
    }
  }
}
