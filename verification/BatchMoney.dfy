/** The pending counters over every run of the batch protocol: what they account for, and how far a run may
    undercount. */
module BatchMoney {
  import opened Options
  import opened BatchJobs
  import opened BatchProtocol
  import opened BatchSafety
  import opened Rounding

  // ---- the books ----

  function Product(n: int, cost: nat): int { n * cost }

  /** Ceilings added or counted minus ceilings released, since the counter's last reconcile. */
  function CreditSum(jobs: seq<Entry>, k: Key): int {
    if jobs == [] then 0
    else CreditSum(jobs[..|jobs| - 1], k) + Product(Credit(jobs[|jobs| - 1], k), Cost(jobs[|jobs| - 1].core))
  }

  predicate Held(e: Entry, k: Key) { Live(e.core.row) && k in e.held }

  /** Ceilings of the live jobs that were reserved on the counter or counted by its last reconcile, and not
      rolled back. */
  function HeldSum(jobs: seq<Entry>, k: Key): nat {
    if jobs == [] then 0
    else HeldSum(jobs[..|jobs| - 1], k) + (if Held(jobs[|jobs| - 1], k) then Cost(jobs[|jobs| - 1].core) else 0)
  }

  /** Ceilings released since the last reconcile without a matching add or count. */
  function UnmatchedSum(jobs: seq<Entry>, k: Key): int {
    if jobs == [] then 0
    else UnmatchedSum(jobs[..|jobs| - 1], k) + Product(NonNegative(-Credit(jobs[|jobs| - 1], k)), Cost(jobs[|jobs| - 1].core))
  }

  /** Conservation: a counter is exactly what was added and counted, minus what was released, plus what the
      floor at zero forgave. */
  ghost predicate Balanced(w: World) {
    forall k :: GetNat(w.pending, k) == CreditSum(w.jobs, k) + GetNat(w.forgiven, k)
  }

  lemma {:induction false} CreditSumAt(jobs: seq<Entry>, j: JobId, e: Entry, k: Key)
    requires j < |jobs|
    ensures CreditSum(jobs[j := e], k)
         == CreditSum(jobs, k) - Product(Credit(jobs[j], k), Cost(jobs[j].core)) + Product(Credit(e, k), Cost(e.core))
  {
    var n := |jobs| - 1;
    if j < n {
      CreditSumAt(jobs[..n], j, e, k);
      assert jobs[j := e][..n] == jobs[..n][j := e];
    } else {
      assert jobs[j := e][..n] == jobs[..n];
    }
  }

  lemma {:induction false} ProductStep(n: int, d: int, cost: nat)
    requires -1 <= d <= 1
    ensures d == 1 ==> Product(n + d, cost) == Product(n, cost) + cost
    ensures d == -1 ==> Product(n + d, cost) == Product(n, cost) - cost
  {
  }

  lemma {:induction false} CreditedAt(credit: map<Key, int>, m: Money, k: Key)
    ensures Get(Credited(credit, m), k) == Get(credit, k) + Delta(m, k)
  {
  }

  /** A step that runs the counter script `m` for job `j` keeps the books. */
  lemma {:induction false} MovedBalances(w: World, w': World, j: JobId, m: Money)
    requires Balanced(w) && j < |w.jobs| && |w'.jobs| == |w.jobs| && w'.jobs == w.jobs[j := w'.jobs[j]]
    requires w'.jobs[j].core.ceiling == w.jobs[j].core.ceiling && w'.jobs[j].credit == Credited(w.jobs[j].credit, m)
    requires w'.pending == PendingAfter(w.pending, m, Cost(w.jobs[j].core))
    requires w'.forgiven == ForgivenAfter(w.pending, w.forgiven, m, Cost(w.jobs[j].core))
    ensures Balanced(w')
  {
    var cost := Cost(w.jobs[j].core);
    forall k
      ensures GetNat(w'.pending, k) == CreditSum(w'.jobs, k) + GetNat(w'.forgiven, k)
    {
      CreditSumAt(w.jobs, j, w'.jobs[j], k);
      CreditedAt(w.jobs[j].credit, m, k);
      ProductStep(Credit(w.jobs[j], k), Delta(m, k), cost);
      assert GetNat(w.pending, k) == CreditSum(w.jobs, k) + GetNat(w.forgiven, k);
    }
  }

  lemma {:induction false} Recount(jobs: seq<Entry>, jobs': seq<Entry>, k: Key, k': Key)
    requires |jobs'| == |jobs| && forall i :: 0 <= i < |jobs| ==> jobs'[i] == Recounted(jobs[i], k)
    ensures CreditSum(jobs', k') == if k' == k then DbSum(jobs, k) else CreditSum(jobs, k')
    ensures DbSum(jobs', k') == DbSum(jobs, k')
    ensures UnmatchedSum(jobs', k) == 0 && HeldSum(jobs', k) == DbSum(jobs, k)
  {
    if jobs != [] {
      var n := |jobs| - 1;
      Recount(jobs[..n], jobs'[..n], k, k');
      assert jobs'[n] == Recounted(jobs[n], k);
      ProductStep(0, 1, Cost(jobs[n].core));
    }
  }

  /** A reconcile makes the counter exactly the database sum and squares its books: nothing forgiven, nothing
      unmatched, and every live job it governs held. */
  lemma {:induction false} ReconcileExact(w: World, k: Key)
    ensures var w' := Step(w, ReconcilePending(k));
            GetNat(w'.pending, k) == DbSum(w'.jobs, k) && DbSum(w'.jobs, k) == DbSum(w.jobs, k)
            && CreditSum(w'.jobs, k) == DbSum(w'.jobs, k) && HeldSum(w'.jobs, k) == DbSum(w'.jobs, k)
            && UnmatchedSum(w'.jobs, k) == 0 && GetNat(w'.forgiven, k) == 0
            && forall k' :: k' != k ==> GetNat(w'.pending, k') == GetNat(w.pending, k')
  {
    Recount(w.jobs, StepReconcile(w, k).jobs, k, k);
  }

  lemma {:induction false} ReconcileBalances(w: World, k: Key)
    requires Balanced(w)
    ensures Balanced(StepReconcile(w, k))
  {
    var w' := StepReconcile(w, k);
    forall k'
      ensures GetNat(w'.pending, k') == CreditSum(w'.jobs, k') + GetNat(w'.forgiven, k')
    {
      Recount(w.jobs, w'.jobs, k, k');
      assert GetNat(w.pending, k') == CreditSum(w.jobs, k') + GetNat(w.forgiven, k');
    }
  }

  lemma {:induction false} SameCredits(a: seq<Entry>, b: seq<Entry>, k: Key)
    requires |a| == |b| && forall i :: 0 <= i < |a| ==> a[i].credit == b[i].credit && a[i].core.ceiling == b[i].core.ceiling
    ensures CreditSum(a, k) == CreditSum(b, k)
  {
    if a != [] {
      SameCredits(a[..|a| - 1], b[..|b| - 1], k);
    }
  }

  lemma {:induction false} InsertBalances(w: World, ev: Event)
    requires Balanced(w) && ev.Insert?
    ensures Balanced(Step(w, ev))
  {
    var w' := Step(w, ev);
    if w' != w {
      forall k
        ensures GetNat(w'.pending, k) == CreditSum(w'.jobs, k) + GetNat(w'.forgiven, k)
      {
        assert w'.jobs[..|w.jobs|] == w.jobs;
        assert GetNat(w.pending, k) == CreditSum(w.jobs, k) + GetNat(w.forgiven, k);
      }
    }
  }

  /** Reads, crashes of tasks and reconciles of spend touch no job and no pending counter. */
  lemma {:induction false} ReadShape(w: World, ev: Event)
    requires ev.PollRead? || ev.CancelRead? || ev.TaskCrash? || ev.ReconcileSpend?
    ensures var w' := Step(w, ev); w'.pending == w.pending && w'.forgiven == w.forgiven && w'.jobs == w.jobs
  {
  }

  lemma {:induction false} CrashShape(w: World, j: JobId)
    ensures var w' := Step(w, SubCrash(j));
            w'.pending == w.pending && w'.forgiven == w.forgiven
            && w'.jobs == if j < |w.jobs| then w.jobs[j := w.jobs[j].(sub := Idle)] else w.jobs
  {
  }

  lemma {:induction false} QuietShape(w: World, ev: Event)
    requires ev.SubCrash? || ev.PollRead? || ev.CancelRead? || ev.TaskCrash? || ev.ReconcileSpend?
    ensures var w' := Step(w, ev);
            w'.pending == w.pending && w'.forgiven == w.forgiven && |w'.jobs| == |w.jobs|
            && (forall i :: 0 <= i < |w.jobs| ==> w'.jobs[i] == w.jobs[i] || w'.jobs[i] == w.jobs[i].(sub := Idle))
  {
    if ev.SubCrash? {
      CrashShape(w, ev.j);
    } else {
      ReadShape(w, ev);
    }
  }

  lemma {:induction false} QuietBalances(w: World, ev: Event)
    requires Balanced(w) && (ev.SubCrash? || ev.PollRead? || ev.CancelRead? || ev.TaskCrash? || ev.ReconcileSpend?)
    ensures Balanced(Step(w, ev))
  {
    var w' := Step(w, ev);
    QuietShape(w, ev);
    forall k
      ensures GetNat(w'.pending, k) == CreditSum(w'.jobs, k) + GetNat(w'.forgiven, k)
    {
      SameCredits(w.jobs, w'.jobs, k);
      assert GetNat(w.pending, k) == CreditSum(w.jobs, k) + GetNat(w.forgiven, k);
    }
  }

  lemma {:induction false} StepBalances(w: World, ev: Event)
    requires Balanced(w)
    ensures Balanced(Step(w, ev))
  {
    if ev.SubStep? {
      if ev.j < |w.jobs| {
        var e := w.jobs[ev.j];
        SubFrame(e, ev.reply, Admits(w, Cost(e.core), NextKey(e)), ev.kind, ev.now);
        ApplySubBalances(w, ev.j, SubOutcome(w, e, ev.reply, ev.kind, ev.now));
      }
    } else if ev.TaskStep? {
      if ev.t in w.tasks && w.tasks[ev.t].job < |w.jobs| {
        var j := w.tasks[ev.t].job;
        TaskFrame(w.jobs[j].core, ev.t, w.tasks[ev.t], ev.answer, ev.now);
        ApplyTaskBalances(w, ev.t, j, StepTask(w.jobs[j].core, ev.t, w.tasks[ev.t], ev.answer, ev.now));
      }
    } else if ev.Insert? {
      InsertBalances(w, ev);
    } else if ev.ReconcilePending? {
      ReconcileBalances(w, ev.k);
    } else {
      QuietBalances(w, ev);
    }
  }

  lemma {:induction false} ApplySubBalances(w: World, j: JobId, out: SubOut)
    requires Balanced(w) && j < |w.jobs| && out.core.ceiling == w.jobs[j].core.ceiling
    ensures Balanced(ApplySub(w, j, out))
  {
    MovedBalances(w, ApplySub(w, j, out), j, out.money);
  }

  lemma {:induction false} ApplyTaskBalances(w: World, t: nat, j: JobId, out: TaskOut)
    requires Balanced(w) && j < |w.jobs| && out.core.ceiling == w.jobs[j].core.ceiling
    ensures Balanced(ApplyTask(w, t, j, out))
  {
    MovedBalances(w, ApplyTask(w, t, j, out), j, out.money);
  }

  /** Conservation holds in every reachable state. */
  lemma {:induction false} RunBalances(amounts: map<Key, int>, evs: seq<Event>)
    ensures Balanced(Run(Start(amounts), evs))
    decreases |evs|
  {
    if evs != [] {
      RunBalances(amounts, evs[..|evs| - 1]);
      StepBalances(Run(Start(amounts), evs[..|evs| - 1]), evs[|evs| - 1]);
    }
  }

  // ---- what a counter covers ----

  ghost predicate CreditsCover(e: Entry) {
    forall k :: Credit(e, k) >= if k in e.held then 1 else 0
  }

  /** The keys a submitter has reserved so far and would roll back. */
  predicate SubHeld(e: Entry) {
    match e.sub
    case Reserving(n) => n < |e.core.keys| && forall i :: 0 <= i < n ==> e.core.keys[i] in e.held
    case RollingBack(at, upto, _) => at < upto <= |e.core.keys| && forall i :: at <= i < upto ==> e.core.keys[i] in e.held
    case Creating(reserved) => reserved ==> forall i :: 0 <= i < |e.core.keys| ==> e.core.keys[i] in e.held
    case _ => true
  }

  ghost predicate HeldInv(e: Entry) {
    && (e.core.row.None? ==> e.sub.Idle?)
    && (e.sub.Releasing? ==> !Live(e.core.row))
    && (Live(e.core.row) ==> CreditsCover(e) && SubHeld(e))
  }

  ghost predicate AllHeld(w: World) { forall j :: 0 <= j < |w.jobs| ==> HeldInv(w.jobs[j]) }

  lemma {:induction false} ReserveHeld(e: Entry, n: nat, reply: SubReply, admits: bool)
    requires HeldInv(e) && e.sub == Reserving(n) && n < |e.core.keys| && NoDup(e.core.keys)
    ensures HeldInv(SubEntry(e, Reserve(e, n, reply, admits)))
  {
    var b := SubEntry(e, Reserve(e, n, reply, admits));
    if Live(e.core.row) {
      forall k
        ensures Credit(b, k) >= if k in b.held then 1 else 0
      {
        CreditedAt(e.credit, Reserve(e, n, reply, admits).money, k);
        assert Credit(e, k) >= if k in e.held then 1 else 0;
      }
    }
  }

  lemma {:induction false} RollbackHeld(e: Entry, reply: SubReply)
    requires HeldInv(e) && e.sub.RollingBack? && e.sub.at < e.sub.upto <= |e.core.keys| && NoDup(e.core.keys)
    ensures HeldInv(SubEntry(e, Rollback(e, e.sub.at, e.sub.upto, e.sub.admit, reply)))
  {
    var out := Rollback(e, e.sub.at, e.sub.upto, e.sub.admit, reply);
    var b := SubEntry(e, out);
    if Live(e.core.row) {
      assert e.core.keys[e.sub.at] in e.held;
      forall k
        ensures Credit(b, k) >= if k in b.held then 1 else 0
      {
        CreditedAt(e.credit, out.money, k);
        assert Credit(e, k) >= if k in e.held then 1 else 0;
      }
    }
  }

  lemma {:induction false} QuietHeld(e: Entry, reply: SubReply, admits: bool, kind: string, now: int)
    requires HeldInv(e) && CoreOk(e.core) && !e.sub.Reserving? && !e.sub.RollingBack?
    ensures HeldInv(SubEntry(e, StepSub(e, reply, admits, kind, now)))
  {
    if e.core.row.Some? && !e.sub.Releasing? {
      var out := StepSub(e, reply, admits, kind, now);
      QuietOut(e, reply, admits, kind, now);
      SameHeld(e, SubEntry(e, out));
    }
  }

  /** Outside reserving, rolling back and releasing no counter script runs. */
  lemma {:induction false} QuietOut(e: Entry, reply: SubReply, admits: bool, kind: string, now: int)
    requires CoreOk(e.core) && !e.sub.Reserving? && !e.sub.RollingBack? && !e.sub.Releasing? && e.core.row.Some?
    ensures var out := StepSub(e, reply, admits, kind, now);
            && out.money.Same? && out.held == e.held && out.core.keys == e.core.keys
            && (Live(out.core.row) ==> Live(e.core.row))
            && (out.core.row.None? ==> out.sub.Idle?) && (out.sub.Releasing? ==> !Live(out.core.row))
            && (out.sub.Reserving? ==> out.sub.next == 0 < |e.core.keys|) && !out.sub.RollingBack?
            && (out.sub.Creating? && out.sub.reserved ==> e.sub == out.sub)
  {
  }

  lemma {:induction false} SameHeld(e: Entry, b: Entry)
    requires HeldInv(e) && b.credit == e.credit && b.held == e.held && b.core.keys == e.core.keys
    requires Live(b.core.row) ==> Live(e.core.row)
    requires (b.core.row.None? ==> b.sub.Idle?) && (b.sub.Releasing? ==> !Live(b.core.row))
    requires (b.sub.Reserving? ==> b.sub.next == 0 < |e.core.keys|) && !b.sub.RollingBack?
    requires b.sub.Creating? && b.sub.reserved ==> e.sub == b.sub
    ensures HeldInv(b)
  {
    assert CreditsCover(e) ==> CreditsCover(b);
  }

  lemma {:induction false} SubHeldKeeps(e: Entry, reply: SubReply, admits: bool, kind: string, now: int)
    requires HeldInv(e) && CoreOk(e.core)
    ensures HeldInv(SubEntry(e, StepSub(e, reply, admits, kind, now)))
  {
    if e.sub.Reserving? {
      if e.sub.next < |e.core.keys| { ReserveHeld(e, e.sub.next, reply, admits); }
    } else if e.sub.RollingBack? {
      if e.sub.at < e.sub.upto <= |e.core.keys| { RollbackHeld(e, reply); }
    } else {
      QuietHeld(e, reply, admits, kind, now);
    }
  }

  /** A task's step never touches a live job's credit, and never revives or deletes a row. */
  lemma {:induction false} TaskHeldKeeps(e: Entry, t: nat, tk: Task, answer: Reply, now: int)
    requires HeldInv(e) && CoreOk(e.core) && TaskOk(e.core, t, tk)
    ensures var out := StepTask(e.core, t, tk, answer, now);
            HeldInv(TaskEntry(e, out))
  {
    var out := StepTask(e.core, t, tk, answer, now);
    TaskKeeps(e.core, t, tk, answer, now);
    TaskFrame(e.core, t, tk, answer, now);
    var b := TaskEntry(e, out);
    if Live(b.core.row) {
      assert Live(e.core.row) && out.money.Same?;
      assert CreditsCover(e) ==> CreditsCover(b);
    }
  }

  lemma {:induction false} RecountHeld(e: Entry, k: Key)
    requires HeldInv(e)
    ensures HeldInv(Recounted(e, k))
  {
    var b := Recounted(e, k);
    if Live(e.core.row) {
      forall k'
        ensures Credit(b, k') >= if k' in b.held then 1 else 0
      {
        assert Credit(e, k') >= if k' in e.held then 1 else 0;
      }
    }
  }

  lemma {:induction false} AtHeld(w: World, w': World, j: JobId)
    requires AllHeld(w) && j < |w.jobs| && |w'.jobs| == |w.jobs| && w'.jobs == w.jobs[j := w'.jobs[j]] && HeldInv(w'.jobs[j])
    ensures AllHeld(w')
  {
    forall i | 0 <= i < |w'.jobs|
      ensures HeldInv(w'.jobs[i])
    {
      assert i != j ==> w'.jobs[i] == w.jobs[i];
    }
  }

  lemma {:induction false} ReconcileHeld(w: World, k: Key)
    requires AllHeld(w)
    ensures AllHeld(StepReconcile(w, k))
  {
    forall i | 0 <= i < |w.jobs|
      ensures HeldInv(StepReconcile(w, k).jobs[i])
    {
      RecountHeld(w.jobs[i], k);
    }
  }

  lemma {:induction false} InsertHeld(w: World, ev: Event)
    requires AllHeld(w) && ev.Insert?
    ensures AllHeld(Step(w, ev))
  {
    assert HeldInv(NewEntry(ev.job, ev.keys, ev.results));
  }

  lemma {:induction false} QuietAllHeld(w: World, ev: Event)
    requires AllHeld(w) && (ev.SubCrash? || ev.PollRead? || ev.CancelRead? || ev.TaskCrash? || ev.ReconcileSpend?)
    ensures AllHeld(Step(w, ev))
  {
    QuietShape(w, ev);
    var w' := Step(w, ev);
    forall i | 0 <= i < |w'.jobs|
      ensures HeldInv(w'.jobs[i])
    {
      CrashHeld(w.jobs[i]);
    }
  }

  lemma {:induction false} CrashHeld(e: Entry)
    requires HeldInv(e)
    ensures HeldInv(e.(sub := Idle))
  {
    assert CreditsCover(e) ==> CreditsCover(e.(sub := Idle));
  }

  lemma {:induction false} StepHeld(w: World, ev: Event)
    requires Inv(w) && AllHeld(w)
    ensures AllHeld(Step(w, ev))
  {
    if ev.SubStep? {
      if ev.j < |w.jobs| {
        var e := w.jobs[ev.j];
        SubHeldKeeps(e, ev.reply, Admits(w, Cost(e.core), NextKey(e)), ev.kind, ev.now);
        AtHeld(w, ApplySub(w, ev.j, SubOutcome(w, e, ev.reply, ev.kind, ev.now)), ev.j);
      }
    } else if ev.TaskStep? {
      if ev.t in w.tasks {
        var j := w.tasks[ev.t].job;
        TaskHeldKeeps(w.jobs[j], ev.t, w.tasks[ev.t], ev.answer, ev.now);
        AtHeld(w, ApplyTask(w, ev.t, j, StepTask(w.jobs[j].core, ev.t, w.tasks[ev.t], ev.answer, ev.now)), j);
      }
    } else if ev.Insert? {
      InsertHeld(w, ev);
    } else if ev.ReconcilePending? {
      ReconcileHeld(w, ev.k);
    } else {
      QuietAllHeld(w, ev);
    }
  }

  lemma {:induction false} RunHeld(amounts: map<Key, int>, evs: seq<Event>)
    ensures AllHeld(Run(Start(amounts), evs))
    decreases |evs|
  {
    if evs != [] {
      RunHeld(amounts, evs[..|evs| - 1]);
      RunKeeps(Start(amounts), evs[..|evs| - 1]);
      StepHeld(Run(Start(amounts), evs[..|evs| - 1]), evs[|evs| - 1]);
    }
  }

  function OneIf(b: bool): nat { if b then 1 else 0 }

  /** How often a job's ceiling is on the counter beyond once for holding it. */
  function Stray(e: Entry, k: Key): nat { NonNegative(Credit(e, k) - OneIf(Held(e, k))) }

  /** Ceilings on the counter that no live job holds there: of ended jobs not yet released, or added twice. */
  function StraySum(jobs: seq<Entry>, k: Key): int {
    if jobs == [] then 0
    else StraySum(jobs[..|jobs| - 1], k) + Product(Stray(jobs[|jobs| - 1], k), Cost(jobs[|jobs| - 1].core))
  }

  lemma {:induction false} TermSplits(e: Entry, k: Key)
    requires HeldInv(e)
    ensures Product(Credit(e, k), Cost(e.core)) + Product(NonNegative(-Credit(e, k)), Cost(e.core))
         == (if Held(e, k) then Cost(e.core) else 0) + Product(Stray(e, k), Cost(e.core))
    ensures Product(Stray(e, k), Cost(e.core)) >= 0
  {
    var n, cost := Credit(e, k), Cost(e.core);
    assert Held(e, k) ==> n >= 1;
    Negated(n, cost);
    if Held(e, k) {
      ProductStep(n, -1, cost);
    }
    assert Stray(e, k) * cost >= 0;
  }

  lemma {:induction false} Negated(n: int, cost: nat)
    ensures Product(n, cost) + Product(-n, cost) == 0 && Product(0, cost) == 0
  {
  }

  lemma {:induction false} SumSplits(jobs: seq<Entry>, k: Key)
    requires forall j :: 0 <= j < |jobs| ==> HeldInv(jobs[j])
    ensures CreditSum(jobs, k) + UnmatchedSum(jobs, k) == HeldSum(jobs, k) + StraySum(jobs, k) && StraySum(jobs, k) >= 0
  {
    if jobs != [] {
      SumSplits(jobs[..|jobs| - 1], k);
      TermSplits(jobs[|jobs| - 1], k);
    }
  }

  /** In every interleaving a counter is exactly the ceilings live jobs hold on it, plus those nobody holds any more, plus
      what the floor forgave, minus what was released since its last reconcile without a matching add or count - so it
      undercounts the live jobs if and only if the unmatched releases exceed the rest. */
  lemma {:induction false} PendingExact(amounts: map<Key, int>, evs: seq<Event>, k: Key)
    ensures var w := Run(Start(amounts), evs);
            && GetNat(w.pending, k) + UnmatchedSum(w.jobs, k) == HeldSum(w.jobs, k) + StraySum(w.jobs, k) + GetNat(w.forgiven, k)
            && (GetNat(w.pending, k) < HeldSum(w.jobs, k) <==> UnmatchedSum(w.jobs, k) > StraySum(w.jobs, k) + GetNat(w.forgiven, k))
            && StraySum(w.jobs, k) >= 0
  {
    var w := Run(Start(amounts), evs);
    RunBalances(amounts, evs);
    RunHeld(amounts, evs);
    SumSplits(w.jobs, k);
    assert GetNat(w.pending, k) == CreditSum(w.jobs, k) + GetNat(w.forgiven, k);
  }

  /** In every interleaving a counter is at least the ceilings of the live jobs reserved on it or counted by its
      last reconcile, minus the ceilings released since then without a matching add or count. */
  lemma {:induction false} PendingCoversLive(amounts: map<Key, int>, evs: seq<Event>, k: Key)
    ensures var w := Run(Start(amounts), evs);
            GetNat(w.pending, k) + UnmatchedSum(w.jobs, k) >= HeldSum(w.jobs, k)
  {
    PendingExact(amounts, evs, k);
  }

  /** So an admission never commits more than the budget, up to those unmatched releases: recorded spend, the
      ceilings already held and the new one fit the amount. */
  lemma {:induction false} AdmissionWithinBudget(amounts: map<Key, int>, evs: seq<Event>, j: JobId, k: Key)
    requires var w := Run(Start(amounts), evs);
             j < |w.jobs| && w.jobs[j].sub.Reserving? && k == NextKey(w.jobs[j]) && Admits(w, Cost(w.jobs[j].core), k)
    ensures var w := Run(Start(amounts), evs);
            Get(w.spend, k) + HeldSum(w.jobs, k) + Cost(w.jobs[j].core) <= Get(w.amounts, k) + UnmatchedSum(w.jobs, k)
  {
    PendingCoversLive(amounts, evs, k);
  }

  /** A live job stops being held on a counter only by its own rollback of that counter. */
  lemma {:induction false} HeldUntilRollback(w: World, ev: Event, j: JobId, k: Key)
    requires Inv(w) && j < |w.jobs| && Held(w.jobs[j], k) && k in w.jobs[j].core.keys
    requires Live(Step(w, ev).jobs[j].core.row)
    ensures Held(Step(w, ev).jobs[j], k)
         || (ev.SubStep? && ev.j == j && w.jobs[j].sub.RollingBack?
             && w.jobs[j].sub.at < |w.jobs[j].core.keys| && w.jobs[j].core.keys[w.jobs[j].sub.at] == k)
  {
    if ev.SubStep? && ev.j == j {
      SubHolds(w.jobs[j], ev.reply, Admits(w, Cost(w.jobs[j].core), NextKey(w.jobs[j])), ev.kind, ev.now, k);
    } else if ev.TaskStep? && ev.t in w.tasks && w.tasks[ev.t].job == j {
      assert ApplyTask(w, ev.t, j, StepTask(w.jobs[j].core, ev.t, w.tasks[ev.t], ev.answer, ev.now)).jobs[j].held == w.jobs[j].held;
    } else if ev.SubStep? || (ev.TaskStep? && ev.t in w.tasks) {
      OtherJob(w, ev, j);
    } else if !ev.Insert? && !ev.ReconcilePending? && !ev.TaskStep? {
      QuietShape(w, ev);
    }
  }

  lemma {:induction false} SubHolds(e: Entry, reply: SubReply, admits: bool, kind: string, now: int, k: Key)
    requires k in e.held
    ensures k in StepSub(e, reply, admits, kind, now).held
         || (e.sub.RollingBack? && e.sub.at < |e.core.keys| && e.core.keys[e.sub.at] == k)
  {
  }
}
