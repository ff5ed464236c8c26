/** Runs that leave the orderly ones, and exactly what goes wrong in them. */
module BatchRaces {
  import opened Options
  import opened ItemTotals
  import opened BatchJobs
  import opened BatchProtocol
  import opened BatchSafety
  import opened BatchMoney

  const K := "k"
  const AMOUNTS := map[K := 10]

  ghost predicate Reachable(w: World) { exists evs :: Run(Start(AMOUNTS), evs) == w }

  lemma {:induction false} Next(w: World, ev: Event)
    requires Reachable(w)
    ensures Reachable(Step(w, ev))
  {
    var evs :| Run(Start(AMOUNTS), evs) == w;
    assert (evs + [ev])[..|evs|] == evs;
    assert Run(Start(AMOUNTS), evs + [ev]) == Step(w, ev);
  }

  lemma {:induction false} Initially() returns (w: World)
    ensures Reachable(w) && w == Start(AMOUNTS)
  {
    w := Start(AMOUNTS);
    assert Run(Start(AMOUNTS), []) == w;
  }

  lemma {:induction false} ReachableInv(w: World)
    requires Reachable(w)
    ensures Inv(w)
  {
    var evs :| Run(Start(AMOUNTS), evs) == w;
    RunKeeps(Start(AMOUNTS), evs);
  }

  const FRESH := Job("owner", "agent", 0, 1, Some(5), Submitting, None, 0, 0, false, None, None, None, None)

  lemma {:induction false} Inserted(w: World, keys: seq<Key>) returns (w': World)
    requires Reachable(w) && NoDup(keys)
    ensures Reachable(w') && w' == w.(jobs := w.jobs + [NewEntry(FRESH, keys, map[])])
  {
    Next(w, Insert(FRESH, keys, map[]));
    w' := Step(w, Insert(FRESH, keys, map[]));
  }

  lemma {:induction false} SubStepped(w: World, j: JobId, reply: SubReply, now: int) returns (w': World, out: SubOut)
    requires Reachable(w) && j < |w.jobs|
    ensures Reachable(w') && out == SubOutcome(w, w.jobs[j], reply, "auth", now) && w' == ApplySub(w, j, out)
  {
    Next(w, SubStep(j, reply, "auth", now));
    out := SubOutcome(w, w.jobs[j], reply, "auth", now);
    w' := ApplySub(w, j, out);
  }

  lemma {:induction false} TaskStepped(w: World, t: nat, answer: Reply, now: int) returns (w': World, out: TaskOut)
    requires Reachable(w) && t in w.tasks && w.tasks[t].job < |w.jobs|
    ensures out == StepTask(w.jobs[w.tasks[t].job].core, t, w.tasks[t], answer, now)
    ensures Reachable(w') && w' == ApplyTask(w, t, w.tasks[t].job, out)
  {
    Next(w, TaskStep(t, answer, now));
    out := StepTask(w.jobs[w.tasks[t].job].core, t, w.tasks[t], answer, now);
    w' := ApplyTask(w, t, w.tasks[t].job, out);
  }

  lemma {:induction false} Polled(w: World, t: nat, j: JobId) returns (w': World)
    requires Reachable(w) && j < |w.jobs| && t !in w.tasks && Live(w.jobs[j].core.row)
    ensures Reachable(w') && w' == w.(tasks := w.tasks[t := Advance(j, w.jobs[j].core.row.value)])
  {
    Next(w, PollRead(t, j));
    w' := Step(w, PollRead(t, j));
  }

  // ---- one step at a time ----

  function WithSub(w: World, j: JobId, s: Submitter): World
    requires j < |w.jobs|
  {
    w.(jobs := w.jobs[j := w.jobs[j].(sub := s)])
  }

  function WithTask(w: World, t: nat, tk: Task): World { w.(tasks := w.tasks[t := tk]) }

  /** The budgets are read: the job's counters are to be reserved. */
  lemma {:induction false} Checks(w: World, j: JobId) returns (w': World)
    requires Reachable(w) && j < |w.jobs| && w.jobs[j].sub.Checking? && w.jobs[j].core.keys != [] && w.jobs[j].core.ceiling.Some?
    ensures Reachable(w') && w' == WithSub(w, j, Reserving(0))
  {
    var w1, out := SubStepped(w, j, Done, 0);
    assert out == At(w.jobs[j], Reserving(0));
    w' := w1;
  }

  /** The only counter is reserved. */
  lemma {:induction false} Reserves(w: World, j: JobId) returns (w': World)
    requires Reachable(w) && j < |w.jobs| && w.jobs[j].sub == Reserving(0) && w.jobs[j].core.keys == [K] && Cost(w.jobs[j].core) == 5
    requires Admits(w, 5, K)
    ensures Reachable(w') && |w'.jobs| == |w.jobs| && w'.jobs == w.jobs[j := w'.jobs[j]] && w' == w.(jobs := w'.jobs, pending := w'.pending)
    ensures w'.jobs[j].core == w.jobs[j].core && w'.jobs[j].sub == Creating(true) && K in w'.jobs[j].held
    ensures GetNat(w'.pending, K) == GetNat(w.pending, K) + 5
  {
    var w1, out := SubStepped(w, j, Done, 0);
    assert out == SubOut(w.jobs[j].core, Creating(true), w.jobs[j].held + {K}, Adds(K));
    w' := w1;
  }

  /** The upstream's definitive rejection arrives. */
  lemma {:induction false} Refusal(w: World, j: JobId) returns (w': World)
    requires Reachable(w) && j < |w.jobs| && w.jobs[j].sub == Creating(true)
    ensures Reachable(w') && w' == WithSub(w, j, Rejected(true))
  {
    var w1, out := SubStepped(w, j, Refused, 2);
    assert out == At(w.jobs[j], Rejected(true));
    w' := w1;
  }

  /** The submitter's `fail` matches nothing, and it goes on to release. */
  lemma {:induction false} FailMisses(w: World, j: JobId) returns (w': World)
    requires Reachable(w) && j < |w.jobs| && w.jobs[j].sub == Rejected(true) && Terminal(w.jobs[j].core.row)
    requires w.jobs[j].core.keys == [K] && Cost(w.jobs[j].core) == 5
    ensures Reachable(w') && w' == WithSub(w, j, Releasing(0))
  {
    var w1, out := SubStepped(w, j, Done, 2);
    assert out == At(w.jobs[j], Releasing(0));
    w' := w1;
  }

  /** Off the counter: 5, floored at zero. */
  predicate Dropped(w: World, w': World, j: JobId) {
    && |w'.jobs| == |w.jobs| && j < |w.jobs| && w'.jobs == w.jobs[j := w'.jobs[j]]
    && GetNat(w'.pending, K) == if GetNat(w.pending, K) < 5 then 0 else GetNat(w.pending, K) - 5
  }

  lemma {:induction false} GivesBack(w: World, j: JobId) returns (w': World)
    requires Reachable(w) && j < |w.jobs| && w.jobs[j].sub == Releasing(0) && w.jobs[j].core.keys == [K] && Cost(w.jobs[j].core) == 5
    ensures Reachable(w') && Dropped(w, w', j) && w'.jobs[j].core == w.jobs[j].core
  {
    var w1, out := SubStepped(w, j, Done, 3);
    assert out.money == Releases(K) && out.core == w.jobs[j].core;
    w' := w1;
  }

  function ProviderMissing(j: JobId): Task { FinishEmpty(j, Failed, Some("provider_missing")) }

  /** An advance reads the job and finds its provider gone. */
  lemma {:induction false} ProviderGone(w: World, t: nat, j: JobId) returns (w': World)
    requires Reachable(w) && t !in w.tasks && j < |w.jobs| && Live(w.jobs[j].core.row)
    ensures Reachable(w') && w' == WithTask(w, t, ProviderMissing(j))
  {
    var w1 := Polled(w, t, j);
    var w2, out2 := TaskStepped(w1, t, Gone, 0);
    assert out2 == TaskOut(w.jobs[j].core, Some(ProviderMissing(j)), Same);
    assert w2.jobs == w.jobs;
    w' := w2;
  }

  /** That advance fails the job. */
  lemma {:induction false} Fails(w: World, t: nat, j: JobId) returns (w': World)
    requires Reachable(w) && t in w.tasks && w.tasks[t] == ProviderMissing(j) && j < |w.jobs|
    requires w.jobs[j].core == NewEntry(FRESH, [K], map[]).core
    ensures Reachable(w') && |w'.jobs| == |w.jobs| && w'.jobs == w.jobs[j := w.jobs[j].(core := w'.jobs[j].core)]
    ensures w' == WithTask(w, t, FinReleasing(j, 0)).(jobs := w'.jobs)
    ensures var c := w'.jobs[j].core; Terminal(c.row) && c.keys == [K] && c.ceiling == Some(5)
  {
    var w1, out := TaskStepped(w, t, Ok, 1);
    assert out.next == Some(FinReleasing(j, 0)) && Terminal(out.core.row) && out.money == Same;
    assert out.core.keys == [K] && out.core.ceiling == Some(5);
    w' := w1;
  }

  /** And releases its counter. */
  lemma {:induction false} FinishReleases(w: World, t: nat, j: JobId) returns (w': World)
    requires Reachable(w) && t in w.tasks && w.tasks[t] == FinReleasing(j, 0) && j < |w.jobs|
    requires w.jobs[j].core.keys == [K] && Cost(w.jobs[j].core) == 5
    ensures Reachable(w') && Dropped(w, w', j)
    ensures var a, b := w.jobs[j], w'.jobs[j];
            b.sub == a.sub && b.core.row == a.core.row && b.core.keys == a.core.keys && b.core.ceiling == a.core.ceiling
  {
    var w1, out := TaskStepped(w, t, Ok, 1);
    assert out.money == Releases(K) && out.core.row == w.jobs[j].core.row;
    w' := w1;
  }

  /** An advance finds the job's provider gone and fails it. */
  lemma {:induction false} FailedByPoller(w: World, t: nat, j: JobId) returns (w': World)
    requires Reachable(w) && t !in w.tasks && j < |w.jobs| && w.jobs[j].core == NewEntry(FRESH, [K], map[]).core
    ensures Reachable(w') && |w'.jobs| == |w.jobs| && w'.jobs == w.jobs[j := w.jobs[j].(core := w'.jobs[j].core)]
    ensures w' == WithTask(w, t, FinReleasing(j, 0)).(jobs := w'.jobs)
    ensures var c := w'.jobs[j].core; Terminal(c.row) && c.keys == [K] && c.ceiling == Some(5)
  {
    var w1 := ProviderGone(w, t, j);
    assert w1.jobs == w.jobs && w1.tasks[t] == ProviderMissing(j);
    w' := Fails(w1, t, j);
    assert w1.tasks[t := FinReleasing(j, 0)] == w.tasks[t := FinReleasing(j, 0)];
  }

  /** And releases its counter. */
  lemma {:induction false} EndedByPoller(w: World, t: nat, j: JobId) returns (w': World)
    requires Reachable(w) && t !in w.tasks && j < |w.jobs| && w.jobs[j].core == NewEntry(FRESH, [K], map[]).core
    ensures Reachable(w') && Dropped(w, w', j) && w'.jobs[j].sub == w.jobs[j].sub
    ensures var c := w'.jobs[j].core; Terminal(c.row) && c.keys == [K] && c.ceiling == Some(5)
  {
    var w1 := FailedByPoller(w, t, j);
    w' := FinishReleases(w1, t, j);
  }

  /** The upstream rejects a job that has already ended: its submitter releases all the same. */
  lemma {:induction false} LateRejection(w: World, j: JobId) returns (w': World)
    requires Reachable(w) && j < |w.jobs| && w.jobs[j].sub == Creating(true)
    requires var c := w.jobs[j].core; Terminal(c.row) && c.keys == [K] && c.ceiling == Some(5)
    ensures Reachable(w') && Dropped(w, w', j) && w'.jobs[j].core == w.jobs[j].core
  {
    var w1 := Refusal(w, j);
    var w2 := FailMisses(w1, j);
    w' := GivesBack(w2, j);
  }

  // ---- a counter below what live jobs hold ----

  /** A new job, reserved on the counter and about to be created upstream. */
  lemma {:induction false} ReservedOnK(w: World) returns (w': World)
    requires Reachable(w) && w.amounts == AMOUNTS && w.spend == map[] && GetNat(w.pending, K) <= 5
    ensures Reachable(w') && |w'.jobs| == |w.jobs| + 1 && w'.jobs[..|w.jobs|] == w.jobs && w'.tasks == w.tasks
    ensures w'.amounts == AMOUNTS && w'.spend == map[] && GetNat(w'.pending, K) == GetNat(w.pending, K) + 5
    ensures HoldsFive(w'.jobs[|w.jobs|]) && w'.jobs[|w.jobs|].sub == Creating(true)
  {
    var j := |w.jobs|;
    var w1 := Inserted(w, [K]);
    var w2 := Checks(w1, j);
    assert Admits(w2, 5, K);
    w' := Reserves(w2, j);
  }

  /** A live job that holds its ceiling of 5 on the counter. */
  predicate HoldsFive(e: Entry) { e.core == NewEntry(FRESH, [K], map[]).core && K in e.held }

  /** Of two jobs only one holds its 5. */
  lemma {:induction false} OneHolds(jobs: seq<Entry>, j: JobId)
    requires |jobs| == 2 && j < 2 && HoldsFive(jobs[j]) && Terminal(jobs[1 - j].core.row)
    ensures HeldSum(jobs, K) == 5 && DbSum(jobs, K) == 5
  {
    var first, none := jobs[..1], jobs[..1][..0];
    assert first[0] == jobs[0] && none == [] && |first| == 1;
    assert HeldSum(none, K) == 0 && DbSum(none, K) == 0;
    assert HeldSum(first, K) == (if j == 0 then 5 else 0) && DbSum(first, K) == (if j == 0 then 5 else 0);
  }

  ghost predicate Undercounted(w: World) { Reachable(w) && GetNat(w.pending, K) == 0 && HeldSum(w.jobs, K) == 5 && DbSum(w.jobs, K) == 5 }

  /** Two jobs hold 5 each on one counter. */
  lemma {:induction false} TwoHold() returns (w: World)
    ensures Reachable(w) && |w.jobs| == 2 && HoldsFive(w.jobs[0]) && HoldsFive(w.jobs[1]) && w.tasks == map[]
    ensures w.jobs[0].sub == Creating(true) && GetNat(w.pending, K) == 10
  {
    var w0 := Initially();
    var w1 := ReservedOnK(w0);
    w := ReservedOnK(w1);
    assert w.jobs[0] == w.jobs[..1][0] == w1.jobs[0];
  }

  /** Released twice: the first job is failed by the poller while its create is in flight and then rejected by the
      upstream; its submitter's `fail` matches nothing, and it releases what the finish had released. */
  lemma {:induction false} DoubleReleaseUndercounts()
    ensures exists w :: Undercounted(w)
  {
    var w2 := TwoHold();
    var w3 := EndedByPoller(w2, 7, 0);
    var w4 := LateRejection(w3, 0);
    OneHolds(w4.jobs, 1);
    assert Undercounted(w4);
  }

  /** Released before it was reserved: the second job's provider is gone while its submitter still reads the budgets. */
  lemma {:induction false} EarlyFinishUndercounts()
    ensures exists w :: Undercounted(w)
  {
    var w0 := Initially();
    var w1 := ReservedOnK(w0);
    var w2 := Inserted(w1, [K]);
    assert w2.jobs[0] == w1.jobs[0] && w2.jobs[1].core == NewEntry(FRESH, [K], map[]).core;
    var w3 := EndedByPoller(w2, 7, 1);
    OneHolds(w3.jobs, 0);
    assert Undercounted(w3);
  }

  lemma {:induction false} Reconciles(w: World) returns (w': World)
    requires Reachable(w) && |w.jobs| == 2 && HoldsFive(w.jobs[1]) && Terminal(w.jobs[0].core.row)
    ensures Reachable(w') && |w'.jobs| == 2 && w'.tasks == w.tasks && GetNat(w'.pending, K) == 5
    ensures HoldsFive(w'.jobs[1]) && w'.jobs[0].core == w.jobs[0].core
  {
    OneHolds(w.jobs, 1);
    Next(w, ReconcilePending(K));
    w' := StepReconcile(w, K);
  }

  /** Released after it was discounted: a reconcile falls between the first job's settle and its release. */
  lemma {:induction false} LateReleaseUndercounts()
    ensures exists w :: Undercounted(w)
  {
    var w2 := TwoHold();
    var w4 := FailedByPoller(w2, 7, 0);
    var w5 := Reconciles(w4);
    var w6 := FinishReleases(w5, 7, 0);
    OneHolds(w6.jobs, 1);
    assert Undercounted(w6);
  }

  // ---- a denied job that stays ----

  const FULL := "full"

  /** A counter without any budget left denies the job. */
  lemma {:induction false} Denied(w: World, j: JobId) returns (w': World)
    requires Reachable(w) && j < |w.jobs| && w.jobs[j].sub == Reserving(0) && w.jobs[j].core.keys == [FULL]
    requires !Admits(w, Cost(w.jobs[j].core), FULL)
    ensures Reachable(w') && w' == WithSub(w, j, Discarding)
  {
    var w1, out := SubStepped(w, j, Done, 0);
    assert out == At(w.jobs[j], Discarding);
    w' := w1;
  }

  lemma {:induction false} DiscardMisses(w: World, j: JobId) returns (w': World)
    requires Reachable(w) && j < |w.jobs| && w.jobs[j].sub == Discarding && w.jobs[j].core.row == Some(UNKNOWN_ROW)
    ensures Reachable(w') && w' == WithSub(w, j, Idle)
  {
    var w1, out := SubStepped(w, j, Done, 0);
    assert out == At(w.jobs[j], Idle);
    w' := w1;
  }

  /** A job on the full counter is turned away; its row is about to be taken back. */
  lemma {:induction false} TurnedAway() returns (w: World)
    ensures Reachable(w) && w.tasks == map[] && w.pending == map[] && |w.jobs| == 1
    ensures w.jobs[0] == NewEntry(FRESH, [FULL], map[]).(sub := Discarding)
  {
    var w0 := Initially();
    var w1 := Inserted(w0, [FULL]);
    var w2 := Checks(w1, 0);
    assert FULL[0] != K[0];
    w := Denied(w2, 0);
  }

  /** A job is turned away, but its row cannot be taken back: while the submitter was reserving, the poller had moved it to
      `submission_unknown`. The row is left live, and reconciles count a ceiling that was never reserved, until a finish
      ends it. */
  lemma {:induction false} DeniedStaysLive()
    ensures exists w :: Reachable(w) && |w.jobs| == 1 && w.jobs[0].sub.Idle? && Live(w.jobs[0].core.row) && w.jobs[0].held == {}
                        && GetNat(w.pending, FULL) == 0 && DbSum(w.jobs, FULL) == 5
  {
    var w3 := TurnedAway();
    var w4 := ToUnknown(w3);
    var w5 := DiscardMisses(w4, 0);
    assert w5.jobs[..0] == [] && DbSum(w5.jobs[..0], FULL) == 0;
  }

  // ---- adoption ----

  /** Adopting a live job succeeds if and only if the upstream lists it with a non-terminal or unmapped status:
      a terminal one fails the table's CHECK, and the job stays as it was. */
  lemma {:induction false} AdoptsIff(row: Job, id: string, listed: Option<UpstreamStatus>)
    requires RowOk(row) && !IsTerminal(row.status)
    ensures UpdateRow(Some(row), AdoptPatch(id, listed), None).Written? <==> (listed.Some? ==> !IsTerminal(listed.value))
    ensures listed.Some? && IsTerminal(listed.value) ==> After(Some(row), UpdateRow(Some(row), AdoptPatch(id, listed), None)) == Some(row)
  {
  }

  const UNKNOWN_ROW := FRESH.(status := SubmissionUnknown, stalledSince := Some(0))

  /** The submit has taken longer than its grace. */
  lemma {:induction false} Overdue(w: World) returns (w': World)
    requires Reachable(w) && |w.jobs| == 1 && w.tasks == map[0 := Advance(0, FRESH)]
    ensures Reachable(w') && w' == w.(tasks := map[0 := MarkUnknown(0)])
  {
    var w1, out := TaskStepped(w, 0, Ok, 0);
    assert out == TaskOut(w.jobs[0].core, Some(MarkUnknown(0)), Same);
    assert w1.jobs == w.jobs;
    w' := w1;
  }

  lemma {:induction false} MarkedUnknown(w: World) returns (w': World)
    requires Reachable(w) && |w.jobs| == 1 && w.tasks == map[0 := MarkUnknown(0)] && w.jobs[0].core.row == Some(FRESH)
    ensures Reachable(w') && w' == w.(jobs := [w.jobs[0].(core := w.jobs[0].core.(row := Some(UNKNOWN_ROW)))], tasks := map[])
  {
    var w1, out := TaskStepped(w, 0, Ok, 0);
    assert out == TaskOut(w.jobs[0].core.(row := Some(UNKNOWN_ROW)), None, Same);
    assert w1.jobs == [w1.jobs[0]] && w1.tasks == map[];
    w' := w1;
  }

  lemma {:induction false} ToUnknown(w: World) returns (w': World)
    requires Reachable(w) && w.tasks == map[] && |w.jobs| == 1 && w.jobs[0].core.row == Some(FRESH)
    ensures Reachable(w') && w' == w.(jobs := [w.jobs[0].(core := w.jobs[0].core.(row := Some(UNKNOWN_ROW)))])
  {
    var w1 := Polled(w, 0, 0);
    var w2 := Overdue(w1);
    w' := MarkedUnknown(w2);
    assert w'.tasks == w.tasks;
  }

  /** An advance reads the unresolved job and asks the upstream to list it. */
  lemma {:induction false} AsksListing(w: World, t: nat) returns (w': World)
    requires Reachable(w) && t !in w.tasks && |w.jobs| == 1 && w.jobs[0].core.row == Some(UNKNOWN_ROW)
    ensures Reachable(w') && |w'.jobs| == 1 && w'.jobs[0].core == w.jobs[0].core && w'.tasks == w.tasks[t := Listing(0, UNKNOWN_ROW)]
  {
    var w1 := Polled(w, t, 0);
    var w2, out2 := TaskStepped(w1, t, Ok, 0);
    assert out2 == TaskOut(w.jobs[0].core, Some(Listing(0, UNKNOWN_ROW)), Same);
    w' := w2;
  }

  lemma {:induction false} FoundCompleted(w: World, t: nat) returns (w': World)
    requires Reachable(w) && |w.jobs| == 1 && t in w.tasks && w.tasks[t] == Listing(0, UNKNOWN_ROW)
    ensures Reachable(w') && w' == WithTask(w, t, Adopting(0, "u", Some(Completed)))
  {
    var w1, out := TaskStepped(w, t, Found("u", Some(Completed)), 0);
    assert out == TaskOut(w.jobs[0].core, Some(Adopting(0, "u", Some(Completed))), Same);
    assert w1.jobs == w.jobs;
    w' := w1;
  }

  lemma {:induction false} NeverListed(w: World, t: nat) returns (w': World)
    requires Reachable(w) && |w.jobs| == 1 && t in w.tasks && w.tasks[t] == Listing(0, UNKNOWN_ROW)
    ensures Reachable(w') && w' == WithTask(w, t, FinishEmpty(0, Failed, Some("submit_unresolved")))
  {
    var w1, out := TaskStepped(w, t, Absent(true), 5);
    assert out == TaskOut(w.jobs[0].core, Some(FinishEmpty(0, Failed, Some("submit_unresolved"))), Same);
    assert w1.jobs == w.jobs;
    w' := w1;
  }

  lemma {:induction false} Unresolved(w: World, t: nat) returns (w': World)
    requires Reachable(w) && |w.jobs| == 1 && w.jobs[0].core.row == Some(UNKNOWN_ROW)
    requires t in w.tasks && w.tasks[t] == FinishEmpty(0, Failed, Some("submit_unresolved"))
    ensures Reachable(w') && |w'.jobs| == 1 && forall u :: u != t && u in w.tasks ==> u in w'.tasks && w'.tasks[u] == w.tasks[u]
    ensures w'.jobs[0].core.row.Some? && w'.jobs[0].core.row.value.status == Failed
  {
    var w1, out := TaskStepped(w, t, Ok, 6);
    assert out.core.row.Some? && out.core.row.value.status == Failed;
    w' := w1;
  }

  /** The listing's answer, and for an absence past the window the finish that follows it. */
  lemma {:induction false} Listed(w: World) returns (w': World)
    requires Reachable(w) && |w.jobs| == 1 && w.jobs[0].core.row == Some(UNKNOWN_ROW)
    requires w.tasks == map[1 := Listing(0, UNKNOWN_ROW), 2 := Listing(0, UNKNOWN_ROW)]
    ensures Reachable(w') && |w'.jobs| == 1 && 2 in w'.tasks && w'.tasks[2] == Adopting(0, "u", Some(Completed))
    ensures w'.jobs[0].core.row.Some? && w'.jobs[0].core.row.value.status == Failed
  {
    var w1 := FoundCompleted(w, 2);
    var w2 := NeverListed(w1, 1);
    w' := Unresolved(w2, 1);
  }

  /** Two advances have asked for the listing of one unresolved job. */
  lemma {:induction false} AskedTwice() returns (w: World)
    ensures Reachable(w) && |w.jobs| == 1 && w.jobs[0].core.row == Some(UNKNOWN_ROW)
    ensures w.tasks == map[1 := Listing(0, UNKNOWN_ROW), 2 := Listing(0, UNKNOWN_ROW)]
  {
    var w0 := Initially();
    var w1 := Inserted(w0, []);
    var w2 := ToUnknown(w1);
    var w3 := AsksListing(w2, 1);
    w := AsksListing(w3, 2);
  }

  /** Without an honest upstream a terminal status can be rewritten: a job is failed as unresolved while another
      advance, on an older snapshot, has just been told that the upstream completed it. */
  lemma {:induction false} StatusRewritten()
    ensures exists w, ev :: Reachable(w) && Inv(w) && |w.jobs| == 1 && Terminal(w.jobs[0].core.row) && Rewrites(w, ev, 0)
  {
    var asked := AskedTwice();
    var w := Listed(asked);
    ReachableInv(w);
    assert Rewrites(w, TaskStep(2, Ok, 7), 0);
  }

  // ---- recorded, and stored as nothing ----

  const ONE := map["a" := ItemRow(true, 7)]
  const RUNNING := FRESH.(status := InProgress, upstreamId := Some("u"))
  const HELD := RUNNING.(status := Finalizing)

  /** The only job and the only task. */
  ghost predicate Solo(w: World, c: Core, tk: Task) {
    Reachable(w) && |w.jobs| == 1 && w.jobs[0].core == c && w.tasks == map[1 := tk] && tk.job == 0
  }

  lemma {:induction false} SoloStep(w: World, c: Core, tk: Task, answer: Reply, b: Core, next: Task) returns (w': World)
    requires Solo(w, c, tk) && StepTask(c, 1, tk, answer, 9) == TaskOut(b, Some(next), Same) && next.job == 0
    ensures Solo(w', b, next)
  {
    var w1, out := TaskStepped(w, 1, answer, 9);
    assert w1.tasks == map[1 := next];
    w' := w1;
  }

  function Running(row: Job, ledger: map<CustomId, ItemRow>): Core { NewEntry(FRESH, [], ONE).core.(row := Some(row), ledger := ledger) }

  /** The only job, and no task. */
  ghost predicate Alone(w: World, s: Submitter) {
    Reachable(w) && w.tasks == map[] && |w.jobs| == 1 && w.jobs[0].core == NewEntry(FRESH, [], ONE).core && w.jobs[0].sub == s
  }

  lemma {:induction false} InsertsOne() returns (w: World)
    ensures Alone(w, Checking)
  {
    var w0 := Initially();
    Next(w0, Insert(FRESH, [], ONE));
    w := Step(w0, Insert(FRESH, [], ONE));
    assert w.jobs == [NewEntry(FRESH, [], ONE)];
  }

  lemma {:induction false} SubmitStep(w: World, s: Submitter, reply: SubReply, next: Submitter) returns (w': World)
    requires Alone(w, s) && SubOutcome(w, w.jobs[0], reply, "auth", 0) == At(w.jobs[0], next)
    ensures Alone(w', next)
  {
    var w1, out := SubStepped(w, 0, reply, 0);
    w' := w1;
  }

  lemma {:induction false} Creates() returns (w: World)
    ensures Alone(w, Persisting("u", Some(InProgress)))
  {
    var w1 := InsertsOne();
    var w2 := SubmitStep(w1, Checking, Done, Creating(false));
    w := SubmitStep(w2, Creating(false), SubReply.Accepted("u", Some(InProgress)), Persisting("u", Some(InProgress)));
  }

  /** A running job, polled. */
  lemma {:induction false} PolledRunning() returns (w: World)
    ensures Solo(w, Running(RUNNING, map[]), Advance(0, RUNNING))
  {
    var w1 := Creates();
    var w2, out2 := SubStepped(w1, 0, Done, 0);
    assert out2.core == Running(RUNNING, map[]) && out2.money == Same;
    w := Polled(w2, 1, 0);
  }

  /** The upstream has completed it: it is held. */
  lemma {:induction false} HeldFinalizing() returns (w: World)
    ensures Solo(w, Running(HELD, map[]), Settling(0, HELD, Completed, {}))
  {
    var w1 := PolledRunning();
    var w2 := SoloStep(w1, Running(RUNNING, map[]), Advance(0, RUNNING), Ok, Running(RUNNING, map[]), Probing(0, RUNNING));
    var w3 := SoloStep(w2, Running(RUNNING, map[]), Probing(0, RUNNING), Viewed(Some(Completed), None),
                       Running(RUNNING, map[]), Holding(0, RUNNING, Completed));
    w := SoloStep(w3, Running(RUNNING, map[]), Holding(0, RUNNING, Completed), Ok, Running(HELD, map[]), Settling(0, HELD, Completed, {}));
  }

  /** Its one row is recorded, and then the results are gone. */
  lemma {:induction false} GoneAfterRecording() returns (w: World)
    ensures Solo(w, Running(HELD, ONE), FinishEmpty(0, Completed, None))
  {
    var w1 := HeldFinalizing();
    assert Restrict(ONE, {"a"}) == ONE && ONE + map[] == ONE && {} + ONE.Keys == ONE.Keys;
    var w2 := SoloStep(w1, Running(HELD, map[]), Settling(0, HELD, Completed, {}), Flushed({"a"}), Running(HELD, ONE), Settling(0, HELD, Completed, ONE.Keys));
    w := SoloStep(w2, Running(HELD, ONE), Settling(0, HELD, Completed, ONE.Keys), ResultsGone, Running(HELD, ONE), FinishEmpty(0, Completed, None));
  }

  /** A job that is completed with a row in the ledger and zero counts and cost on its own row: its results went away
      after a part of them was recorded. */
  lemma {:induction false} RecordedAsNothing()
    ensures exists w :: Reachable(w) && |w.jobs| == 1 && w.jobs[0].core.ledger == ONE && w.jobs[0].core.row.Some?
                        && w.jobs[0].core.row.value.status.Completed? && Stored(w.jobs[0].core.row.value) == ZERO
  {
    var w1 := GoneAfterRecording();
    var w2, out := TaskStepped(w1, 1, Ok, 9);
    assert out.core.ledger == ONE && out.core.row == Some(SettledRow(HELD, SettlementOf(Completed, None, ZERO, 9)));
  }
}
