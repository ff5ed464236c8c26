/** A sequential advance, and a whole sweep, as runs of the protocol from any of its states. */
module BatchSweeps {
  import opened Options
  import opened BatchJobs
  import opened SpendCounters
  import opened BatchProtocol
  import Counters = BatchCounters
  import Poller = BatchPoller
  import Refinement = BatchRefinement
  import Safety = BatchSafety
  import Settlements = BatchSettlement

  // ---- one task's steps in the whole system ----

  /** The task is at this job, and the store shows the counters. */
  ghost predicate At(w: World, t: nat, j: JobId, l: Refinement.Local) {
    && j < |w.jobs| && w.jobs[j].core == l.core && Counters.Shows(l.store, w) && SpendKeyed(l.core)
    && (if l.next.Some? then t in w.tasks && w.tasks[t] == l.next.value && l.next.value.job == j else t !in w.tasks)
  }

  predicate SpendKeyed(c: Core) { forall k :: k in c.keys ==> IsSpendKey(k) }

  /** What no statement writes, and whether there is a row. */
  predicate SameStatics(a: Core, b: Core) {
    a.keys == b.keys && a.ceiling == b.ceiling && a.results == b.results && (a.row.Some? <==> b.row.Some?)
  }

  /** Nothing but this task and its job moved. */
  predicate OthersSame(w: World, w': World, t: nat, j: JobId)
    requires j < |w.jobs|
  {
    && |w'.jobs| == |w.jobs| && w'.jobs == w.jobs[j := w'.jobs[j]] && SameStatics(w.jobs[j].core, w'.jobs[j].core)
    && w'.tasks - {t} == w.tasks - {t}
  }

  lemma {:induction false} ShowsAfter(w: World, t: nat, j: JobId, store: Store, out: TaskOut)
    requires j < |w.jobs| && Counters.Shows(store, w) && SpendKeyed(w.jobs[j].core)
    requires out.money.Same? || (out.money.Releases? && out.money.k in w.jobs[j].core.keys)
    ensures Counters.Shows(Refinement.Scripted(store, out.money, Cost(w.jobs[j].core)), ApplyTask(w, t, j, out))
  {
    var cost := Cost(w.jobs[j].core);
    assert Get(ApplyTask(w, t, j, out).spend, "") == Get(w.spend, "");
    if out.money.Releases? {
      Counters.ReleaseIsStep(store, w, out.money.k, cost);
    }
  }

  lemma {:induction false} StepIs(w: World, t: nat, j: JobId, tk: Task, reply: Reply, now: int)
    requires t in w.tasks && w.tasks[t] == tk && tk.job == j < |w.jobs|
    ensures Step(w, TaskStep(t, reply, now)) == ApplyTask(w, t, j, StepTask(w.jobs[j].core, t, tk, reply, now))
  {
  }

  lemma {:induction false} AtAfter(w: World, t: nat, j: JobId, l: Refinement.Local, out: TaskOut)
    requires At(w, t, j, l) && l.next.Some? && SameStatics(l.core, out.core) && (out.next.Some? ==> out.next.value.job == j)
    requires out.money.Same? || (out.money.Releases? && out.money.k in l.core.keys)
    ensures At(ApplyTask(w, t, j, out), t, j, Refinement.Local(out.core, out.next, Refinement.Scripted(l.store, out.money, Cost(l.core))))
    ensures OthersSame(w, ApplyTask(w, t, j, out), t, j)
  {
    ShowsAfter(w, t, j, l.store, out);
  }

  lemma {:induction false} OneStep(w: World, t: nat, j: JobId, l: Refinement.Local, reply: Reply, now: int)
    requires Safety.Inv(w) && At(w, t, j, l) && l.next.Some?
    ensures var w' := Step(w, TaskStep(t, reply, now));
            Safety.Inv(w') && At(w', t, j, Refinement.Once(l, t, reply, now)) && OthersSame(w, w', t, j)
  {
    Safety.StepKeeps(w, TaskStep(t, reply, now));
    Stepping(w, t, j, l.core, l.next.value, reply, now);
    AtAfter(w, t, j, l, StepTask(l.core, t, l.next.value, reply, now));
    StepIs(w, t, j, l.next.value, reply, now);
  }

  lemma {:induction false} Stepping(w: World, t: nat, j: JobId, c: Core, tk: Task, reply: Reply, now: int)
    requires Safety.Inv(w) && t in w.tasks && w.tasks[t] == tk && tk.job == j < |w.jobs| && w.jobs[j].core == c
    ensures var out := StepTask(c, t, tk, reply, now);
            && SameStatics(c, out.core) && (out.next.Some? ==> out.next.value.job == j)
            && (out.money.Same? || (out.money.Releases? && out.money.k in c.keys))
  {
    Safety.TaskFrame(c, t, tk, reply, now);
    Safety.TaskKeeps(c, t, tk, reply, now);
  }

  lemma {:induction false} OthersTwice(a: World, b: World, c: World, t: nat, j: JobId)
    requires j < |a.jobs| && OthersSame(a, b, t, j) && OthersSame(b, c, t, j)
    ensures OthersSame(a, c, t, j)
  {
  }

  lemma {:induction false} ManySteps(w: World, t: nat, j: JobId, l: Refinement.Local, replies: seq<Reply>, now: int) returns (evs: seq<Event>)
    requires Safety.Inv(w) && At(w, t, j, l)
    ensures var w' := Run(w, evs); Safety.Inv(w') && At(w', t, j, Refinement.RunTask(l, t, replies, now)) && OthersSame(w, w', t, j)
    decreases |replies|
  {
    if l.next.None? || replies == [] {
      return [];
    }
    var first := TaskStep(t, replies[0], now);
    OneStep(w, t, j, l, replies[0], now);
    var rest := ManySteps(Step(w, first), t, j, Refinement.Once(l, t, replies[0], now), replies[1..], now);
    evs := [first] + rest;
    Safety.RunFrom(w, first, rest);
    OthersTwice(w, Step(w, first), Run(w, evs), t, j);
  }

  // ---- the poller's stores and the protocol's state ----

  ghost predicate MirrorsJob(c: Core, s: Poller.Shared, j: JobId, id: string) {
    && c.row == (if j in s.rows then Some(s.rows[j]) else None)
    && c.ledger == Settlements.JobLedger(s.log, id) && SpendKeyed(c)
  }

  /** The protocol's state is what table, ledger and counters hold; `ids` are the jobs' names in the ledger. */
  ghost predicate Mirrors(w: World, s: Poller.Shared, ids: seq<string>) {
    && |ids| == |w.jobs| && (forall i, k :: 0 <= i < k < |ids| ==> ids[i] != ids[k])
    && Counters.Shows(s.store, w)
    && (forall i :: 0 <= i < |w.jobs| ==> MirrorsJob(w.jobs[i].core, s, i, ids[i]))
  }

  /** The answers are about this job. */
  ghost predicate About(w: World, ids: seq<string>, id: JobId, row: Job, a: Poller.Answers, got: Poller.Extent)
    requires |ids| == |w.jobs|
  {
    id < |w.jobs| && a.spec.id == ids[id] && Refinement.Fits(w.jobs[id].core, row, a) && Poller.CanGet(a, got)
  }

  lemma {:induction false} OtherLedger(log: Settlements.Rows, settling: Option<Job>, a: Poller.Answers, got: Poller.Extent, other: string)
    requires other != a.spec.id
    ensures Settlements.JobLedger(Poller.LogAfter(log, settling, a, got), other) == Settlements.JobLedger(log, other)
  {
    if settling.Some? && settling.value.upstreamId.Some? {
      Settlements.OtherLedger(log, a.spec.id, Settlements.FirstRows(a.spec, Poller.ReadOf(a, got)), other);
    }
  }

  /** The whole picture after one job's. */
  lemma {:induction false} MirrorsAfter(w: World, w': World, t: nat, s: Poller.Shared, ids: seq<string>, id: JobId, row: Job,
                                        a: Poller.Answers, got: Poller.Extent)
    requires Mirrors(w, s, ids) && About(w, ids, id, row, a, got) && OthersSame(w, w', t, id) && Refinement.RowFits(w.jobs[id].core.row, row)
    requires var c, c' := w.jobs[id].core, w'.jobs[id].core;
             var goal := Refinement.Goal(c, s.store, s.log, id, row, a, got);
             c'.row == goal.row && c'.ledger == goal.ledger && Counters.Shows(goal.store, w')
    ensures Mirrors(w', Poller.AdvancedTo(s, id, row, a, got), ids)
  {
    var c, s' := w.jobs[id].core, Poller.AdvancedTo(s, id, row, a, got);
    assert MirrorsJob(c, s, id, ids[id]);
    assert Poller.Owned(s.rows, row.owner, id) == c.row;
    forall i | 0 <= i < |w'.jobs|
      ensures MirrorsJob(w'.jobs[i].core, s', i, ids[i])
    {
      assert MirrorsJob(w.jobs[i].core, s, i, ids[i]);
      if i != id {
        OtherLedger(s.log, Poller.AdvancedJob(c.row, row, a), a, got, ids[i]);
      }
    }
  }

  /** The task dies where it stands. */
  lemma {:induction false} Crashes(w: World, t: nat, s: Poller.Shared, ids: seq<string>)
    requires Safety.Inv(w) && Mirrors(w, s, ids)
    ensures var w' := Step(w, TaskCrash(t)); Safety.Inv(w') && Mirrors(w', s, ids) && w'.jobs == w.jobs && w'.tasks == w.tasks - {t}
  {
    Safety.StepKeeps(w, TaskCrash(t));
  }

  lemma {:induction false} ThenCrashes(w: World, steps: seq<Event>, t: nat, id: JobId, s: Poller.Shared, ids: seq<string>) returns (evs: seq<Event>)
    requires id < |w.jobs| && Safety.Inv(Run(w, steps)) && Mirrors(Run(w, steps), s, ids) && OthersSame(w, Run(w, steps), t, id)
    ensures var w' := Run(w, evs); Safety.Inv(w') && Mirrors(w', s, ids) && w'.tasks == w.tasks - {t} && OthersSame(w, w', t, id)
  {
    evs := steps + [TaskCrash(t)];
    Safety.RunThen(w, steps, TaskCrash(t));
    Crashes(Run(w, steps), t, s, ids);
  }

  lemma {:induction false} GoalReached(w: World, s: Poller.Shared, ids: seq<string>, t: nat, id: JobId, row: Job, a: Poller.Answers, got: Poller.Extent)
      returns (replies: seq<Reply>)
    requires Safety.Inv(w) && Mirrors(w, s, ids) && About(w, ids, id, row, a, got)
    requires w.jobs[id].core.row.Some? ==> SameIdentity(w.jobs[id].core.row.value, row)
    ensures var c := w.jobs[id].core;
            Refinement.SeenOf(Refinement.RunTask(Refinement.Local(c, Some(Advance(id, row)), s.store), t, replies, a.now))
            == Refinement.Goal(c, s.store, s.log, id, row, a, got)
    ensures Refinement.RowFits(w.jobs[id].core.row, row) && SpendKeyed(w.jobs[id].core)
  {
    var c := w.jobs[id].core;
    assert MirrorsJob(c, s, id, ids[id]) && Safety.CoreOk(c);
    Refinement.Advances(c, t, s.store, id, row, s.log, a, got);
    replies :| Refinement.SeenOf(Refinement.RunTask(Refinement.Local(c, Some(Advance(id, row)), s.store), t, replies, a.now))
               == Refinement.Goal(c, s.store, s.log, id, row, a, got);
  }

  lemma {:induction false} AdvanceSteps(w: World, s: Poller.Shared, ids: seq<string>, t: nat, id: JobId, row: Job, a: Poller.Answers, got: Poller.Extent)
      returns (steps: seq<Event>)
    requires Safety.Inv(w) && Mirrors(w, s, ids) && About(w, ids, id, row, a, got) && t in w.tasks && w.tasks[t] == Advance(id, row)
    requires w.jobs[id].core.row.Some? ==> SameIdentity(w.jobs[id].core.row.value, row)
    ensures var w' := Run(w, steps); Safety.Inv(w') && Mirrors(w', Poller.AdvancedTo(s, id, row, a, got), ids) && OthersSame(w, w', t, id)
  {
    var replies := GoalReached(w, s, ids, t, id, row, a, got);
    steps := ManySteps(w, t, id, Refinement.Local(w.jobs[id].core, Some(Advance(id, row)), s.store), replies, a.now);
    MirrorsAfter(w, Run(w, steps), t, s, ids, id, row, a, got);
  }

  /** Every advance the poller makes on its own, from any state of the protocol and on a snapshot of any age, leaves
      table, ledger and counters as some run of its task leaves them: the protocol's theorems hold of it. */
  lemma {:induction false} AdvanceIsRun(w: World, s: Poller.Shared, ids: seq<string>, t: nat, id: JobId, row: Job, a: Poller.Answers, got: Poller.Extent)
      returns (evs: seq<Event>)
    requires Safety.Inv(w) && Mirrors(w, s, ids) && About(w, ids, id, row, a, got) && t in w.tasks && w.tasks[t] == Advance(id, row)
    requires w.jobs[id].core.row.Some? ==> SameIdentity(w.jobs[id].core.row.value, row)
    ensures var w' := Run(w, evs);
            && Safety.Inv(w') && Mirrors(w', Poller.AdvancedTo(s, id, row, a, got), ids)
            && w'.tasks == w.tasks - {t} && OthersSame(w, w', t, id)
  {
    var steps := AdvanceSteps(w, s, ids, t, id, row, a, got);
    evs := ThenCrashes(w, steps, t, id, Poller.AdvancedTo(s, id, row, a, got), ids);
  }

  // ---- a whole sweep ----

  /** The sweep reads a live row: an advance of it begins. */
  lemma {:induction false} Begins(w: World, s: Poller.Shared, ids: seq<string>, t: nat, id: JobId, row: Job)
    requires Safety.Inv(w) && Mirrors(w, s, ids) && t !in w.tasks && id < |w.jobs|
    requires id in s.rows && s.rows[id] == row && !IsTerminal(row.status)
    ensures var w' := Step(w, PollRead(t, id));
            && Safety.Inv(w') && Mirrors(w', s, ids) && w'.jobs == w.jobs && w'.tasks == w.tasks[t := Advance(id, row)]
            && w.jobs[id].core.row == Some(row)
  {
    assert MirrorsJob(w.jobs[id].core, s, id, ids[id]);
    Safety.StepKeeps(w, PollRead(t, id));
  }

  predicate AllStatics(w: World, w': World) {
    |w'.jobs| == |w.jobs| && forall i :: 0 <= i < |w.jobs| ==> SameStatics(w.jobs[i].core, w'.jobs[i].core)
  }

  /** One row that is not in flight elsewhere: its read, its advance. */
  lemma {:induction false} ReadAndAdvance(w: World, s: Poller.Shared, ids: seq<string>, t: nat, id: JobId, row: Job, a: Poller.Answers, got: Poller.Extent)
      returns (evs: seq<Event>)
    requires Safety.Inv(w) && Mirrors(w, s, ids) && t !in w.tasks && !IsTerminal(row.status)
    requires About(w, ids, id, row, a, got) && id in s.rows && s.rows[id] == row
    ensures var w' := Run(w, evs); Safety.Inv(w') && Mirrors(w', Poller.AdvancedTo(s, id, row, a, got), ids) && w'.tasks == w.tasks && AllStatics(w, w')
  {
    var begun := Step(w, PollRead(t, id));
    Begins(w, s, ids, t, id, row);
    var rest := AdvanceIsRun(begun, s, ids, t, id, row, a, got);
    evs := [PollRead(t, id)] + rest;
    Safety.RunFrom(w, PollRead(t, id), rest);
    TasksBack(w, begun, Run(begun, rest), t, id, row);
  }

  /** One visited row; one in flight elsewhere is skipped. */
  lemma {:induction false} VisitIsRun(w: World, s: Poller.Shared, s': Poller.Shared, ids: seq<string>, t: nat, busy: set<JobId>, id: JobId, row: Job,
                                      a: Poller.Answers, got: Poller.Extent) returns (evs: seq<Event>)
    requires Safety.Inv(w) && Mirrors(w, s, ids) && t !in w.tasks && !IsTerminal(row.status)
    requires About(w, ids, id, row, a, got) && Poller.Visit(busy, s, s', id, row, a, got)
    ensures var w' := Run(w, evs); Safety.Inv(w') && Mirrors(w', s', ids) && w'.tasks == w.tasks && AllStatics(w, w')
  {
    if id in busy {
      evs := [];
    } else {
      evs := ReadAndAdvance(w, s, ids, t, id, row, a, got);
    }
  }

  lemma {:induction false} TasksBack(w: World, begun: World, w': World, t: nat, id: JobId, row: Job)
    requires t !in w.tasks && begun.jobs == w.jobs && begun.tasks == w.tasks[t := Advance(id, row)] && id < |w.jobs|
    requires w'.tasks == begun.tasks - {t} && OthersSame(begun, w', t, id)
    ensures w'.tasks == w.tasks && AllStatics(w, w')
  {
  }

  /** Every listed job is one of the protocol's, and the answers about it are. */
  ghost predicate Served(w: World, ids: seq<string>, listed: seq<(JobId, Job)>, answers: map<JobId, Poller.Answers>)
    requires |ids| == |w.jobs| && Poller.Sweepable(listed, answers)
  {
    forall i :: 0 <= i < |listed| ==>
      var id, row := listed[i].0, listed[i].1;
      id < |w.jobs| && answers[id].spec.id == ids[id] && Refinement.Fits(w.jobs[id].core, row, answers[id])
  }

  /** The events lead from the state to one that shows these stores, with the same tasks and the same jobs. */
  ghost predicate LeadsTo(w: World, evs: seq<Event>, ids: seq<string>, s: Poller.Shared) {
    var w' := Run(w, evs);
    Safety.Inv(w') && Mirrors(w', s, ids) && w'.tasks == w.tasks && AllStatics(w, w')
  }

  lemma {:induction false} LeadsNowhere(w: World, ids: seq<string>, s: Poller.Shared)
    requires Safety.Inv(w) && Mirrors(w, s, ids)
    ensures LeadsTo(w, [], ids, s)
  {
  }

  /** Every sweep of the poller, up to any of its rows, is a run of the protocol: table, ledger and counters after it
      are those of one of the protocol's states. */
  lemma {:induction false} SweepIsRun(w: World, ids: seq<string>, t: nat, busy: set<JobId>, states: seq<Poller.Shared>, listed: seq<(JobId, Job)>,
                                      answers: map<JobId, Poller.Answers>, gots: seq<Poller.Extent>, n: nat) returns (evs: seq<Event>)
    requires Poller.Sweepable(listed, answers) && Poller.Sweeps(busy, states, listed, answers, gots) && n <= |gots|
    requires Safety.Inv(w) && Mirrors(w, states[0], ids) && t !in w.tasks && Served(w, ids, listed, answers)
    ensures LeadsTo(w, evs, ids, states[n])
  {
    if n == 0 {
      LeadsNowhere(w, ids, states[0]);
      evs := [];
    } else {
      var first := SweepIsRun(w, ids, t, busy, states, listed, answers, gots, n - 1);
      evs := Extended(w, first, ids, t, busy, states, listed, answers, gots, n - 1);
    }
  }

  lemma {:induction false} Extended(w: World, first: seq<Event>, ids: seq<string>, t: nat, busy: set<JobId>, states: seq<Poller.Shared>,
                                    listed: seq<(JobId, Job)>, answers: map<JobId, Poller.Answers>, gots: seq<Poller.Extent>, i: nat)
      returns (evs: seq<Event>)
    requires Poller.Sweepable(listed, answers) && Poller.Sweeps(busy, states, listed, answers, gots) && i < |gots|
    requires |ids| == |w.jobs| && Served(w, ids, listed, answers) && t !in w.tasks && LeadsTo(w, first, ids, states[i])
    ensures LeadsTo(w, evs, ids, states[i + 1])
  {
    var next := NextVisit(w, Run(w, first), ids, t, busy, states, listed, answers, gots, i);
    evs := first + next;
    Safety.RunCat(w, first, next);
    StaticsTwice(w, Run(w, first), Run(w, evs));
  }

  lemma {:induction false} StillServed(w: World, now: World, ids: seq<string>, busy: set<JobId>, states: seq<Poller.Shared>, listed: seq<(JobId, Job)>,
                                       answers: map<JobId, Poller.Answers>, gots: seq<Poller.Extent>, i: nat)
    requires Poller.Sweepable(listed, answers) && Poller.Sweeps(busy, states, listed, answers, gots) && i < |gots|
    requires |ids| == |w.jobs| && Served(w, ids, listed, answers) && AllStatics(w, now)
    ensures var id, row := listed[i].0, listed[i].1;
            && !IsTerminal(row.status) && row.submittedAt >= 0 && About(now, ids, id, row, answers[id], gots[i])
            && Poller.Visit(busy, states[i], states[i + 1], id, row, answers[id], gots[i])
  {
    assert Poller.Visit(busy, states[i], states[i + 1], listed[i].0, listed[i].1, answers[listed[i].0], gots[i]);
    assert SameStatics(w.jobs[listed[i].0].core, now.jobs[listed[i].0].core);
  }

  lemma {:induction false} NextVisit(w: World, now: World, ids: seq<string>, t: nat, busy: set<JobId>, states: seq<Poller.Shared>, listed: seq<(JobId, Job)>,
                                     answers: map<JobId, Poller.Answers>, gots: seq<Poller.Extent>, i: nat) returns (evs: seq<Event>)
    requires Poller.Sweepable(listed, answers) && Poller.Sweeps(busy, states, listed, answers, gots) && i < |gots|
    requires |ids| == |w.jobs| && Served(w, ids, listed, answers) && AllStatics(w, now)
    requires Safety.Inv(now) && Mirrors(now, states[i], ids) && t !in now.tasks
    ensures var w' := Run(now, evs); Safety.Inv(w') && Mirrors(w', states[i + 1], ids) && w'.tasks == now.tasks && AllStatics(now, w')
  {
    StillServed(w, now, ids, busy, states, listed, answers, gots, i);
    evs := VisitIsRun(now, states[i], states[i + 1], ids, t, busy, listed[i].0, listed[i].1, answers[listed[i].0], gots[i]);
  }

  lemma {:induction false} StaticsTwice(a: World, b: World, c: World)
    requires AllStatics(a, b) && AllStatics(b, c)
    ensures AllStatics(a, c)
  {
  }
}
