/** How a job of the batch protocol may end: with every result in the ledger, or after an answer of the run - which
    the statements below point at - that said there was nothing to read. */
module BatchEndings {
  import opened Options
  import opened ItemTotals
  import opened BatchJobs
  import opened BatchProtocol
  import opened BatchSafety

  // ---- events of a run ----

  /** The answers after which there are no results to read: the provider is gone, the upstream has not listed the
      submission for its whole window, no longer knows the job, or no longer has its results. */
  predicate NothingToRead(tk: Task, answer: Reply) {
    || (tk.Advance? && answer.Gone?)
    || (tk.Listing? && answer == Absent(true))
    || (tk.Probing? && answer.Lost?)
    || (tk.Settling? && answer.ResultsGone?)
  }

  /** Event `i` gave task `t`, which was advancing job `j`, such an answer. */
  ghost predicate Told(w0: World, evs: seq<Event>, i: nat, t: nat, j: JobId) {
    i < |evs| && evs[i].TaskStep? && evs[i].t == t && Tells(Run(w0, evs[..i]), t, j, evs[i].answer)
  }

  predicate Tells(w: World, t: nat, j: JobId, answer: Reply) {
    t in w.tasks && w.tasks[t].job == j && NothingToRead(w.tasks[t], answer)
  }

  /** Strictly between two events the task neither moves nor dies. */
  predicate Waits(evs: seq<Event>, t: nat, i: nat, n: nat) {
    n <= |evs| && forall m :: i < m < n ==> !((evs[m].TaskStep? || evs[m].TaskCrash?) && evs[m].t == t)
  }

  /** Event `n` is task `t`'s next step after that answer, and makes the job terminal. */
  ghost predicate EndedUnread(w0: World, evs: seq<Event>, i: nat, n: nat, t: nat, j: JobId) {
    && i < n < |evs| && Told(w0, evs, i, t, j) && Waits(evs, t, i, n)
    && evs[n].TaskStep? && evs[n].t == t && Ends(Run(w0, evs[..n]), evs[n], j)
  }

  ghost predicate Ends(w: World, ev: Event, j: JobId) {
    j < |w.jobs| && Live(w.jobs[j].core.row) && j < |Step(w, ev).jobs| && Terminal(Step(w, ev).jobs[j].core.row)
  }

  /** Event `i` brought the upstream's definitive refusal of the job's create. */
  ghost predicate RefusedAt(w0: World, evs: seq<Event>, i: nat, j: JobId) {
    i < |evs| && evs[i].SubStep? && evs[i].j == j && evs[i].reply.Refused? && Creates(Run(w0, evs[..i]), j)
  }

  predicate Creates(w: World, j: JobId) { j < |w.jobs| && w.jobs[j].sub.Creating? }

  // ---- one step ----

  /** Only such an answer makes a task finish its job without results. */
  lemma {:induction false} FinishReason(c: Core, t: nat, tk: Task, answer: Reply, now: int)
    requires TaskOk(c, t, tk)
    ensures var n := StepTask(c, t, tk, answer, now).next;
            n.Some? && n.value.Finishing? && !n.value.readable ==> NothingToRead(tk, answer)
  {
    if tk.Holding? {
      HoldingSettles(c, t, tk);
    }
  }

  /** A job that got as far as a final status has an upstream id, so its results are asked for. */
  lemma {:induction false} HoldingSettles(c: Core, t: nat, tk: Task)
    requires TaskOk(c, t, tk) && tk.Holding?
    ensures var n := StepHolding(c, tk.job, tk.row, tk.verdict).next; n.Some? ==> n.value.Settling?
  {
  }

  /** Only a finish whose settle matches makes a winner, and whether it had read the results stays on record. */
  lemma {:induction false} WinnerReason(c: Core, t: nat, tk: Task, answer: Reply, now: int)
    requires CoreOk(c)
    ensures var b := StepTask(c, t, tk, answer, now).core;
            && b.failWon == c.failWon
            && ((b.winner == c.winner && b.settled == c.settled)
                || (tk.Finishing? && b.settled == tk.readable && b.winner == Some(t) && Live(c.row) && Terminal(b.row)))
  {
    if tk.Finishing? {
      MatchedFinish(c, t, tk, now);
    }
  }

  lemma {:induction false} MatchedFinish(c: Core, t: nat, tk: Task, now: int)
    requires CoreOk(c) && tk.Finishing?
    ensures var b := StepFinishing(c, t, tk.job, tk.status, tk.errorKind, tk.totals, tk.readable, now).core;
            b == c || (b.settled == tk.readable && b.winner == Some(t) && b.failWon == c.failWon && Live(c.row) && Terminal(b.row))
  {
  }

  lemma {:induction false} RefusalReason(e: Entry, reply: SubReply, admits: bool, kind: string, now: int)
    ensures var out := StepSub(e, reply, admits, kind, now);
            && out.core.winner == e.core.winner && out.core.settled == e.core.settled
            && (out.core.failWon ==> e.core.failWon || e.sub.Rejected?)
            && (out.sub.Rejected? ==> e.sub == out.sub || (e.sub.Creating? && reply.Refused?))
  {
    if !WritesRow(e.sub) {
      SubShape(e, reply, admits, kind, now);
    }
  }

  // ---- every run ----

  /** Every task about to finish unread has been told so, and has waited since. */
  ghost predicate TasksTraced(w0: World, evs: seq<Event>, w: World) {
    forall t :: t in w.tasks && w.tasks[t].Finishing? && !w.tasks[t].readable ==>
      exists i :: Told(w0, evs, i, t, w.tasks[t].job) && Waits(evs, t, i, |evs|)
  }

  /** Every job that was finished unread, or failed by its submitter, has the events to show for it. */
  ghost predicate JobTraced(w0: World, evs: seq<Event>, j: JobId, e: Entry) {
    && (e.core.winner.Some? && !e.core.settled ==> exists i, n :: EndedUnread(w0, evs, i, n, e.core.winner.value, j))
    && (e.core.failWon || e.sub.Rejected? ==> exists i :: RefusedAt(w0, evs, i, j))
  }

  ghost predicate JobsTraced(w0: World, evs: seq<Event>, w: World) {
    forall j :: 0 <= j < |w.jobs| ==> JobTraced(w0, evs, j, w.jobs[j])
  }

  lemma {:induction false} PrefixOf(init: seq<Event>, ev: Event, i: nat)
    requires i <= |init|
    ensures (init + [ev])[..i] == init[..i]
  {
  }

  lemma {:induction false} TaskStillTraced(w0: World, init: seq<Event>, ev: Event, t: nat, j: JobId, i: nat)
    requires Told(w0, init, i, t, j) && Waits(init, t, i, |init|) && !((ev.TaskStep? || ev.TaskCrash?) && ev.t == t)
    ensures Told(w0, init + [ev], i, t, j) && Waits(init + [ev], t, i, |init| + 1)
  {
    PrefixOf(init, ev, i);
  }

  lemma {:induction false} JobStillTraced(w0: World, init: seq<Event>, ev: Event, j: JobId, e: Entry)
    requires JobTraced(w0, init, j, e)
    ensures JobTraced(w0, init + [ev], j, e)
  {
    if e.core.winner.Some? && !e.core.settled {
      var i, n :| EndedUnread(w0, init, i, n, e.core.winner.value, j);
      PrefixOf(init, ev, i);
      PrefixOf(init, ev, n);
      assert EndedUnread(w0, init + [ev], i, n, e.core.winner.value, j);
    }
    if e.core.failWon || e.sub.Rejected? {
      var i :| RefusedAt(w0, init, i, j);
      PrefixOf(init, ev, i);
      assert RefusedAt(w0, init + [ev], i, j);
    }
  }

  /** Tasks a step leaves alone stay traced. */
  lemma {:induction false} TasksStay(w0: World, init: seq<Event>, ev: Event, w: World, w': World)
    requires TasksTraced(w0, init, w)
    requires forall t :: t in w'.tasks && w'.tasks[t].Finishing? ==>
               t in w.tasks && w.tasks[t] == w'.tasks[t] && !((ev.TaskStep? || ev.TaskCrash?) && ev.t == t)
    ensures TasksTraced(w0, init + [ev], w')
  {
    forall t | t in w'.tasks && w'.tasks[t].Finishing? && !w'.tasks[t].readable
      ensures exists i :: Told(w0, init + [ev], i, t, w'.tasks[t].job) && Waits(init + [ev], t, i, |init| + 1)
    {
      var i :| Told(w0, init, i, t, w.tasks[t].job) && Waits(init, t, i, |init|);
      TaskStillTraced(w0, init, ev, t, w.tasks[t].job, i);
    }
  }

  /** A job whose outcome a step leaves alone stays traced. */
  lemma {:induction false} JobStays(w0: World, init: seq<Event>, ev: Event, j: JobId, a: Entry, b: Entry)
    requires JobTraced(w0, init, j, a) && b.core.winner == a.core.winner && b.core.settled == a.core.settled
    requires b.core.failWon ==> a.core.failWon || a.sub.Rejected?
    requires b.sub.Rejected? ==> a.sub == b.sub
    ensures JobTraced(w0, init + [ev], j, b)
  {
    JobStillTraced(w0, init, ev, j, a);
  }

  lemma {:induction false} SubTraced(w0: World, init: seq<Event>, ev: Event, w: World)
    requires w == Run(w0, init) && ev.SubStep? && ev.j < |w.jobs|
    requires TasksTraced(w0, init, w) && JobsTraced(w0, init, w)
    ensures var w' := ApplySub(w, ev.j, SubOutcome(w, w.jobs[ev.j], ev.reply, ev.kind, ev.now));
            TasksTraced(w0, init + [ev], w') && JobsTraced(w0, init + [ev], w')
  {
    var e := w.jobs[ev.j];
    var out := SubOutcome(w, e, ev.reply, ev.kind, ev.now);
    var w' := ApplySub(w, ev.j, out);
    RefusalReason(e, ev.reply, Admits(w, Cost(e.core), NextKey(e)), ev.kind, ev.now);
    TasksStay(w0, init, ev, w, w');
    forall j | 0 <= j < |w'.jobs|
      ensures JobTraced(w0, init + [ev], j, w'.jobs[j])
    {
      if j != ev.j {
        JobStillTraced(w0, init, ev, j, w.jobs[j]);
      } else if out.sub.Rejected? && e.sub != out.sub {
        RefusedNow(w0, init, ev, e, SubEntry(e, out));
      } else {
        JobStays(w0, init, ev, j, e, SubEntry(e, out));
      }
    }
  }

  lemma {:induction false} RefusedNow(w0: World, init: seq<Event>, ev: Event, a: Entry, b: Entry)
    requires ev.SubStep? && ev.reply.Refused? && Creates(Run(w0, init), ev.j)
    requires JobTraced(w0, init, ev.j, a) && b.core.winner == a.core.winner && b.core.settled == a.core.settled
    ensures JobTraced(w0, init + [ev], ev.j, b)
  {
    JobStillTraced(w0, init, ev, ev.j, a);
    PrefixOf(init, ev, |init|);
    assert init[..|init|] == init;
    assert RefusedAt(w0, init + [ev], |init|, ev.j);
  }

  lemma {:induction false} ToldNow(w0: World, init: seq<Event>, ev: Event, j: JobId)
    requires ev.TaskStep? && Tells(Run(w0, init), ev.t, j, ev.answer)
    ensures Told(w0, init + [ev], |init|, ev.t, j) && Waits(init + [ev], ev.t, |init|, |init| + 1)
  {
    PrefixOf(init, ev, |init|);
    assert init[..|init|] == init;
  }

  lemma {:induction false} EndedNow(w0: World, init: seq<Event>, ev: Event, j: JobId, i: nat)
    requires ev.TaskStep? && Told(w0, init, i, ev.t, j) && Waits(init, ev.t, i, |init|) && Ends(Run(w0, init), ev, j)
    ensures EndedUnread(w0, init + [ev], i, |init|, ev.t, j)
  {
    PrefixOf(init, ev, i);
    PrefixOf(init, ev, |init|);
    assert init[..|init|] == init;
  }

  lemma {:induction false} TaskTasksTraced(w0: World, init: seq<Event>, ev: Event, w: World, out: TaskOut)
    requires w == Run(w0, init) && Inv(w) && ev.TaskStep? && ev.t in w.tasks && TasksTraced(w0, init, w)
    requires var j := w.tasks[ev.t].job; out == StepTask(w.jobs[j].core, ev.t, w.tasks[ev.t], ev.answer, ev.now)
    ensures TasksTraced(w0, init + [ev], ApplyTask(w, ev.t, w.tasks[ev.t].job, out))
  {
    var tk := w.tasks[ev.t];
    var w' := ApplyTask(w, ev.t, tk.job, out);
    FinishReason(w.jobs[tk.job].core, ev.t, tk, ev.answer, ev.now);
    TaskKeeps(w.jobs[tk.job].core, ev.t, tk, ev.answer, ev.now);
    forall t | t in w'.tasks && w'.tasks[t].Finishing? && !w'.tasks[t].readable
      ensures exists i :: Told(w0, init + [ev], i, t, w'.tasks[t].job) && Waits(init + [ev], t, i, |init| + 1)
    {
      if t == ev.t {
        ToldNow(w0, init, ev, tk.job);
      } else {
        var i :| Told(w0, init, i, t, w.tasks[t].job) && Waits(init, t, i, |init|);
        TaskStillTraced(w0, init, ev, t, w.tasks[t].job, i);
      }
    }
  }

  lemma {:induction false} TaskJobsTraced(w0: World, init: seq<Event>, ev: Event, w: World, out: TaskOut)
    requires w == Run(w0, init) && Inv(w) && ev.TaskStep? && ev.t in w.tasks
    requires TasksTraced(w0, init, w) && JobsTraced(w0, init, w)
    requires var j := w.tasks[ev.t].job; out == StepTask(w.jobs[j].core, ev.t, w.tasks[ev.t], ev.answer, ev.now)
    ensures JobsTraced(w0, init + [ev], ApplyTask(w, ev.t, w.tasks[ev.t].job, out))
  {
    var tk := w.tasks[ev.t];
    var a, b := w.jobs[tk.job], TaskEntry(w.jobs[tk.job], out);
    WinnerReason(a.core, ev.t, tk, ev.answer, ev.now);
    forall j | 0 <= j < |w.jobs|
      ensures JobTraced(w0, init + [ev], j, ApplyTask(w, ev.t, tk.job, out).jobs[j])
    {
      if j != tk.job {
        JobStillTraced(w0, init, ev, j, w.jobs[j]);
      } else if b.core.winner == a.core.winner && b.core.settled == a.core.settled {
        JobStays(w0, init, ev, j, a, b);
      } else {
        WonNow(w0, init, ev, w, j, a, b);
      }
    }
  }

  /** The step that makes a task the winner of its job. */
  lemma {:induction false} WonNow(w0: World, init: seq<Event>, ev: Event, w: World, j: JobId, a: Entry, b: Entry)
    requires w == Run(w0, init) && ev.TaskStep? && ev.t in w.tasks && w.tasks[ev.t].job == j < |w.jobs| && w.jobs[j] == a
    requires TasksTraced(w0, init, w) && JobTraced(w0, init, j, a)
    requires b == a.(core := b.core, credit := b.credit, tally := b.tally) && b == Step(w, ev).jobs[j]
    requires w.tasks[ev.t].Finishing? && b.core.settled == w.tasks[ev.t].readable && b.core.winner == Some(ev.t)
    requires b.core.failWon == a.core.failWon && Live(a.core.row) && Terminal(b.core.row)
    ensures JobTraced(w0, init + [ev], j, b)
  {
    JobStillTraced(w0, init, ev, j, a);
    if !b.core.settled {
      var i :| Told(w0, init, i, ev.t, j) && Waits(init, ev.t, i, |init|);
      EndedNow(w0, init, ev, j, i);
    }
  }

  /** Steps that read, crash or reconcile. */
  lemma {:induction false} SimpleTraced(w0: World, init: seq<Event>, ev: Event, w: World, w': World)
    requires !ev.TaskStep? && TasksTraced(w0, init, w) && JobsTraced(w0, init, w) && Simple(w, w')
    requires ev.TaskCrash? ==> ev.t !in w'.tasks
    requires forall j :: 0 <= j < |w.jobs| && w'.jobs[j].sub.Rejected? ==> w'.jobs[j].sub == w.jobs[j].sub
    ensures TasksTraced(w0, init + [ev], w') && JobsTraced(w0, init + [ev], w')
  {
    TasksStay(w0, init, ev, w, w');
    forall j | 0 <= j < |w'.jobs|
      ensures JobTraced(w0, init + [ev], j, w'.jobs[j])
    {
      JobStays(w0, init, ev, j, w.jobs[j], w'.jobs[j]);
    }
  }

  lemma {:induction false} InsertTraced(w0: World, init: seq<Event>, ev: Event, w: World, w': World)
    requires ev.Insert? && TasksTraced(w0, init, w) && JobsTraced(w0, init, w)
    requires w' == w || (w'.tasks == w.tasks && w'.jobs == w.jobs + [NewEntry(ev.job, ev.keys, ev.results)])
    ensures TasksTraced(w0, init + [ev], w') && JobsTraced(w0, init + [ev], w')
  {
    TasksStay(w0, init, ev, w, w');
    forall j | 0 <= j < |w'.jobs|
      ensures JobTraced(w0, init + [ev], j, w'.jobs[j])
    {
      if j < |w.jobs| {
        JobStillTraced(w0, init, ev, j, w.jobs[j]);
      }
    }
  }

  lemma {:induction false} SubsKept(w: World, ev: Event, j: JobId)
    requires !ev.SubStep? && !ev.TaskStep? && !ev.Insert? && j < |w.jobs| && j < |Step(w, ev).jobs|
    ensures Step(w, ev).jobs[j].sub.Rejected? ==> Step(w, ev).jobs[j].sub == w.jobs[j].sub
  {
  }

  lemma {:induction false} OtherTraced(w0: World, init: seq<Event>, ev: Event, w: World)
    requires !ev.SubStep? && !ev.TaskStep? && !ev.Insert? && TasksTraced(w0, init, w) && JobsTraced(w0, init, w)
    ensures TasksTraced(w0, init + [ev], Step(w, ev)) && JobsTraced(w0, init + [ev], Step(w, ev))
  {
    SimpleShape(w, ev);
    forall j | 0 <= j < |w.jobs|
      ensures Step(w, ev).jobs[j].sub.Rejected? ==> Step(w, ev).jobs[j].sub == w.jobs[j].sub
    {
      SubsKept(w, ev, j);
    }
    SimpleTraced(w0, init, ev, w, Step(w, ev));
  }

  lemma {:induction false} NoOpTraced(w0: World, init: seq<Event>, ev: Event, w: World)
    requires TasksTraced(w0, init, w) && JobsTraced(w0, init, w)
    requires (ev.SubStep? && ev.j >= |w.jobs|) || (ev.TaskStep? && ev.t !in w.tasks)
    ensures TasksTraced(w0, init + [ev], w) && JobsTraced(w0, init + [ev], w)
  {
    TasksStay(w0, init, ev, w, w);
    forall j | 0 <= j < |w.jobs|
      ensures JobTraced(w0, init + [ev], j, w.jobs[j])
    {
      JobStillTraced(w0, init, ev, j, w.jobs[j]);
    }
  }

  lemma {:induction false} StepTraced(w0: World, init: seq<Event>, ev: Event, w: World)
    requires w == Run(w0, init) && Inv(w) && TasksTraced(w0, init, w) && JobsTraced(w0, init, w)
    ensures TasksTraced(w0, init + [ev], Step(w, ev)) && JobsTraced(w0, init + [ev], Step(w, ev))
  {
    if ev.SubStep? && ev.j < |w.jobs| {
      SubTraced(w0, init, ev, w);
    } else if ev.TaskStep? && ev.t in w.tasks {
      var out := StepTask(w.jobs[w.tasks[ev.t].job].core, ev.t, w.tasks[ev.t], ev.answer, ev.now);
      TaskTasksTraced(w0, init, ev, w, out);
      TaskJobsTraced(w0, init, ev, w, out);
    } else if ev.Insert? {
      InsertTraced(w0, init, ev, w, Step(w, ev));
    } else if ev.SubStep? || ev.TaskStep? {
      NoOpTraced(w0, init, ev, w);
    } else {
      OtherTraced(w0, init, ev, w);
    }
  }

  lemma {:induction false} LastTraced(w0: World, evs: seq<Event>, init: seq<Event>, w: World)
    requires evs != [] && init == evs[..|evs| - 1] && w == Run(w0, init) && Inv(w) && TasksTraced(w0, init, w) && JobsTraced(w0, init, w)
    ensures TasksTraced(w0, evs, Run(w0, evs)) && JobsTraced(w0, evs, Run(w0, evs))
  {
    assert evs == init + [evs[|evs| - 1]];
    StepTraced(w0, init, evs[|evs| - 1], w);
  }

  lemma {:induction false} NothingTraced(w: World)
    requires w.tasks == map[] && w.jobs == []
    ensures TasksTraced(w, [], w) && JobsTraced(w, [], w)
  {
  }

  lemma {:induction false} RunTraced(amounts: map<Key, int>, evs: seq<Event>)
    ensures var w := Run(Start(amounts), evs); TasksTraced(Start(amounts), evs, w) && JobsTraced(Start(amounts), evs, w)
    decreases |evs|
  {
    if evs == [] {
      NothingTraced(Start(amounts));
    } else {
      var init := evs[..|evs| - 1];
      RunTraced(amounts, init);
      RunKeeps(Start(amounts), init);
      LastTraced(Start(amounts), evs, init, Run(Start(amounts), init));
    }
  }

  // ---- money is never invisible ----

  lemma {:induction false} CountedInSum(jobs: seq<Entry>, k: Key, j: JobId)
    requires j < |jobs| && Counts(jobs[j].core, k)
    ensures DbSum(jobs, k) >= Cost(jobs[j].core)
  {
    if j < |jobs| - 1 {
      CountedInSum(jobs[..|jobs| - 1], k, j);
    }
  }

  /** Every distinct item is in the ledger, and the stored counts and cost are the totals of those rows. */
  ghost predicate Recorded(c: Core) { c.row.Some? && c.ledger == c.results && Stored(c.row.value) == TotalsOf(c.ledger) }

  lemma {:induction false} TerminalRecorded(w0: World, evs: seq<Event>, w: World, j: JobId)
    requires Inv(w) && JobsTraced(w0, evs, w) && j < |w.jobs| && Terminal(w.jobs[j].core.row)
    ensures Recorded(w.jobs[j].core) || (exists i :: RefusedAt(w0, evs, i, j))
            || exists i: nat, n: nat, t: nat :: EndedUnread(w0, evs, i, n, t, j) && w.jobs[j].core.winner == Some(t)
  {
    var c := w.jobs[j].core;
    assert CoreOk(c) && JobTraced(w0, evs, j, w.jobs[j]);
    if c.winner.Some? && !c.settled {
      var i, n :| EndedUnread(w0, evs, i, n, c.winner.value, j);
    }
  }

  /** Money is never invisible to the database. The ledger only ever holds the job's own result rows. A job in the table
      is live, and then every counter's database sum includes its ceiling; or every distinct item is in the ledger and
      the stored counts and cost are the totals of those rows; or some event of the run told why there was nothing to
      read - the upstream refused the create, or the very answer after which the finish followed said that the provider,
      the submission, the job or its results are gone. */
  lemma {:induction false} MoneyVisible(amounts: map<Key, int>, evs: seq<Event>, j: JobId)
    requires j < |Run(Start(amounts), evs).jobs| && Run(Start(amounts), evs).jobs[j].core.row.Some?
    ensures var w := Run(Start(amounts), evs);
            var c := w.jobs[j].core;
            && (forall i :: i in c.ledger ==> i in c.results && c.ledger[i] == c.results[i])
            && (Live(c.row) ==> forall k :: k in c.keys ==> DbSum(w.jobs, k) >= Cost(c))
            && (Terminal(c.row) ==>
                  || Recorded(c)
                  || (exists i :: RefusedAt(Start(amounts), evs, i, j))
                  || (exists i: nat, n: nat, t: nat :: EndedUnread(Start(amounts), evs, i, n, t, j) && c.winner == Some(t)))
  {
    RunKeeps(Start(amounts), evs);
    RunTraced(amounts, evs);
    var w := Run(Start(amounts), evs);
    if Terminal(w.jobs[j].core.row) {
      TerminalRecorded(Start(amounts), evs, w, j);
    }
    forall k | k in w.jobs[j].core.keys && Live(w.jobs[j].core.row)
      ensures DbSum(w.jobs, k) >= Cost(w.jobs[j].core)
    {
      CountedInSum(w.jobs, k, j);
    }
  }

  lemma {:induction false} SomeRowCounts(m: map<CustomId, ItemRow>)
    ensures TotalsOf(m) == ZERO <==> m == map[]
  {
  }

  /** The counts and cost a finish stores are those of the job's ledger rows if and only if it had read the results to
      their end, or nothing of the job was ever recorded: a finish without results stores zeros, also when earlier
      attempts, or the same one, had recorded rows before the results were gone. */
  lemma {:induction false} StoredTotalsIff(amounts: map<Key, int>, evs: seq<Event>, j: JobId)
    requires var w := Run(Start(amounts), evs); j < |w.jobs| && w.jobs[j].core.row.Some? && w.jobs[j].core.winner.Some?
    ensures var c := Run(Start(amounts), evs).jobs[j].core;
            && (Stored(c.row.value) == TotalsOf(c.ledger) <==> c.settled || c.ledger == map[])
            && (!c.settled ==> Stored(c.row.value) == ZERO)
  {
    RunKeeps(Start(amounts), evs);
    var c := Run(Start(amounts), evs).jobs[j].core;
    assert CoreOk(c);
    SomeRowCounts(c.ledger);
  }
}
