/** How the status of an ended job comes about in a run of the batch protocol: the event that reported it, and the event
    that stored it. */
module BatchOutcomes {
  import opened Options
  import opened BatchJobs
  import opened BatchProtocol
  import opened BatchSafety
  import opened BatchEndings

  // ---- what an answer means ----

  /** The answer tells the task that its job is over, with this status and error kind: the provider is gone, the
      submission was never listed, the upstream does not know the job, or it reports a final status. A final status stands
      unless it is a cancellation or the job was already being cancelled. */
  predicate Says(tk: Task, answer: Reply, status: Status, kind: Option<string>) {
    || (tk.Advance? && answer.Gone? && status == Failed && kind == Some("provider_missing"))
    || (tk.Listing? && answer == Absent(true) && status == Failed
        && kind == Some(if tk.row.cancelRequested then "submit_lost" else "submit_unresolved"))
    || (tk.Probing? && answer == Lost(true) && status == Expired && kind == None)
    || (tk.Probing? && answer == Lost(false) && status == Failed && kind == Some("submit_lost"))
    || (tk.Probing? && answer.Viewed? && answer.status.Some? && Reports(tk.row, answer.status.value, status) && kind == None)
  }

  predicate Reports(row: Job, view: Status, status: Status) {
    IsTerminal(view) && status == if view.Cancelled? || row.status.Cancelling? then Cancelled else view
  }

  /** Where a task that has been told stands: about to hold the job, reading its results, or about to settle it. */
  predicate Means(tk: Task, status: Status, kind: Option<string>) {
    || ((tk.Holding? || tk.Settling?) && Reports(tk.row, tk.verdict, status) && kind == None)
    || (tk.Finishing? && status == tk.status && kind == tk.errorKind)
  }

  predicate IsTold(tk: Task) { tk.Holding? || tk.Settling? || tk.Finishing? }

  /** In state `w` the answer says so to task `t`, which is at job `j`. */
  predicate SaysTo(w: World, t: nat, j: JobId, answer: Reply, status: Status, kind: Option<string>) {
    t in w.tasks && w.tasks[t].job == j && Says(w.tasks[t], answer, status, kind)
  }

  /** Event `i` said so to task `t`. */
  ghost predicate SaidAt(w0: World, evs: seq<Event>, i: nat, t: nat, j: JobId, status: Status, kind: Option<string>) {
    i < |evs| && evs[i].TaskStep? && evs[i].t == t && SaysTo(Run(w0, evs[..i]), t, j, evs[i].answer, status, kind)
  }

  /** The job was live before the event and is over after it, at this time, with this status and error kind. */
  ghost predicate EndsWith(w: World, ev: Event, j: JobId, status: Status, kind: Option<string>, now: int) {
    && j < |w.jobs| && Live(w.jobs[j].core.row) && j < |Step(w, ev).jobs| && Closed(Step(w, ev).jobs[j].core.row, status, kind, now)
  }

  predicate Closed(row: Option<Job>, status: Status, kind: Option<string>, now: int) {
    && row.Some? && IsTerminal(status) && row.value.status == status && row.value.errorKind == kind && row.value.terminalAt == Some(now)
  }

  /** Event `i` told task `t` how the job ended, and event `n`, a later step of that task, stored exactly that. */
  ghost predicate StoredAt(w0: World, evs: seq<Event>, i: nat, n: nat, t: nat, j: JobId, status: Status, kind: Option<string>) {
    && i < n < |evs| && SaidAt(w0, evs, i, t, j, status, kind)
    && evs[n].TaskStep? && evs[n].t == t && EndsWith(Run(w0, evs[..n]), evs[n], j, status, kind, evs[n].now)
  }

  /** Event `n` stored the job as failed, for the reason the submitter gave. */
  ghost predicate FailedAt(w0: World, evs: seq<Event>, n: nat, j: JobId) {
    && n < |evs| && evs[n].SubStep? && evs[n].j == j && EndsWith(Run(w0, evs[..n]), evs[n], j, Failed, Some(evs[n].kind), evs[n].now)
  }

  // ---- one step ----

  /** A task that has been told was told by this answer, or still means what it meant. */
  lemma {:induction false} StepMeans(c: Core, t: nat, tk: Task, answer: Reply, now: int, status: Status, kind: Option<string>)
    requires TaskOk(c, t, tk)
    requires var n := StepTask(c, t, tk, answer, now).next; n.Some? && Means(n.value, status, kind)
    ensures Says(tk, answer, status, kind) || Means(tk, status, kind)
  {
    if tk.Holding? {
      HoldMeans(c, t, tk, status, kind);
    }
  }

  lemma {:induction false} HoldMeans(c: Core, t: nat, tk: Task, status: Status, kind: Option<string>)
    requires TaskOk(c, t, tk) && tk.Holding?
    requires var n := StepHolding(c, tk.job, tk.row, tk.verdict).next; n.Some? && Means(n.value, status, kind)
    ensures Means(tk, status, kind)
  {
    HoldingSettles(c, t, tk);
  }

  /** A winning finish stores what it means. */
  lemma {:induction false} FinishStores(c: Core, t: nat, tk: Task, now: int)
    requires CoreOk(c) && TaskOk(c, t, tk) && tk.Finishing?
    ensures var b := StepFinishing(c, t, tk.job, tk.status, tk.errorKind, tk.totals, tk.readable, now).core;
            b == c || (Live(c.row) && Closed(b.row, tk.status, tk.errorKind, now))
  {
  }

  /** A job that its submitter's `fail` ended carries the submitter's reason. */
  lemma {:induction false} RejectStores(e: Entry, reserved: bool, kind: string, now: int)
    requires CoreOk(e.core)
    ensures var b := Reject(e, reserved, kind, now).core;
            b == e.core || (Live(e.core.row) && Closed(b.row, Failed, Some(kind), now))
  {
  }

  // ---- every run ----

  ghost predicate TaskSaid(w0: World, evs: seq<Event>, t: nat, tk: Task) {
    IsTold(tk) ==> exists i, status, kind :: SaidAt(w0, evs, i, t, tk.job, status, kind) && Means(tk, status, kind)
  }

  /** Every task that is ending its job has been told how. */
  ghost predicate TasksSaid(w0: World, evs: seq<Event>, w: World) {
    forall t :: t in w.tasks ==> TaskSaid(w0, evs, t, w.tasks[t])
  }

  /** Every job that was ended has the events to show for it. */
  ghost predicate JobStored(w0: World, evs: seq<Event>, j: JobId, e: Entry) {
    && (e.core.winner.Some? ==> exists i, n, status, kind :: StoredAt(w0, evs, i, n, e.core.winner.value, j, status, kind))
    && (e.core.failWon ==> exists n :: FailedAt(w0, evs, n, j))
  }

  ghost predicate JobsStored(w0: World, evs: seq<Event>, w: World) {
    forall j :: 0 <= j < |w.jobs| ==> JobStored(w0, evs, j, w.jobs[j])
  }

  lemma {:induction false} StillSaid(w0: World, init: seq<Event>, ev: Event, i: nat, t: nat, j: JobId, status: Status, kind: Option<string>)
    requires SaidAt(w0, init, i, t, j, status, kind)
    ensures SaidAt(w0, init + [ev], i, t, j, status, kind)
  {
    PrefixOf(init, ev, i);
  }

  lemma {:induction false} TaskStays(w0: World, init: seq<Event>, ev: Event, t: nat, tk: Task)
    requires TaskSaid(w0, init, t, tk)
    ensures TaskSaid(w0, init + [ev], t, tk)
  {
    if IsTold(tk) {
      var i, status, kind :| SaidAt(w0, init, i, t, tk.job, status, kind) && Means(tk, status, kind);
      StillSaid(w0, init, ev, i, t, tk.job, status, kind);
    }
  }

  lemma {:induction false} StillStored(w0: World, init: seq<Event>, ev: Event, i: nat, n: nat, t: nat, j: JobId, status: Status, kind: Option<string>)
    requires StoredAt(w0, init, i, n, t, j, status, kind)
    ensures StoredAt(w0, init + [ev], i, n, t, j, status, kind)
  {
    StillSaid(w0, init, ev, i, t, j, status, kind);
    PrefixOf(init, ev, n);
  }

  lemma {:induction false} StillFailed(w0: World, init: seq<Event>, ev: Event, n: nat, j: JobId)
    requires FailedAt(w0, init, n, j)
    ensures FailedAt(w0, init + [ev], n, j)
  {
    PrefixOf(init, ev, n);
  }

  /** A job whose outcome a step leaves alone. */
  lemma {:induction false} JobStays(w0: World, init: seq<Event>, ev: Event, j: JobId, a: Entry, b: Entry)
    requires JobStored(w0, init, j, a) && b.core.winner == a.core.winner && b.core.failWon == a.core.failWon
    ensures JobStored(w0, init + [ev], j, b)
  {
    if a.core.winner.Some? {
      var i, n, status, kind :| StoredAt(w0, init, i, n, a.core.winner.value, j, status, kind);
      StillStored(w0, init, ev, i, n, a.core.winner.value, j, status, kind);
    }
    if a.core.failWon {
      var n :| FailedAt(w0, init, n, j);
      StillFailed(w0, init, ev, n, j);
    }
  }

  lemma {:induction false} AllStay(w0: World, init: seq<Event>, ev: Event, w: World, w': World)
    requires TasksSaid(w0, init, w) && JobsStored(w0, init, w)
    requires forall t :: t in w'.tasks && IsTold(w'.tasks[t]) ==> t in w.tasks && w.tasks[t] == w'.tasks[t]
    requires |w'.jobs| == |w.jobs|
    requires forall j :: 0 <= j < |w.jobs| ==>
               w'.jobs[j].core.winner == w.jobs[j].core.winner && w'.jobs[j].core.failWon == w.jobs[j].core.failWon
    ensures TasksSaid(w0, init + [ev], w') && JobsStored(w0, init + [ev], w')
  {
    forall t | t in w'.tasks
      ensures TaskSaid(w0, init + [ev], t, w'.tasks[t])
    {
      if IsTold(w'.tasks[t]) {
        TaskStays(w0, init, ev, t, w.tasks[t]);
      }
    }
    forall j | 0 <= j < |w'.jobs|
      ensures JobStored(w0, init + [ev], j, w'.jobs[j])
    {
      JobStays(w0, init, ev, j, w.jobs[j], w'.jobs[j]);
    }
  }

  /** The task that has just been told. */
  lemma {:induction false} SaidNow(w0: World, init: seq<Event>, ev: Event, j: JobId, tk: Task, status: Status, kind: Option<string>)
    requires ev.TaskStep? && SaysTo(Run(w0, init), ev.t, j, ev.answer, status, kind) && tk.job == j && Means(tk, status, kind)
    ensures TaskSaid(w0, init + [ev], ev.t, tk)
  {
    PrefixOf(init, ev, |init|);
    assert init[..|init|] == init;
    assert SaidAt(w0, init + [ev], |init|, ev.t, j, status, kind);
  }

  /** What a told task means. */
  function StatusOf(tk: Task): Status
    requires IsTold(tk)
  {
    if tk.Finishing? then tk.status else if tk.verdict.Cancelled? || tk.row.status.Cancelling? then Cancelled else tk.verdict
  }

  function KindOf(tk: Task): Option<string> { if tk.Finishing? then tk.errorKind else None }

  lemma {:induction false} MeansOf(c: Core, t: nat, tk: Task)
    requires TaskOk(c, t, tk) && IsTold(tk)
    ensures Means(tk, StatusOf(tk), KindOf(tk)) && IsTerminal(StatusOf(tk))
    ensures forall status, kind :: Means(tk, status, kind) ==> status == StatusOf(tk) && kind == KindOf(tk)
  {
  }

  /** A task after its own step. */
  lemma {:induction false} NextSaid(w0: World, init: seq<Event>, ev: Event, w: World, out: TaskOut)
    requires w == Run(w0, init) && Inv(w) && ev.TaskStep? && ev.t in w.tasks && TaskSaid(w0, init, ev.t, w.tasks[ev.t])
    requires var j := w.tasks[ev.t].job; out == StepTask(w.jobs[j].core, ev.t, w.tasks[ev.t], ev.answer, ev.now)
    ensures out.next.Some? ==> TaskSaid(w0, init + [ev], ev.t, out.next.value)
  {
    var tk := w.tasks[ev.t];
    var c := w.jobs[tk.job].core;
    TaskKeeps(c, ev.t, tk, ev.answer, ev.now);
    if out.next.Some? && IsTold(out.next.value) {
      var next := out.next.value;
      MeansOf(out.core, ev.t, next);
      StepMeans(c, ev.t, tk, ev.answer, ev.now, StatusOf(next), KindOf(next));
      if Says(tk, ev.answer, StatusOf(next), KindOf(next)) {
        SaidNow(w0, init, ev, tk.job, next, StatusOf(next), KindOf(next));
      } else {
        MeansOf(c, ev.t, tk);
        var i, status, kind :| SaidAt(w0, init, i, ev.t, tk.job, status, kind) && Means(tk, status, kind);
        StillSaid(w0, init, ev, i, ev.t, tk.job, status, kind);
      }
    }
  }

  lemma {:induction false} TaskTasksSaid(w0: World, init: seq<Event>, ev: Event, w: World, out: TaskOut)
    requires w == Run(w0, init) && Inv(w) && ev.TaskStep? && ev.t in w.tasks && TasksSaid(w0, init, w)
    requires var j := w.tasks[ev.t].job; out == StepTask(w.jobs[j].core, ev.t, w.tasks[ev.t], ev.answer, ev.now)
    ensures TasksSaid(w0, init + [ev], ApplyTask(w, ev.t, w.tasks[ev.t].job, out))
  {
    var w' := ApplyTask(w, ev.t, w.tasks[ev.t].job, out);
    NextSaid(w0, init, ev, w, out);
    forall t | t in w'.tasks
      ensures TaskSaid(w0, init + [ev], t, w'.tasks[t])
    {
      if t != ev.t {
        TaskStays(w0, init, ev, t, w.tasks[t]);
      }
    }
  }

  /** The step that ends a job. */
  lemma {:induction false} StoredNow(w0: World, init: seq<Event>, ev: Event, w: World, j: JobId, b: Entry)
    requires w == Run(w0, init) && Inv(w) && ev.TaskStep? && ev.t in w.tasks && w.tasks[ev.t].job == j < |w.jobs|
    requires TasksSaid(w0, init, w) && JobStored(w0, init, j, w.jobs[j]) && w.tasks[ev.t].Finishing?
    requires j < |Step(w, ev).jobs| && b == Step(w, ev).jobs[j]
    requires b.core.winner == Some(ev.t) && b.core.failWon == w.jobs[j].core.failWon && Live(w.jobs[j].core.row)
    requires Closed(b.core.row, w.tasks[ev.t].status, w.tasks[ev.t].errorKind, ev.now)
    ensures JobStored(w0, init + [ev], j, b)
  {
    var tk := w.tasks[ev.t];
    assert TaskSaid(w0, init, ev.t, tk);
    var i, status, kind :| SaidAt(w0, init, i, ev.t, j, status, kind) && Means(tk, status, kind);
    StillSaid(w0, init, ev, i, ev.t, j, status, kind);
    PrefixOf(init, ev, |init|);
    assert init[..|init|] == init;
    assert StoredAt(w0, init + [ev], i, |init|, ev.t, j, status, kind);
    assert CoreOk(w.jobs[j].core);
  }

  lemma {:induction false} Won(w: World, ev: Event, out: TaskOut)
    requires Inv(w) && ev.TaskStep? && ev.t in w.tasks
    requires var j := w.tasks[ev.t].job; out == StepTask(w.jobs[j].core, ev.t, w.tasks[ev.t], ev.answer, ev.now)
    ensures var a, b, tk := w.jobs[w.tasks[ev.t].job].core, out.core, w.tasks[ev.t];
            && b.failWon == a.failWon
            && (b.winner == a.winner
                || (tk.Finishing? && b.winner == Some(ev.t) && Live(a.row) && Closed(b.row, tk.status, tk.errorKind, ev.now)))
  {
    var tk := w.tasks[ev.t];
    var c := w.jobs[tk.job].core;
    WinnerReason(c, ev.t, tk, ev.answer, ev.now);
    if tk.Finishing? {
      FinishStores(c, ev.t, tk, ev.now);
    }
  }

  lemma {:induction false} TaskJobsStored(w0: World, init: seq<Event>, ev: Event, w: World, out: TaskOut)
    requires w == Run(w0, init) && Inv(w) && ev.TaskStep? && ev.t in w.tasks
    requires TasksSaid(w0, init, w) && JobsStored(w0, init, w)
    requires var j := w.tasks[ev.t].job; out == StepTask(w.jobs[j].core, ev.t, w.tasks[ev.t], ev.answer, ev.now)
    requires Step(w, ev) == ApplyTask(w, ev.t, w.tasks[ev.t].job, out)
    ensures JobsStored(w0, init + [ev], ApplyTask(w, ev.t, w.tasks[ev.t].job, out))
  {
    var i := w.tasks[ev.t].job;
    var w' := ApplyTask(w, ev.t, i, out);
    Won(w, ev, out);
    forall j | 0 <= j < |w'.jobs|
      ensures JobStored(w0, init + [ev], j, w'.jobs[j])
    {
      if j != i || w'.jobs[i].core.winner == w.jobs[i].core.winner {
        JobStays(w0, init, ev, j, w.jobs[j], w'.jobs[j]);
      } else {
        StoredNow(w0, init, ev, w, j, w'.jobs[j]);
      }
    }
  }

  /** A submitter's step ends its job only by its `fail`. */
  lemma {:induction false} SubOutcomes(e: Entry, reply: SubReply, admits: bool, kind: string, now: int)
    requires CoreOk(e.core)
    ensures var b := StepSub(e, reply, admits, kind, now).core;
            && b.winner == e.core.winner
            && (b.failWon == e.core.failWon || (b.failWon && Live(e.core.row) && Closed(b.row, Failed, Some(kind), now)))
  {
    if !WritesRow(e.sub) {
      SubShape(e, reply, admits, kind, now);
    } else if e.sub.Rejected? {
      RejectStores(e, e.sub.reserved, kind, now);
    }
  }

  lemma {:induction false} FailedNow(w0: World, init: seq<Event>, ev: Event, w: World, a: Entry, b: Entry)
    requires w == Run(w0, init) && ev.SubStep? && ev.j < |w.jobs| && w.jobs[ev.j] == a
    requires ev.j < |Step(w, ev).jobs| && b == Step(w, ev).jobs[ev.j] && JobStored(w0, init, ev.j, a)
    requires b.core.winner == a.core.winner && Live(a.core.row) && Closed(b.core.row, Failed, Some(ev.kind), ev.now)
    ensures JobStored(w0, init + [ev], ev.j, b)
  {
    PrefixOf(init, ev, |init|);
    assert init[..|init|] == init;
    assert FailedAt(w0, init + [ev], |init|, ev.j);
    if a.core.winner.Some? {
      var i, n, status, kind :| StoredAt(w0, init, i, n, a.core.winner.value, ev.j, status, kind);
      StillStored(w0, init, ev, i, n, a.core.winner.value, ev.j, status, kind);
    }
  }

  lemma {:induction false} SubStored(w0: World, init: seq<Event>, ev: Event, w: World, w': World)
    requires w == Run(w0, init) && Inv(w) && ev.SubStep? && ev.j < |w.jobs| && w' == Step(w, ev)
    requires TasksSaid(w0, init, w) && JobsStored(w0, init, w)
    requires w' == ApplySub(w, ev.j, SubOutcome(w, w.jobs[ev.j], ev.reply, ev.kind, ev.now))
    ensures TasksSaid(w0, init + [ev], w') && JobsStored(w0, init + [ev], w')
  {
    var e := w.jobs[ev.j];
    SubOutcomes(e, ev.reply, Admits(w, Cost(e.core), NextKey(e)), ev.kind, ev.now);
    forall t | t in w'.tasks
      ensures TaskSaid(w0, init + [ev], t, w'.tasks[t])
    {
      TaskStays(w0, init, ev, t, w.tasks[t]);
    }
    forall j | 0 <= j < |w'.jobs|
      ensures JobStored(w0, init + [ev], j, w'.jobs[j])
    {
      if j != ev.j || w'.jobs[j].core.failWon == e.core.failWon {
        JobStays(w0, init, ev, j, w.jobs[j], w'.jobs[j]);
      } else {
        FailedNow(w0, init, ev, w, e, w'.jobs[j]);
      }
    }
  }

  lemma {:induction false} InsertStored(w0: World, init: seq<Event>, ev: Event, w: World, w': World)
    requires TasksSaid(w0, init, w) && JobsStored(w0, init, w) && ev.Insert?
    requires w' == w || (w'.tasks == w.tasks && w'.jobs == w.jobs + [NewEntry(ev.job, ev.keys, ev.results)])
    ensures TasksSaid(w0, init + [ev], w') && JobsStored(w0, init + [ev], w')
  {
    forall t | t in w'.tasks
      ensures TaskSaid(w0, init + [ev], t, w'.tasks[t])
    {
      TaskStays(w0, init, ev, t, w.tasks[t]);
    }
    forall j | 0 <= j < |w'.jobs|
      ensures JobStored(w0, init + [ev], j, w'.jobs[j])
    {
      if j < |w.jobs| {
        JobStays(w0, init, ev, j, w.jobs[j], w'.jobs[j]);
      }
    }
  }

  lemma {:induction false} IdleStored(w0: World, init: seq<Event>, ev: Event, w: World)
    requires TasksSaid(w0, init, w) && JobsStored(w0, init, w)
    requires (ev.SubStep? && ev.j >= |w.jobs|) || (ev.TaskStep? && ev.t !in w.tasks)
    ensures TasksSaid(w0, init + [ev], Step(w, ev)) && JobsStored(w0, init + [ev], Step(w, ev))
  {
    AllStay(w0, init, ev, w, w);
  }

  lemma {:induction false} SimpleStored(w0: World, init: seq<Event>, ev: Event, w: World, w': World)
    requires TasksSaid(w0, init, w) && JobsStored(w0, init, w) && Simple(w, w')
    ensures TasksSaid(w0, init + [ev], w') && JobsStored(w0, init + [ev], w')
  {
    AllStay(w0, init, ev, w, w');
  }

  lemma {:induction false} OtherStored(w0: World, init: seq<Event>, ev: Event, w: World)
    requires TasksSaid(w0, init, w) && JobsStored(w0, init, w) && !ev.Insert? && !ev.SubStep? && !ev.TaskStep?
    ensures TasksSaid(w0, init + [ev], Step(w, ev)) && JobsStored(w0, init + [ev], Step(w, ev))
  {
    SimpleShape(w, ev);
    SimpleStored(w0, init, ev, w, Step(w, ev));
  }

  lemma {:induction false} StepStored(w0: World, init: seq<Event>, ev: Event, w: World)
    requires w == Run(w0, init) && Inv(w) && TasksSaid(w0, init, w) && JobsStored(w0, init, w)
    ensures TasksSaid(w0, init + [ev], Step(w, ev)) && JobsStored(w0, init + [ev], Step(w, ev))
  {
    if ev.SubStep? && ev.j < |w.jobs| {
      SubStored(w0, init, ev, w, Step(w, ev));
    } else if ev.TaskStep? && ev.t in w.tasks {
      var out := StepTask(w.jobs[w.tasks[ev.t].job].core, ev.t, w.tasks[ev.t], ev.answer, ev.now);
      TaskTasksSaid(w0, init, ev, w, out);
      TaskJobsStored(w0, init, ev, w, out);
    } else if ev.Insert? {
      InsertStored(w0, init, ev, w, Step(w, ev));
    } else if ev.SubStep? || ev.TaskStep? {
      IdleStored(w0, init, ev, w);
    } else {
      OtherStored(w0, init, ev, w);
    }
  }

  lemma {:induction false} LastStored(w0: World, evs: seq<Event>, init: seq<Event>, w: World)
    requires evs != [] && init == evs[..|evs| - 1] && w == Run(w0, init) && Inv(w) && TasksSaid(w0, init, w) && JobsStored(w0, init, w)
    ensures TasksSaid(w0, evs, Run(w0, evs)) && JobsStored(w0, evs, Run(w0, evs))
  {
    assert evs == init + [evs[|evs| - 1]];
    StepStored(w0, init, evs[|evs| - 1], w);
  }

  lemma {:induction false} NothingStored(w: World)
    requires w.tasks == map[] && w.jobs == []
    ensures TasksSaid(w, [], w) && JobsStored(w, [], w)
  {
  }

  lemma {:induction false} RunStored(amounts: map<Key, int>, evs: seq<Event>)
    ensures var w := Run(Start(amounts), evs); TasksSaid(Start(amounts), evs, w) && JobsStored(Start(amounts), evs, w)
    decreases |evs|
  {
    if evs == [] {
      NothingStored(Start(amounts));
    } else {
      var init := evs[..|evs| - 1];
      RunStored(amounts, init);
      RunKeeps(Start(amounts), init);
      LastStored(Start(amounts), evs, init, Run(Start(amounts), init));
    }
  }

  /** Every job that is over was ended by one event, which stored what the run had been told: a poller task's finish the
      status and error kind of an earlier answer to that very task, a submitter's `fail` the submitter's reason. */
  lemma {:induction false} EndingsAreReported(amounts: map<Key, int>, evs: seq<Event>, j: JobId)
    requires var w := Run(Start(amounts), evs); j < |w.jobs| && Terminal(w.jobs[j].core.row)
    ensures (exists i: nat, n: nat, t: nat, status, kind :: StoredAt(Start(amounts), evs, i, n, t, j, status, kind)
                                                          && Run(Start(amounts), evs).jobs[j].core.winner == Some(t))
            || (exists n: nat :: FailedAt(Start(amounts), evs, n, j))
  {
    RunKeeps(Start(amounts), evs);
    RunStored(amounts, evs);
    EndedIsStored(Start(amounts), evs, Run(Start(amounts), evs), j);
  }

  lemma {:induction false} EndedIsStored(w0: World, evs: seq<Event>, w: World, j: JobId)
    requires Inv(w) && JobsStored(w0, evs, w) && j < |w.jobs| && Terminal(w.jobs[j].core.row)
    ensures (exists i: nat, n: nat, t: nat, status, kind :: StoredAt(w0, evs, i, n, t, j, status, kind) && w.jobs[j].core.winner == Some(t))
            || (exists n: nat :: FailedAt(w0, evs, n, j))
  {
    var c := w.jobs[j].core;
    assert CoreOk(c) && JobStored(w0, evs, j, w.jobs[j]);
    if c.winner.Some? {
      var i, n, status, kind :| StoredAt(w0, evs, i, n, c.winner.value, j, status, kind);
    }
  }
}
