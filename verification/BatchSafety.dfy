/** What every run of the batch protocol keeps: a job becomes terminal once, its ceiling is released by at
    most one finish, and its status stands. */
module BatchSafety {
  import opened Options
  import opened ItemTotals
  import opened BatchJobs
  import opened BatchProtocol

  function Stored(j: Job): Totals { Totals(j.completed, j.failed, j.settledCost.GetOr(0)) }

  // ---- the invariant ----

  predicate RowInv(c: Core) {
    && (c.row.Some? ==> RowOk(c.row.value) && c.row.value.ceiling == c.ceiling)
    && (c.row.Some? && c.row.value.status.Submitting? ==> c.row.value.upstreamId.None?)
    && (Terminal(c.row) <==> c.winner.Some? || c.failWon)
    && !(c.winner.Some? && c.failWon)
  }

  ghost predicate LedgerInv(c: Core) {
    && (forall i :: i in c.ledger ==> i in c.results && c.ledger[i] == c.results[i])
    && (c.settled ==> c.winner.Some? && c.row.Some? && c.ledger == c.results && Stored(c.row.value) == TotalsOf(c.results))
    && (c.winner.Some? && !c.settled && c.row.Some? ==> Stored(c.row.value) == ZERO)
  }

  predicate FinInv(c: Core) { c.finReleased <= c.keys && (c.finReleased != [] ==> c.winner.Some?) }

  ghost predicate CoreOk(c: Core) { NoDup(c.keys) && RowInv(c) && LedgerInv(c) && FinInv(c) }

  /** Once the snapshot had an upstream id, so has the row. */
  predicate Identified(c: Core, row: Job) { row.upstreamId.Some? && c.row.Some? ==> c.row.value.upstreamId.Some? }

  ghost predicate TaskOk(c: Core, t: nat, tk: Task) {
    match tk
    case Advance(_, row) => Identified(c, row)
    case PollCancel(_, row) => row.upstreamId.Some? && Identified(c, row)
    case Probing(_, row) => row.upstreamId.Some? && Identified(c, row)
    case Patching(_, view, _) => !IsTerminal(view)
    case Holding(_, row, verdict) => IsTerminal(verdict) && row.upstreamId.Some? && Identified(c, row)
    case Settling(_, _, verdict, flushed) => IsTerminal(verdict) && flushed <= c.ledger.Keys && flushed <= c.results.Keys
    case Finishing(_, status, _, totals, readable) =>
      && IsTerminal(status)
      && (readable ==> c.ledger == c.results && totals == TotalsOf(c.results))
      && (!readable ==> totals == ZERO)
    case FinReleasing(_, at) => c.winner == Some(t) && at < |c.keys| && c.finReleased == c.keys[..at]
    case _ => true
  }

  ghost predicate Inv(w: World) {
    && (forall j :: 0 <= j < |w.jobs| ==> CoreOk(w.jobs[j].core))
    && (forall t :: t in w.tasks ==> w.tasks[t].job < |w.jobs| && TaskOk(w.jobs[w.tasks[t].job].core, t, w.tasks[t]))
  }

  /** How a job's row and outcome may evolve over one step. */
  predicate RowEvolves(a: Core, b: Core) {
    && (Terminal(a.row) ==>
          Terminal(b.row) && b.failWon == a.failWon && b.winner == a.winner
          && b.row.value.terminalAt == a.row.value.terminalAt && Stored(b.row.value) == Stored(a.row.value))
    && (a.row.Some? && b.row.Some? && a.row.value.cancelRequested ==> b.row.value.cancelRequested)
    && (a.row.Some? && b.row.Some? && a.row.value.upstreamId.Some? ==> b.row.value.upstreamId.Some?)
    && (a.row.Some? && b.row.Some? && !a.row.value.status.Submitting? ==> !b.row.value.status.Submitting?)
    && (a.row.Some? && b.row.Some? ==> SameIdentity(a.row.value, b.row.value))
    && (a.row.None? ==> b.row.None?)
  }

  ghost predicate Evolves(a: Core, b: Core) {
    && RowEvolves(a, b)
    && b.keys == a.keys && b.ceiling == a.ceiling && b.results == a.results && a.ledger.Keys <= b.ledger.Keys
    && (Terminal(a.row) ==> b.settled == a.settled)
  }

  // ---- one job ----

  /** Writing the row, and only it. */
  lemma {:induction false} RowKeeps(a: Core, b: Core)
    requires CoreOk(a) && b == a.(row := b.row, failWon := b.failWon) && RowInv(b) && RowEvolves(a, b)
    ensures CoreOk(b) && Evolves(a, b)
  {
  }

  lemma {:induction false} UpdateKeeps(c: Core, p: Patch, when: Option<set<Status>>)
    requires CoreOk(c) && p.cancelRequested != Some(false) && p.status != Some(Submitting) && (p.upstreamId.Some? ==> p.status.Some?)
    requires when == Some(POLLABLE) || when == Some({Submitting}) || when == Some(CANCELLABLE) || (p.completed.None? && p.failed.None?)
    ensures CoreOk(Updated(c, p, when)) && Evolves(c, Updated(c, p, when))
  {
    if c.row.Some? {
      TerminalAbsorbs(c.row, p, when);
    }
    RowKeeps(c, Updated(c, p, when));
  }

  predicate WritesRow(s: Submitter) { s.Discarding? || s.Persisting? || s.Rejected? }

  /** Reserving, rolling back and releasing leave the row and its outcome alone. */
  lemma {:induction false} SubShape(e: Entry, reply: SubReply, admits: bool, kind: string, now: int)
    requires !WritesRow(e.sub)
    ensures StepSub(e, reply, admits, kind, now).core == e.core
  {
  }

  lemma {:induction false} SubKeeps(e: Entry, reply: SubReply, admits: bool, kind: string, now: int)
    requires CoreOk(e.core)
    ensures var b := StepSub(e, reply, admits, kind, now).core; CoreOk(b) && Evolves(e.core, b) && b.finReleased == e.core.finReleased
  {
    if !WritesRow(e.sub) {
      SubShape(e, reply, admits, kind, now);
    } else if e.sub.Persisting? {
      UpdateKeeps(e.core, PersistPatch(e.sub.upstreamId, e.sub.status), Some({Submitting}));
    } else if e.sub.Discarding? {
      RowKeeps(e.core, Discard(e.core));
    } else {
      RejectKeeps(e, e.sub.reserved, kind, now);
    }
  }

  lemma {:induction false} RejectKeeps(e: Entry, reserved: bool, kind: string, now: int)
    requires CoreOk(e.core)
    ensures var b := Reject(e, reserved, kind, now).core; CoreOk(b) && Evolves(e.core, b) && b.finReleased == e.core.finReleased
  {
    RowKeeps(e.core, Reject(e, reserved, kind, now).core);
  }

  lemma {:induction false} SettlingKeeps(c: Core, t: nat, tk: Task, answer: Reply)
    requires CoreOk(c) && tk.Settling? && TaskOk(c, t, tk)
    ensures var out := StepSettling(c, tk.job, tk.row, tk.verdict, tk.flushed, answer);
            CoreOk(out.core) && Evolves(c, out.core) && out.core.finReleased == c.finReleased
            && (out.next.Some? ==> TaskOk(out.core, t, out.next.value))
  {
    if answer.Flushed? {
      FlushKeeps(c, answer.ids, tk.flushed);
    } else if answer.Ok? && tk.flushed == c.results.Keys {
      assert c.ledger == c.results;
    }
  }

  /** A flush adds the job's own rows, and the ledger then holds everything flushed so far. */
  lemma {:induction false} FlushKeeps(c: Core, ids: set<CustomId>, flushed: set<CustomId>)
    requires CoreOk(c) && flushed <= c.ledger.Keys && flushed <= c.results.Keys
    ensures var rows := Restrict(c.results, ids);
            var b := c.(ledger := InsertOnce(c.ledger, rows));
            CoreOk(b) && Evolves(c, b) && flushed + rows.Keys <= b.ledger.Keys && flushed + rows.Keys <= b.results.Keys
  {
    var rows := Restrict(c.results, ids);
    var led := InsertOnce(c.ledger, rows);
    assert forall i :: i in led ==> i in c.results && led[i] == c.results[i];
    assert c.settled ==> led == c.ledger;
  }

  lemma {:induction false} FinishingKeeps(c: Core, t: nat, tk: Task, now: int)
    requires CoreOk(c) && tk.Finishing? && TaskOk(c, t, tk)
    ensures var out := StepFinishing(c, t, tk.job, tk.status, tk.errorKind, tk.totals, tk.readable, now);
            CoreOk(out.core) && Evolves(c, out.core) && out.core.finReleased == c.finReleased
            && (out.next.Some? ==> TaskOk(out.core, t, out.next.value))
  {
    var r := SettleRow(c.row, SettlementOf(tk.status, tk.errorKind, tk.totals, now), FinishGuard(tk.totals));
    if r.Written? {
      SettledKeeps(c, c.(row := Some(r.row), winner := Some(t), settled := tk.readable), t, tk, r.row);
    }
  }

  /** The row a matching settle leaves, with its winner recorded. */
  lemma {:induction false} SettledKeeps(c: Core, b: Core, t: nat, tk: Task, row: Job)
    requires CoreOk(c) && tk.Finishing? && TaskOk(c, t, tk) && c.row.Some? && c.row.value.terminalAt.None?
    requires b == c.(row := Some(row), winner := Some(t), settled := tk.readable)
    requires RowOk(row) && IsTerminal(row.status) && SameIdentity(c.row.value, row) && Stored(row) == tk.totals
    requires row.cancelRequested == c.row.value.cancelRequested && row.upstreamId == c.row.value.upstreamId
    ensures CoreOk(b) && Evolves(c, b) && c.finReleased == []
  {
    assert Live(c.row);
  }

  lemma {:induction false} FinReleasingKeeps(c: Core, t: nat, tk: Task)
    requires CoreOk(c) && tk.FinReleasing? && TaskOk(c, t, tk)
    ensures var out := StepFinReleasing(c, tk.job, tk.at);
            CoreOk(out.core) && Evolves(c, out.core) && out.core.winner == Some(t)
            && (out.next.Some? ==> TaskOk(out.core, t, out.next.value))
  {
    assert c.finReleased + [c.keys[tk.at]] == c.keys[..tk.at + 1];
  }

  predicate Reads(tk: Task) { tk.Advance? || tk.Listing? || tk.Probing? || tk.CancelLoaded? }

  lemma {:induction false} ReadingKeeps(c: Core, t: nat, tk: Task, answer: Reply, now: int)
    requires Reads(tk) && TaskOk(c, t, tk)
    ensures var out := StepTask(c, t, tk, answer, now);
            out.core == c && (out.next.Some? ==> out.next.value.job == tk.job && TaskOk(c, t, out.next.value))
  {
  }

  predicate Updates(tk: Task) {
    tk.MarkUnknown? || tk.Adopting? || tk.PollCancel? || tk.NoteUnmapped? || tk.Patching? || tk.CancelIntent? || tk.CancelAsked?
  }

  lemma {:induction false} UpdatingKeeps(c: Core, t: nat, tk: Task, answer: Reply, now: int)
    requires CoreOk(c) && TaskOk(c, t, tk) && Updates(tk)
    ensures var out := StepTask(c, t, tk, answer, now);
            CoreOk(out.core) && Evolves(c, out.core) && out.core.finReleased == c.finReleased
            && (out.next.Some? ==> tk.PollCancel? && out.next == Some(Probing(tk.job, tk.row)))
  {
    match tk
    case MarkUnknown(_) => UpdateKeeps(c, UnknownPatch(now), Some({Submitting}));
    case Adopting(_, id, st) => UpdateKeeps(c, AdoptPatch(id, st), None);
    case PollCancel(_, _) => UpdateKeeps(c, StatusPatch(Cancelling), Some(CANCELLABLE));
    case NoteUnmapped(_, row) => UpdateKeeps(c, UnmappedPatch(row, now), None);
    case Patching(_, st, counts) => UpdateKeeps(c, ViewPatch(st, counts), Some(POLLABLE));
    case CancelIntent(_) => UpdateKeeps(c, INTENT, None);
    case CancelAsked(_) => UpdateKeeps(c, CANCEL, Some(CANCELLABLE));
  }

  lemma {:induction false} HoldingKeeps(c: Core, t: nat, tk: Task)
    requires CoreOk(c) && TaskOk(c, t, tk) && tk.Holding?
    ensures var out := StepHolding(c, tk.job, tk.row, tk.verdict);
            CoreOk(out.core) && Evolves(c, out.core) && out.core.finReleased == c.finReleased
            && (out.next.Some? ==> out.next.value.Settling? && out.next.value.job == tk.job && TaskOk(out.core, t, out.next.value))
  {
    UpdateKeeps(c, HoldPatch(tk.row, tk.verdict), Some(POLLABLE));
  }

  lemma {:induction false} EndingKeeps(c: Core, t: nat, tk: Task, answer: Reply, now: int)
    requires CoreOk(c) && TaskOk(c, t, tk) && !Reads(tk) && !Updates(tk)
    ensures var out := StepTask(c, t, tk, answer, now);
            CoreOk(out.core) && Evolves(c, out.core)
            && (out.core.finReleased != c.finReleased ==> out.core.winner == Some(t))
            && (out.next.Some? ==> out.next.value.job == tk.job && TaskOk(out.core, t, out.next.value))
  {
    match tk
    case Holding(_, _, _) => HoldingKeeps(c, t, tk);
    case Settling(_, _, _, _) => SettlingKeeps(c, t, tk, answer);
    case Finishing(_, _, _, _, _) => FinishingKeeps(c, t, tk, now);
    case FinReleasing(_, _) => FinReleasingKeeps(c, t, tk);
  }

  /** A task's step keeps its job and itself in order. */
  lemma {:induction false} TaskKeeps(c: Core, t: nat, tk: Task, answer: Reply, now: int)
    requires CoreOk(c) && TaskOk(c, t, tk)
    ensures var out := StepTask(c, t, tk, answer, now);
            CoreOk(out.core) && Evolves(c, out.core)
            && (out.core.finReleased != c.finReleased ==> out.core.winner == Some(t))
            && (out.next.Some? ==> out.next.value.job == tk.job && TaskOk(out.core, t, out.next.value))
  {
    if Reads(tk) {
      ReadingKeeps(c, t, tk, answer, now);
    } else if Updates(tk) {
      UpdatingKeeps(c, t, tk, answer, now);
    } else {
      EndingKeeps(c, t, tk, answer, now);
    }
  }

  // ---- what a step leaves alone ----

  /** No submitter's step touches the keys, the ceiling or what a finish did. */
  lemma {:induction false} SubFrame(e: Entry, reply: SubReply, admits: bool, kind: string, now: int)
    ensures var c := StepSub(e, reply, admits, kind, now).core; c == e.core.(row := c.row, failWon := c.failWon)
  {
    if !WritesRow(e.sub) {
      SubShape(e, reply, admits, kind, now);
    }
  }

  predicate Framed(a: Core, b: Core) {
    && b.keys == a.keys && b.ceiling == a.ceiling && b.failWon == a.failWon && (b.row.Some? <==> a.row.Some?)
    && (b.winner == a.winner || b.winner.Some?)
  }

  /** No task's step touches the keys, the ceiling or what the submitter did, and only a finish runs a counter script. */
  lemma {:induction false} TaskFrame(c: Core, t: nat, tk: Task, answer: Reply, now: int)
    ensures var out := StepTask(c, t, tk, answer, now);
            && Framed(c, out.core)
            && (if tk.FinReleasing? && tk.at < |c.keys|
                then out.money == Releases(c.keys[tk.at]) && out.core == c.(finReleased := c.finReleased + [c.keys[tk.at]])
                else out.money.Same? && out.core.finReleased == c.finReleased)
  {
    if Updates(tk) {
      UpdateFrame(c, t, tk, answer, now);
    } else if tk.Holding? {
      HoldFrame(c, tk);
    } else if tk.Finishing? {
      FinishFrame(c, t, tk, now);
    } else if !tk.FinReleasing? {
      LookFrame(c, t, tk, answer, now);
    }
  }

  lemma {:induction false} UpdateFrame(c: Core, t: nat, tk: Task, answer: Reply, now: int)
    requires Updates(tk)
    ensures var out := StepTask(c, t, tk, answer, now); Framed(c, out.core) && out.money.Same? && out.core.finReleased == c.finReleased
  {
  }

  lemma {:induction false} HoldFrame(c: Core, tk: Task)
    requires tk.Holding?
    ensures var out := StepHolding(c, tk.job, tk.row, tk.verdict);
            Framed(c, out.core) && out.money.Same? && out.core.finReleased == c.finReleased
  {
  }

  lemma {:induction false} FinishFrame(c: Core, t: nat, tk: Task, now: int)
    requires tk.Finishing?
    ensures var out := StepFinishing(c, t, tk.job, tk.status, tk.errorKind, tk.totals, tk.readable, now);
            Framed(c, out.core) && out.money.Same? && out.core.finReleased == c.finReleased
  {
  }

  lemma {:induction false} LookFrame(c: Core, t: nat, tk: Task, answer: Reply, now: int)
    requires Reads(tk) || tk.Settling?
    ensures var out := StepTask(c, t, tk, answer, now); out.core == c.(ledger := out.core.ledger) && out.money.Same?
  {
  }

  // ---- the whole state ----

  lemma {:induction false} OtherTask(a: Core, b: Core, u: nat, tk: Task)
    requires CoreOk(a) && CoreOk(b) && Evolves(a, b) && TaskOk(a, u, tk)
    requires b.finReleased == a.finReleased || b.winner != Some(u)
    requires a.winner.Some? ==> Terminal(a.row)
    ensures TaskOk(b, u, tk)
  {
    if tk.Finishing? && tk.readable {
      assert forall i :: i in b.results ==> i in b.ledger;
      assert b.ledger == b.results;
    }
  }

  /** How the whole state may evolve: jobs are only added, and each keeps to `Evolves`. */
  ghost predicate AllEvolve(w: World, w': World) {
    |w.jobs| <= |w'.jobs| && forall j :: 0 <= j < |w.jobs| ==> Evolves(w.jobs[j].core, w'.jobs[j].core)
  }

  lemma {:induction false} JobsEvolve(w: World, w': World, j: JobId)
    requires j < |w.jobs| && |w'.jobs| == |w.jobs| && w'.jobs == w.jobs[j := w'.jobs[j]]
    requires Evolves(w.jobs[j].core, w'.jobs[j].core)
    ensures AllEvolve(w, w')
  {
  }

  /** A step that changes job `j` and at most task `t` keeps the invariant if it keeps it for those two. */
  lemma {:induction false} Local(w: World, w': World, t: Option<nat>, next: Option<Task>, j: JobId)
    requires Inv(w) && j < |w.jobs| && |w'.jobs| == |w.jobs|
    requires w'.jobs == w.jobs[j := w'.jobs[j]]
    requires w'.tasks == if t.Some? then Scheduled(w.tasks, t.value, next) else w.tasks
    requires CoreOk(w'.jobs[j].core) && Evolves(w.jobs[j].core, w'.jobs[j].core)
    requires w'.jobs[j].core.finReleased != w.jobs[j].core.finReleased ==> t.Some? && w'.jobs[j].core.winner == t
    requires t.Some? && next.Some? ==> next.value.job == j && TaskOk(w'.jobs[j].core, t.value, next.value)
    ensures Inv(w')
  {
    forall i | 0 <= i < |w'.jobs|
      ensures CoreOk(w'.jobs[i].core)
    {
      assert i != j ==> w'.jobs[i] == w.jobs[i];
    }
    forall u | u in w'.tasks
      ensures w'.tasks[u].job < |w'.jobs| && TaskOk(w'.jobs[w'.tasks[u].job].core, u, w'.tasks[u])
    {
      if t != Some(u) && w.tasks[u].job == j {
        OtherTask(w.jobs[j].core, w'.jobs[j].core, u, w.tasks[u]);
      }
    }
  }

  lemma {:induction false} ApplySubKeeps(w: World, j: JobId, out: SubOut)
    requires Inv(w) && j < |w.jobs|
    requires CoreOk(out.core) && Evolves(w.jobs[j].core, out.core) && out.core.finReleased == w.jobs[j].core.finReleased
    ensures Inv(ApplySub(w, j, out)) && AllEvolve(w, ApplySub(w, j, out))
  {
    Local(w, ApplySub(w, j, out), None, None, j);
    JobsEvolve(w, ApplySub(w, j, out), j);
  }

  lemma {:induction false} ApplyTaskKeeps(w: World, t: nat, j: JobId, out: TaskOut)
    requires Inv(w) && j < |w.jobs|
    requires CoreOk(out.core) && Evolves(w.jobs[j].core, out.core)
    requires out.core.finReleased != w.jobs[j].core.finReleased ==> out.core.winner == Some(t)
    requires out.next.Some? ==> out.next.value.job == j && TaskOk(out.core, t, out.next.value)
    ensures Inv(ApplyTask(w, t, j, out)) && AllEvolve(w, ApplyTask(w, t, j, out))
  {
    Local(w, ApplyTask(w, t, j, out), Some(t), out.next, j);
    JobsEvolve(w, ApplyTask(w, t, j, out), j);
  }

  /** Steps that write no row: reads, crashes, reconciles. */
  lemma {:induction false} SameCores(w: World, w': World)
    requires Inv(w) && Simple(w, w')
    ensures Inv(w') && AllEvolve(w, w')
  {
    forall t | t in w'.tasks
      ensures w'.tasks[t].job < |w'.jobs| && TaskOk(w'.jobs[w'.tasks[t].job].core, t, w'.tasks[t])
    {
      assert w'.jobs[w'.tasks[t].job].core == w.jobs[w'.tasks[t].job].core;
    }
    assert AllEvolve(w, w') by {
      EvolvesSelf(w.jobs);
    }
  }

  lemma {:induction false} EvolvesSelf(jobs: seq<Entry>)
    ensures forall j :: 0 <= j < |jobs| ==> Evolves(jobs[j].core, jobs[j].core)
  {
  }

  lemma {:induction false} AppendKeeps(w: World, w': World, e: Entry)
    requires Inv(w) && w'.jobs == w.jobs + [e] && w'.tasks == w.tasks && CoreOk(e.core)
    ensures Inv(w') && AllEvolve(w, w')
  {
    assert forall j :: 0 <= j < |w.jobs| ==> w'.jobs[j] == w.jobs[j];
  }

  lemma {:induction false} InsertKeeps(w: World, ev: Event)
    requires Inv(w) && ev.Insert?
    ensures Inv(Step(w, ev)) && AllEvolve(w, Step(w, ev))
  {
    if FreshRow(ev.job) && NoDup(ev.keys) {
      AppendKeeps(w, Step(w, ev), NewEntry(ev.job, ev.keys, ev.results));
    }
  }

  /** A task that has just read its job. */
  predicate Fresh(w: World, tk: Task) {
    tk.job < |w.jobs| && (tk.CancelLoaded? || (tk.Advance? && Identified(w.jobs[tk.job].core, tk.row)))
  }

  /** A step that reads, crashes or reconciles, seen from the jobs and tasks. */
  predicate Simple(w: World, w': World) {
    && |w'.jobs| == |w.jobs| && (forall j :: 0 <= j < |w.jobs| ==> w'.jobs[j].core == w.jobs[j].core)
    && (forall t :: t in w'.tasks ==> (t in w.tasks && w'.tasks[t] == w.tasks[t]) || Fresh(w, w'.tasks[t]))
  }

  lemma {:induction false} ReconcileSimple(w: World, k: Key)
    ensures Simple(w, StepReconcile(w, k))
  {
  }

  lemma {:induction false} CrashSimple(w: World, j: JobId)
    requires j < |w.jobs|
    ensures Simple(w, SetJob(w, j, w.jobs[j].(sub := Idle)))
  {
  }

  lemma {:induction false} ReadSimple(w: World, t: nat, j: JobId)
    ensures Simple(w, Step(w, PollRead(t, j)))
  {
  }

  lemma {:induction false} CancelSimple(w: World, t: nat, j: JobId)
    ensures Simple(w, Step(w, CancelRead(t, j)))
  {
  }

  lemma {:induction false} SimpleShape(w: World, ev: Event)
    requires !ev.SubStep? && !ev.TaskStep? && !ev.Insert?
    ensures Simple(w, Step(w, ev))
  {
    match ev
    case ReconcilePending(k) => ReconcileSimple(w, k);
    case SubCrash(j) => if j < |w.jobs| { CrashSimple(w, j); }
    case PollRead(t, j) => ReadSimple(w, t, j);
    case CancelRead(t, j) => CancelSimple(w, t, j);
    case TaskCrash(t) =>
    case ReconcileSpend(_, _) =>
  }

  /** Every step keeps the invariant, and no job evolves otherwise than `Evolves` says. */
  lemma {:induction false} StepKeeps(w: World, ev: Event)
    requires Inv(w)
    ensures Inv(Step(w, ev)) && AllEvolve(w, Step(w, ev))
  {
    if ev.SubStep? {
      if ev.j < |w.jobs| {
        var e := w.jobs[ev.j];
        SubKeeps(e, ev.reply, Admits(w, Cost(e.core), NextKey(e)), ev.kind, ev.now);
        ApplySubKeeps(w, ev.j, SubOutcome(w, e, ev.reply, ev.kind, ev.now));
      }
    } else if ev.TaskStep? {
      if ev.t in w.tasks {
        var j := w.tasks[ev.t].job;
        TaskKeeps(w.jobs[j].core, ev.t, w.tasks[ev.t], ev.answer, ev.now);
        ApplyTaskKeeps(w, ev.t, j, StepTask(w.jobs[j].core, ev.t, w.tasks[ev.t], ev.answer, ev.now));
      }
    } else if ev.Insert? {
      InsertKeeps(w, ev);
    } else {
      SimpleShape(w, ev);
      SameCores(w, Step(w, ev));
    }
  }

  // ---- every run ----

  /** The invariant holds in every state a run reaches. */
  lemma {:induction false} RunKeeps(w: World, evs: seq<Event>)
    requires Inv(w)
    ensures Inv(Run(w, evs))
    decreases |evs|
  {
    if evs != [] {
      RunKeeps(w, evs[..|evs| - 1]);
      StepKeeps(Run(w, evs[..|evs| - 1]), evs[|evs| - 1]);
    }
  }

  lemma {:induction false} RunCat(w: World, a: seq<Event>, b: seq<Event>)
    ensures Run(w, a + b) == Run(Run(w, a), b)
    decreases |b|
  {
    if b == [] {
      assert a + b == a;
    } else {
      RunCat(w, a, b[..|b| - 1]);
      assert (a + b)[..|a + b| - 1] == a + b[..|b| - 1];
    }
  }

  lemma {:induction false} RunThen(w: World, evs: seq<Event>, ev: Event)
    ensures Run(w, evs + [ev]) == Step(Run(w, evs), ev)
  {
    assert (evs + [ev])[..|evs|] == evs;
  }

  lemma {:induction false} RunOne(w: World, ev: Event)
    ensures Run(w, [ev]) == Step(w, ev)
  {
    assert [ev][..0] == [];
  }

  lemma {:induction false} RunFrom(w: World, ev: Event, evs: seq<Event>)
    ensures Run(w, [ev] + evs) == Run(Step(w, ev), evs)
  {
    RunOne(w, ev);
    RunCat(w, [ev], evs);
  }

  /** A job is made terminal by exactly one statement - the `settle` of one task or its submitter's `fail` - and
      nothing that happens later undoes that, changes when it happened or rewrites the counts and cost stored
      with it; a recorded cancel request is never withdrawn. */
  lemma {:induction false} TerminalOnce(amounts: map<Key, int>, evs: seq<Event>, later: seq<Event>, j: JobId)
    requires j < |Run(Start(amounts), evs).jobs|
    ensures var w := Run(Start(amounts), evs);
            var w' := Run(w, later);
            j < |w'.jobs|
            && var a, b := w.jobs[j].core, w'.jobs[j].core;
               (Terminal(a.row) <==> (a.winner.Some? || a.failWon)) && !(a.winner.Some? && a.failWon)
               && (a.row.None? ==> b.row.None?)
               && (Terminal(a.row) ==>
                     Terminal(b.row) && b.winner == a.winner && b.failWon == a.failWon
                     && b.row.value.terminalAt == a.row.value.terminalAt && Stored(b.row.value) == Stored(a.row.value))
               && (a.row.Some? && b.row.Some? && a.row.value.cancelRequested ==> b.row.value.cancelRequested)
    decreases |later|
  {
    var w := Run(Start(amounts), evs);
    RunKeeps(Start(amounts), evs);
    if later != [] {
      var init := later[..|later| - 1];
      TerminalOnce(amounts, evs, init, j);
      RunKeeps(w, init);
      StepKeeps(Run(w, init), later[|later| - 1]);
    }
  }

  /** Among any number of `finish` calls on one job only the one whose `settle` matched releases, and it
      releases each counter at most once, in the order of the job's keys. */
  lemma {:induction false} FinishReleasesOnce(amounts: map<Key, int>, evs: seq<Event>, j: JobId)
    requires j < |Run(Start(amounts), evs).jobs|
    ensures var w := Run(Start(amounts), evs);
            var c := w.jobs[j].core;
            NoDup(c.finReleased) && c.finReleased <= c.keys
            && (c.finReleased != [] ==> c.winner.Some? && Terminal(c.row))
            && forall t :: t in w.tasks && w.tasks[t].FinReleasing? && w.tasks[t].job == j ==>
                 c.winner == Some(t) && w.tasks[t].at < |c.keys| && c.finReleased == c.keys[..w.tasks[t].at]
  {
    RunKeeps(Start(amounts), evs);
    ReleasedInOrder(Run(Start(amounts), evs), j);
  }

  lemma {:induction false} ReleasedInOrder(w: World, j: JobId)
    requires Inv(w) && j < |w.jobs|
    ensures var c := w.jobs[j].core;
            NoDup(c.finReleased) && c.finReleased <= c.keys
            && (c.finReleased != [] ==> c.winner.Some? && Terminal(c.row))
            && forall t :: t in w.tasks && w.tasks[t].FinReleasing? && w.tasks[t].job == j ==>
                 c.winner == Some(t) && w.tasks[t].at < |c.keys| && c.finReleased == c.keys[..w.tasks[t].at]
  {
    assert CoreOk(w.jobs[j].core);
  }

  // ---- the status of a terminal job ----

  /** The one step that rewrites the status of a terminal job: adopting, from a stale snapshot, an upstream
      listing that reports a different terminal status. */
  predicate Rewrites(w: World, ev: Event, j: JobId) {
    ev.TaskStep? && ev.t in w.tasks && j < |w.jobs| && w.jobs[j].core.row.Some?
    && w.tasks[ev.t].Adopting? && w.tasks[ev.t].job == j
    && w.tasks[ev.t].listed.Some? && IsTerminal(w.tasks[ev.t].listed.value)
    && w.tasks[ev.t].listed.value != w.jobs[j].core.row.value.status
  }

  lemma {:induction false} SubStatus(e: Entry, reply: SubReply, admits: bool, kind: string, now: int)
    requires CoreOk(e.core) && Terminal(e.core.row)
    ensures var b := StepSub(e, reply, admits, kind, now).core;
            b.row.Some? && b.row.value.status == e.core.row.value.status
  {
    if !WritesRow(e.sub) {
      SubShape(e, reply, admits, kind, now);
    }
  }

  lemma {:induction false} TaskStatus(c: Core, t: nat, tk: Task, answer: Reply, now: int)
    requires CoreOk(c) && TaskOk(c, t, tk) && Terminal(c.row)
    ensures var b := StepTask(c, t, tk, answer, now).core;
            b.row.Some? && (b.row.value.status != c.row.value.status <==>
              tk.Adopting? && tk.listed.Some? && IsTerminal(tk.listed.value) && tk.listed.value != c.row.value.status)
  {
    if Reads(tk) {
      ReadingKeeps(c, t, tk, answer, now);
    }
  }

  lemma {:induction false} OtherJob(w: World, ev: Event, j: JobId)
    requires j < |w.jobs|
    requires (ev.SubStep? && ev.j != j) || (ev.TaskStep? && ev.t in w.tasks && w.tasks[ev.t].job != j)
    ensures j < |Step(w, ev).jobs| && Step(w, ev).jobs[j] == w.jobs[j]
  {
    if ev.SubStep? {
      if ev.j < |w.jobs| {
        var out := SubOutcome(w, w.jobs[ev.j], ev.reply, ev.kind, ev.now);
        assert ApplySub(w, ev.j, out).jobs[j] == w.jobs[j];
      }
    } else if w.tasks[ev.t].job < |w.jobs| {
      var i := w.tasks[ev.t].job;
      var out := StepTask(w.jobs[i].core, ev.t, w.tasks[ev.t], ev.answer, ev.now);
      assert ApplyTask(w, ev.t, i, out).jobs[j] == w.jobs[j];
    }
  }

  /** A step changes the status of a terminal job if and only if it is such an adoption. */
  lemma {:induction false} StatusKeptIff(w: World, ev: Event, j: JobId)
    requires Inv(w) && j < |w.jobs| && Terminal(w.jobs[j].core.row)
    ensures var w' := Step(w, ev);
            j < |w'.jobs| && w'.jobs[j].core.row.Some?
            && (w'.jobs[j].core.row.value.status != w.jobs[j].core.row.value.status <==> Rewrites(w, ev, j))
  {
    var e := w.jobs[j];
    if ev.SubStep? && ev.j == j {
      SubStatus(e, ev.reply, Admits(w, Cost(e.core), NextKey(e)), ev.kind, ev.now);
    } else if ev.TaskStep? && ev.t in w.tasks && w.tasks[ev.t].job == j {
      TaskStatus(e.core, ev.t, w.tasks[ev.t], ev.answer, ev.now);
    } else if ev.SubStep? || (ev.TaskStep? && ev.t in w.tasks) {
      OtherJob(w, ev, j);
    } else if !ev.Insert? && !ev.TaskStep? {
      SimpleShape(w, ev);
    }
  }

  /** An upstream that lists only non-terminal or unmapped statuses. */
  predicate Honest(ev: Event) {
    ev.TaskStep? && ev.answer.Found? && ev.answer.listed.Some? ==> !IsTerminal(ev.answer.listed.value)
  }

  ghost predicate HonestTasks(w: World) {
    forall t :: t in w.tasks && w.tasks[t].Adopting? && w.tasks[t].listed.Some? ==> !IsTerminal(w.tasks[t].listed.value)
  }

  lemma {:induction false} HonestOut(c: Core, t: nat, tk: Task, answer: Reply, now: int)
    requires answer.Found? && answer.listed.Some? ==> !IsTerminal(answer.listed.value)
    requires tk.Adopting? && tk.listed.Some? ==> !IsTerminal(tk.listed.value)
    ensures var n := StepTask(c, t, tk, answer, now).next;
            n.Some? && n.value.Adopting? && n.value.listed.Some? ==> !IsTerminal(n.value.listed.value)
  {
  }

  lemma {:induction false} HonestStep(w: World, ev: Event)
    requires HonestTasks(w) && Honest(ev)
    ensures HonestTasks(Step(w, ev))
  {
    if ev.TaskStep? {
      if ev.t in w.tasks && w.tasks[ev.t].job < |w.jobs| {
        HonestOut(w.jobs[w.tasks[ev.t].job].core, ev.t, w.tasks[ev.t], ev.answer, ev.now);
        var w' := Step(w, ev);
        assert forall u :: u in w'.tasks && u != ev.t ==> u in w.tasks && w'.tasks[u] == w.tasks[u];
      }
    } else if ev.SubStep? {
      assert Step(w, ev).tasks == w.tasks;
    } else if !ev.Insert? {
      SimpleShape(w, ev);
    }
  }

  lemma {:induction false} HonestRun(w: World, evs: seq<Event>)
    requires HonestTasks(w) && forall i :: 0 <= i < |evs| ==> Honest(evs[i])
    ensures HonestTasks(Run(w, evs))
    decreases |evs|
  {
    if evs != [] {
      HonestRun(w, evs[..|evs| - 1]);
      HonestStep(Run(w, evs[..|evs| - 1]), evs[|evs| - 1]);
    }
  }

  /** With such an upstream a job that has become terminal keeps its status for good. */
  lemma {:induction false} TerminalStatusKept(amounts: map<Key, int>, evs: seq<Event>, later: seq<Event>, j: JobId)
    requires forall i :: 0 <= i < |evs| ==> Honest(evs[i])
    requires forall i :: 0 <= i < |later| ==> Honest(later[i])
    requires j < |Run(Start(amounts), evs).jobs| && Terminal(Run(Start(amounts), evs).jobs[j].core.row)
    ensures var w := Run(Start(amounts), evs);
            var w' := Run(w, later);
            j < |w'.jobs| && w'.jobs[j].core.row.Some? && w'.jobs[j].core.row.value.status == w.jobs[j].core.row.value.status
    decreases |later|
  {
    if later != [] {
      var w := Run(Start(amounts), evs);
      var init := later[..|later| - 1];
      TerminalStatusKept(amounts, evs, init, j);
      TerminalOnce(amounts, evs, init, j);
      RunKeeps(Start(amounts), evs);
      RunKeeps(w, init);
      HonestRun(Start(amounts), evs);
      HonestRun(w, init);
      StatusKeptIff(Run(w, init), later[|later| - 1], j);
    }
  }
}
