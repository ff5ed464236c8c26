/** Jobs that were turned away: when the row of one is taken back, and what becomes of one that is not. */
module BatchDenials {
  import opened Options
  import opened BatchJobs
  import opened BatchProtocol
  import opened BatchSafety
  import opened BatchMoney
  import opened BatchReleases

  // ---- who may take a row from its submitter ----

  /** What an advance's marking, adopting or finishing statement reports. */
  function Writes(c: Core, tk: Task, now: int): WriteResult {
    match tk
    case MarkUnknown(_) => UpdateRow(c.row, UnknownPatch(now), Some({Submitting}))
    case Adopting(_, id, st) => UpdateRow(c.row, AdoptPatch(id, st), None)
    case Finishing(_, status, kind, totals, _) => SettleRow(c.row, SettlementOf(status, kind, totals, now), FinishGuard(totals))
    case _ => NoMatch
  }

  /** Event `i` was an advance of job `j` marking, adopting or finishing the row. */
  ghost predicate TakenAt(w0: World, evs: seq<Event>, i: nat, j: JobId) { i < |evs| && Takes(Run(w0, evs[..i]), evs[i], j) }

  predicate Takes(w: World, ev: Event, j: JobId) { StepsOn(w, ev, j) && Writes(w.jobs[j].core, w.tasks[ev.t], ev.now).Written? }

  predicate StepsOn(w: World, ev: Event, j: JobId) { ev.TaskStep? && ev.t in w.tasks && w.tasks[ev.t].job == j < |w.jobs| }

  predicate Untouched(c: Core) { c.row.Some? && c.row.value.status.Submitting? }

  /** Only those three statements move a row out of `submitting`, and each of them does. */
  lemma {:induction false} TaskTakes(c: Core, t: nat, tk: Task, answer: Reply, now: int)
    requires CoreOk(c) && TaskOk(c, t, tk)
    ensures var b := StepTask(c, t, tk, answer, now).core;
            && (b.row.Some? <==> c.row.Some?)
            && (Writes(c, tk, now).Written? ==> !Untouched(b))
            && (Untouched(c) && !Writes(c, tk, now).Written? ==> Untouched(b))
  {
    TaskFrame(c, t, tk, answer, now);
    if Updates(tk) {
      UpdateTakes(c, t, tk, answer, now);
    } else if tk.Finishing? {
      FinishTakes(c, t, tk, now);
    } else if tk.Holding? {
      if Untouched(c) {
        HoldTakes(c, tk);
      }
    } else if !tk.FinReleasing? {
      LookFrame(c, t, tk, answer, now);
    }
  }

  lemma {:induction false} UpdateTakes(c: Core, t: nat, tk: Task, answer: Reply, now: int)
    requires CoreOk(c) && TaskOk(c, t, tk) && Updates(tk)
    ensures var b := StepTask(c, t, tk, answer, now).core;
            && (Writes(c, tk, now).Written? ==> !Untouched(b))
            && (Untouched(c) && !Writes(c, tk, now).Written? ==> Untouched(b))
  {
  }

  lemma {:induction false} FinishTakes(c: Core, t: nat, tk: Task, now: int)
    requires TaskOk(c, t, tk) && tk.Finishing?
    ensures var b := StepFinishing(c, t, tk.job, tk.status, tk.errorKind, tk.totals, tk.readable, now).core;
            && (Writes(c, tk, now).Written? ==> !Untouched(b))
            && (!Writes(c, tk, now).Written? ==> b == c)
  {
  }

  lemma {:induction false} HoldTakes(c: Core, tk: Task)
    requires tk.Holding? && Untouched(c)
    ensures StepHolding(c, tk.job, tk.row, tk.verdict).core == c
  {
  }

  // ---- one step of the whole system ----

  /** The submitter is deciding whether the job goes on. */
  predicate Deciding(s: Submitter) { s.Checking? || s.Reserving? || s.RollingBack? || s.Discarding? }

  /** What a step does to a job's entry, by whether it is one of its tasks'. */
  predicate EntryStep(w: World, ev: Event, j: JobId, a: Entry, b: Entry) {
    && (Deciding(b.sub) ==> Deciding(a.sub))
    && (a.sub.Idle? ==> b.sub.Idle?)
    && (!StepsOn(w, ev, j) && (Deciding(b.sub) || a.sub.Idle?) ==> b.core == a.core)
    && (StepsOn(w, ev, j) ==> b.sub == a.sub)
  }

  lemma {:induction false} SubEntryStep(e: Entry, reply: SubReply, admits: bool, kind: string, now: int)
    ensures var out := StepSub(e, reply, admits, kind, now);
            && (Deciding(out.sub) ==> Deciding(e.sub) && out.core == e.core)
            && (e.sub.Idle? ==> out.sub.Idle? && out.core == e.core)
  {
    if !WritesRow(e.sub) {
      SubShape(e, reply, admits, kind, now);
    }
  }

  lemma {:induction false} SubsStay(w: World, ev: Event, j: JobId)
    requires !ev.SubStep? && !ev.TaskStep? && !ev.Insert? && j < |w.jobs| && j < |Step(w, ev).jobs|
    ensures Step(w, ev).jobs[j].sub.Idle? || Step(w, ev).jobs[j].sub == w.jobs[j].sub
  {
  }

  lemma {:induction false} BySubmitterStep(w: World, ev: Event, j: JobId)
    requires ev.SubStep? && j < |w.jobs|
    ensures j < |Step(w, ev).jobs| && EntryStep(w, ev, j, w.jobs[j], Step(w, ev).jobs[j])
  {
    if ev.j < |w.jobs| {
      var e := w.jobs[ev.j];
      SubEntryStep(e, ev.reply, Admits(w, Cost(e.core), NextKey(e)), ev.kind, ev.now);
      assert Step(w, ev) == ApplySub(w, ev.j, SubOutcome(w, e, ev.reply, ev.kind, ev.now));
    }
  }

  lemma {:induction false} ByTaskStep(w: World, ev: Event, j: JobId)
    requires Inv(w) && ev.TaskStep? && j < |w.jobs|
    ensures j < |Step(w, ev).jobs| && EntryStep(w, ev, j, w.jobs[j], Step(w, ev).jobs[j])
    ensures StepsOn(w, ev, j) ==> Step(w, ev).jobs[j] == TaskEntry(w.jobs[j], StepTask(w.jobs[j].core, ev.t, w.tasks[ev.t], ev.answer, ev.now))
  {
    if ev.t in w.tasks {
      var tk := w.tasks[ev.t];
      assert Step(w, ev) == ApplyTask(w, ev.t, tk.job, StepTask(w.jobs[tk.job].core, ev.t, tk, ev.answer, ev.now));
    }
  }

  lemma {:induction false} Steps(w: World, ev: Event, j: JobId)
    requires Inv(w) && j < |w.jobs|
    ensures j < |Step(w, ev).jobs| && EntryStep(w, ev, j, w.jobs[j], Step(w, ev).jobs[j])
  {
    if ev.SubStep? {
      BySubmitterStep(w, ev, j);
    } else if ev.TaskStep? {
      ByTaskStep(w, ev, j);
    } else if ev.Insert? {
      StepKeeps(w, ev);
    } else {
      SimpleShape(w, ev);
      SubsStay(w, ev, j);
    }
  }

  /** A step moves an untouched row exactly if it takes it, and never gives one back. */
  lemma {:induction false} MovesIff(w: World, ev: Event, j: JobId)
    requires Inv(w) && j < |w.jobs|
    ensures var a, b := w.jobs[j], Step(w, ev).jobs[j];
            && (Untouched(b.core) ==> Untouched(a.core) && !Takes(w, ev, j))
            && (Deciding(b.sub) ==> (b.core.row.Some? <==> a.core.row.Some?))
            && (Deciding(b.sub) && Untouched(a.core) && !Takes(w, ev, j) ==> Untouched(b.core))
  {
    Steps(w, ev, j);
    StepKeeps(w, ev);
    if StepsOn(w, ev, j) {
      ByTaskStep(w, ev, j);
      TaskTakes(w.jobs[j].core, ev.t, w.tasks[ev.t], ev.answer, ev.now);
    }
  }

  // ---- every run ----

  /** A row that an advance took is no longer `submitting`, and while its submitter decides nothing else moves it. */
  ghost predicate Traced(w0: World, evs: seq<Event>, j: JobId, e: Entry) {
    && (Untouched(e.core) ==> !exists i: nat :: TakenAt(w0, evs, i, j))
    && (Deciding(e.sub) ==> e.core.row.Some? && (!Untouched(e.core) ==> exists i: nat :: TakenAt(w0, evs, i, j)))
  }

  /** Jobs not there yet were not taken either. */
  ghost predicate AllTraced(w0: World, evs: seq<Event>, w: World) {
    && (forall j :: 0 <= j < |w.jobs| ==> Traced(w0, evs, j, w.jobs[j]))
    && (forall i: nat, j: nat :: TakenAt(w0, evs, i, j) ==> j < |w.jobs|)
  }

  lemma {:induction false} TakenMore(w0: World, init: seq<Event>, ev: Event, i: nat, j: JobId)
    ensures TakenAt(w0, init + [ev], i, j) <==> TakenAt(w0, init, i, j) || (i == |init| && Takes(Run(w0, init), ev, j))
  {
    if i < |init| {
      assert (init + [ev])[..i] == init[..i];
    } else if i == |init| {
      assert (init + [ev])[..i] == init;
    }
  }

  lemma {:induction false} JobTraced(w0: World, init: seq<Event>, ev: Event, w: World, j: JobId)
    requires w == Run(w0, init) && Inv(w) && j < |w.jobs| && Traced(w0, init, j, w.jobs[j])
    ensures j < |Step(w, ev).jobs| && Traced(w0, init + [ev], j, Step(w, ev).jobs[j])
  {
    Steps(w, ev, j);
    MovesIff(w, ev, j);
    TracedOn(w0, init, ev, j, w.jobs[j], Step(w, ev).jobs[j]);
  }

  lemma {:induction false} TracedOn(w0: World, init: seq<Event>, ev: Event, j: JobId, a: Entry, b: Entry)
    requires Traced(w0, init, j, a) && (Deciding(b.sub) ==> Deciding(a.sub))
    requires var w := Run(w0, init);
             && (Untouched(b.core) ==> Untouched(a.core) && !Takes(w, ev, j))
             && (Deciding(b.sub) ==> (b.core.row.Some? <==> a.core.row.Some?))
             && (Deciding(b.sub) && Untouched(a.core) && !Takes(w, ev, j) ==> Untouched(b.core))
    ensures Traced(w0, init + [ev], j, b)
  {
    forall i: nat
      ensures TakenAt(w0, init + [ev], i, j) <==> TakenAt(w0, init, i, j) || (i == |init| && Takes(Run(w0, init), ev, j))
    {
      TakenMore(w0, init, ev, i, j);
    }
    if Deciding(b.sub) && !Untouched(b.core) {
      if Untouched(a.core) {
        assert TakenAt(w0, init + [ev], |init|, j);
      } else {
        var i :| TakenAt(w0, init, i, j);
        assert TakenAt(w0, init + [ev], i, j);
      }
    }
  }

  lemma {:induction false} AllTracedOn(w0: World, init: seq<Event>, ev: Event, w: World)
    requires w == Run(w0, init) && Inv(w) && AllTraced(w0, init, w)
    ensures AllTraced(w0, init + [ev], Step(w, ev))
  {
    StepKeeps(w, ev);
    forall i: nat, j: JobId | TakenAt(w0, init + [ev], i, j)
      ensures j < |w.jobs|
    {
      TakenMore(w0, init, ev, i, j);
    }
    forall j | 0 <= j < |Step(w, ev).jobs|
      ensures Traced(w0, init + [ev], j, Step(w, ev).jobs[j])
    {
      if j < |w.jobs| {
        JobTraced(w0, init, ev, w, j);
      } else {
        Appended(w, ev, j);
      }
    }
  }

  lemma {:induction false} Appended(w: World, ev: Event, j: JobId)
    requires |w.jobs| <= j < |Step(w, ev).jobs|
    ensures Untouched(Step(w, ev).jobs[j].core)
  {
  }

  lemma {:induction false} LastTraced(w0: World, evs: seq<Event>, init: seq<Event>, w: World)
    requires evs != [] && init == evs[..|evs| - 1] && w == Run(w0, init) && Inv(w) && AllTraced(w0, init, w)
    ensures AllTraced(w0, evs, Run(w0, evs))
  {
    assert evs == init + [evs[|evs| - 1]];
    AllTracedOn(w0, init, evs[|evs| - 1], w);
  }

  lemma {:induction false} NothingTraced(w: World)
    requires w.jobs == []
    ensures AllTraced(w, [], w)
  {
  }

  lemma {:induction false} RunTraced(amounts: map<Key, int>, evs: seq<Event>)
    ensures AllTraced(Start(amounts), evs, Run(Start(amounts), evs))
    decreases |evs|
  {
    if evs == [] {
      NothingTraced(Start(amounts));
    } else {
      var init := evs[..|evs| - 1];
      RunTraced(amounts, init);
      RunKeeps(Start(amounts), init);
      LastTraced(Start(amounts), evs, init, Run(Start(amounts), init));
    }
  }

  /** A job that was turned away loses its row exactly if that is still `submitting`. It is not, and the job stays as it
      is, if and only if an advance of it had marked, adopted or finished the row while its submitter was deciding. */
  lemma {:induction false} DiscardMissesIff(amounts: map<Key, int>, evs: seq<Event>, j: JobId, reply: SubReply, kind: string, now: int)
    requires j < |Run(Start(amounts), evs).jobs| && Run(Start(amounts), evs).jobs[j].sub.Discarding?
    ensures var w := Run(Start(amounts), evs);
            var w' := Step(w, SubStep(j, reply, kind, now));
            && |w'.jobs| == |w.jobs| && w'.jobs[j].sub.Idle?
            && (w'.jobs[j].core.row.None? <==> Untouched(w.jobs[j].core))
            && (w'.jobs[j].core == w.jobs[j].core <==> exists i: nat :: TakenAt(Start(amounts), evs, i, j))
  {
    RunTraced(amounts, evs);
    RunKeeps(Start(amounts), evs);
    TakesBack(Run(Start(amounts), evs), j, reply, kind, now);
    assert Traced(Start(amounts), evs, j, Run(Start(amounts), evs).jobs[j]);
  }

  lemma {:induction false} TakesBack(w: World, j: JobId, reply: SubReply, kind: string, now: int)
    requires Inv(w) && j < |w.jobs| && w.jobs[j].sub.Discarding? && w.jobs[j].core.row.Some?
    ensures var w' := Step(w, SubStep(j, reply, kind, now));
            && |w'.jobs| == |w.jobs| && w'.jobs[j].sub.Idle?
            && w'.jobs[j].core == if Untouched(w.jobs[j].core) then w.jobs[j].core.(row := None) else w.jobs[j].core
  {
    assert CoreOk(w.jobs[j].core);
  }

  // ---- a leftover ----

  lemma {:induction false} SumCat(a: seq<Entry>, b: seq<Entry>, k: Key)
    ensures DbSum(a + b, k) == DbSum(a, k) + DbSum(b, k)
  {
    if b == [] {
      assert a + b == a;
    } else {
      SumCat(a, b[..|b| - 1], k);
      assert (a + b)[..|a + b| - 1] == a + b[..|b| - 1];
    }
  }

  lemma {:induction false} SumAround(jobs: seq<Entry>, j: JobId, k: Key)
    requires j < |jobs|
    ensures DbSum(jobs, k) == DbSum(jobs[..j], k) + (if Counts(jobs[j].core, k) then Cost(jobs[j].core) else 0) + DbSum(jobs[j + 1..], k)
  {
    assert jobs == jobs[..j + 1] + jobs[j + 1..];
    SumCat(jobs[..j + 1], jobs[j + 1..], k);
    assert jobs[..j + 1][..j] == jobs[..j];
  }

  /** A job whose submitter is done, and was not the one to end it. */
  predicate LeftTo(e: Entry) { e.sub.Idle? && e.core.row.Some? && !e.core.failWon }

  lemma {:induction false} LeftStep(w: World, ev: Event, j: JobId)
    requires Inv(w) && j < |w.jobs| && LeftTo(w.jobs[j])
    ensures j < |Step(w, ev).jobs| && LeftTo(Step(w, ev).jobs[j])
  {
    Steps(w, ev, j);
    if StepsOn(w, ev, j) {
      ByTaskStep(w, ev, j);
      TaskFrame(w.jobs[j].core, ev.t, w.tasks[ev.t], ev.answer, ev.now);
    }
  }

  lemma {:induction false} LeftRun(w: World, later: seq<Event>, j: JobId)
    requires Inv(w) && j < |w.jobs| && LeftTo(w.jobs[j])
    ensures j < |Run(w, later).jobs| && LeftTo(Run(w, later).jobs[j])
    decreases |later|
  {
    if later != [] {
      var init := later[..|later| - 1];
      LeftRun(w, init, j);
      RunKeeps(w, init);
      LeftStep(Run(w, init), later[|later| - 1], j);
    }
  }

  /** A live job whose submitter is done - turned away after an advance had its row, crashed, or left without an answer -
      stays in the table, is live exactly until a finish wins it, and until then, and no longer, every database sum of
      its counters carries its ceiling. */
  lemma {:induction false} CountedUntilFinished(amounts: map<Key, int>, evs: seq<Event>, later: seq<Event>, j: JobId)
    requires var w := Run(Start(amounts), evs); j < |w.jobs| && w.jobs[j].sub.Idle? && Live(w.jobs[j].core.row)
    ensures var w' := Run(Run(Start(amounts), evs), later);
            && j < |w'.jobs|
            && var c := w'.jobs[j].core;
               && w'.jobs[j].sub.Idle? && c.row.Some? && (Live(c.row) <==> c.winner.None?)
               && forall k :: k in c.keys ==>
                    DbSum(w'.jobs, k) == DbSum(w'.jobs[..j], k) + (if c.winner.None? then Cost(c) else 0) + DbSum(w'.jobs[j + 1..], k)
  {
    var w := Run(Start(amounts), evs);
    RunKeeps(Start(amounts), evs);
    assert CoreOk(w.jobs[j].core);
    LeftRun(w, later, j);
    RunKeeps(w, later);
    StillCounted(Run(w, later), j);
  }

  lemma {:induction false} StillCounted(w: World, j: JobId)
    requires Inv(w) && j < |w.jobs| && LeftTo(w.jobs[j])
    ensures var c := w.jobs[j].core;
            && (Live(c.row) <==> c.winner.None?)
            && forall k :: k in c.keys ==>
                 DbSum(w.jobs, k) == DbSum(w.jobs[..j], k) + (if c.winner.None? then Cost(c) else 0) + DbSum(w.jobs[j + 1..], k)
  {
    var c := w.jobs[j].core;
    assert CoreOk(c);
    forall k | k in c.keys
      ensures DbSum(w.jobs, k) == DbSum(w.jobs[..j], k) + (if c.winner.None? then Cost(c) else 0) + DbSum(w.jobs[j + 1..], k)
    {
      SumAround(w.jobs, j, k);
    }
  }

  // ---- what its finish releases ----

  /** No counter call of the job's submitter failed. */
  predicate Answered(evs: seq<Event>, j: JobId) { forall i :: 0 <= i < |evs| && evs[i].SubStep? && evs[i].j == j ==> !evs[i].reply.Fault? }

  /** The submitter reserved the counter, and has not given it back. */
  predicate Open(e: Entry, k: Key) { TallyOf(e, k).reserved && !TallyOf(e, k).given }

  predicate KeyIn(keys: seq<Key>, lo: nat, hi: nat, k: Key) { exists i :: lo <= i < hi && i < |keys| && keys[i] == k }

  /** Only the keys from `lo` to `hi` are open. */
  ghost predicate GivenBack(e: Entry, lo: nat, hi: nat) { forall k :: Open(e, k) ==> KeyIn(e.core.keys, lo, hi, k) }

  ghost predicate Undoes(e: Entry) {
    match e.sub
    case Checking => GivenBack(e, 0, 0)
    case Reserving(n) => GivenBack(e, 0, n)
    case RollingBack(at, upto, _) => GivenBack(e, at, upto)
    case Discarding => GivenBack(e, 0, 0)
    case _ => true
  }

  /** One answered step of a submitter that is deciding. */
  lemma {:induction false} UndoesOn(e: Entry, reply: SubReply, admits: bool, kind: string, now: int)
    requires Deciding(e.sub) && Undoes(e) && !reply.Fault?
    ensures var out := StepSub(e, reply, admits, kind, now); Deciding(out.sub) ==> Undoes(SubEntry(e, out))
  {
    match e.sub
    case Reserving(n) => if n < |e.core.keys| { ReserveUndoes(e, reply, admits); }
    case RollingBack(at, upto, admit) => if at < upto <= |e.core.keys| { RollbackUndoes(e, reply); }
    case _ =>
  }

  lemma {:induction false} ReserveUndoes(e: Entry, reply: SubReply, admits: bool)
    requires e.sub.Reserving? && e.sub.next < |e.core.keys| && GivenBack(e, 0, e.sub.next) && !reply.Fault?
    ensures Undoes(SubEntry(e, Reserve(e, e.sub.next, reply, admits)))
  {
    var n, b := e.sub.next, SubEntry(e, Reserve(e, e.sub.next, reply, admits));
    forall k | Open(b, k)
      ensures KeyIn(e.core.keys, 0, if reply.Done? && admits then n + 1 else n, k)
    {
      if Open(e, k) {
        assert KeyIn(e.core.keys, 0, n, k);
      } else {
        assert e.core.keys[n] == k;
      }
    }
  }

  lemma {:induction false} RollbackUndoes(e: Entry, reply: SubReply)
    requires e.sub.RollingBack? && e.sub.at < e.sub.upto <= |e.core.keys| && GivenBack(e, e.sub.at, e.sub.upto) && !reply.Fault?
    ensures Undoes(SubEntry(e, Rollback(e, e.sub.at, e.sub.upto, e.sub.admit, reply)))
  {
    var at, b := e.sub.at, SubEntry(e, Rollback(e, e.sub.at, e.sub.upto, e.sub.admit, reply));
    forall k | Open(b, k)
      ensures KeyIn(e.core.keys, if reply.Done? then at + 1 else at, e.sub.upto, k)
    {
      assert Open(e, k) && KeyIn(e.core.keys, at, e.sub.upto, k);
      assert reply.Done? ==> k != e.core.keys[at];
    }
  }

  /** Other steps may start a counter's record anew, or note a finish's release: what was reserved and not given back
      does not grow. */
  ghost predicate NoMoreOpen(a: Entry, b: Entry) {
    forall k :: Open(b, k) ==> Open(a, k)
  }

  lemma {:induction false} OpenStays(w: World, ev: Event, j: JobId)
    requires Inv(w) && j < |w.jobs| && !(ev.SubStep? && ev.j == j)
    ensures j < |Step(w, ev).jobs| && NoMoreOpen(w.jobs[j], Step(w, ev).jobs[j])
    ensures var a, b := w.jobs[j], Step(w, ev).jobs[j]; (b.sub == a.sub || b.sub.Idle?) && b.core.keys == a.core.keys
  {
    StepKeeps(w, ev);
    if ev.TaskStep? {
      OpenByTask(w, ev, j);
    } else if ev.SubStep? {
      OtherSub(w, ev, j);
    } else if ev.Insert? {
      OtherInsert(w, ev, j);
    } else {
      SubsStay(w, ev, j);
      OpenSimple(w, ev, j);
    }
  }

  lemma {:induction false} OpenByTask(w: World, ev: Event, j: JobId)
    requires Inv(w) && ev.TaskStep? && j < |w.jobs|
    ensures j < |Step(w, ev).jobs| && NoMoreOpen(w.jobs[j], Step(w, ev).jobs[j]) && Step(w, ev).jobs[j].sub == w.jobs[j].sub
  {
    ByTaskStep(w, ev, j);
    if !StepsOn(w, ev, j) {
      OtherTaskStep(w, ev, j);
    }
  }

  lemma {:induction false} OtherTaskStep(w: World, ev: Event, j: JobId)
    requires ev.TaskStep? && j < |w.jobs| && j < |Step(w, ev).jobs| && !StepsOn(w, ev, j)
    ensures Step(w, ev).jobs[j] == w.jobs[j]
  {
  }

  lemma {:induction false} OtherSub(w: World, ev: Event, j: JobId)
    requires ev.SubStep? && ev.j != j && j < |w.jobs| && j < |Step(w, ev).jobs|
    ensures Step(w, ev).jobs[j] == w.jobs[j]
  {
  }

  lemma {:induction false} OtherInsert(w: World, ev: Event, j: JobId)
    requires ev.Insert? && j < |w.jobs| && j < |Step(w, ev).jobs|
    ensures Step(w, ev).jobs[j] == w.jobs[j]
  {
  }

  lemma {:induction false} OpenSimple(w: World, ev: Event, j: JobId)
    requires !ev.SubStep? && !ev.TaskStep? && !ev.Insert? && j < |w.jobs| && j < |Step(w, ev).jobs|
    ensures NoMoreOpen(w.jobs[j], Step(w, ev).jobs[j])
  {
  }

  lemma {:induction false} OwnStep(w: World, ev: Event, j: JobId)
    requires ev.SubStep? && ev.j == j && j < |w.jobs| && j < |Step(w, ev).jobs|
    ensures var e := w.jobs[j];
            Step(w, ev).jobs[j] == SubEntry(e, StepSub(e, ev.reply, Admits(w, Cost(e.core), NextKey(e)), ev.kind, ev.now))
  {
  }

  lemma {:induction false} UndoesStep(w: World, ev: Event, j: JobId)
    requires Inv(w) && j < |w.jobs| && (Deciding(w.jobs[j].sub) ==> Undoes(w.jobs[j]))
    requires ev.SubStep? && ev.j == j ==> !ev.reply.Fault?
    ensures j < |Step(w, ev).jobs| && (Deciding(Step(w, ev).jobs[j].sub) ==> Undoes(Step(w, ev).jobs[j]))
  {
    Steps(w, ev, j);
    if Deciding(Step(w, ev).jobs[j].sub) {
      if ev.SubStep? && ev.j == j {
        OwnStep(w, ev, j);
        UndoesOn(w.jobs[j], ev.reply, Admits(w, Cost(w.jobs[j].core), NextKey(w.jobs[j])), ev.kind, ev.now);
      } else {
        OpenStays(w, ev, j);
      }
    }
  }

  lemma {:induction false} NewUndoes(w: World, ev: Event, j: JobId)
    requires |w.jobs| <= j < |Step(w, ev).jobs|
    ensures Undoes(Step(w, ev).jobs[j])
  {
  }

  lemma {:induction false} UndoesRun(amounts: map<Key, int>, evs: seq<Event>, j: JobId)
    requires Answered(evs, j) && j < |Run(Start(amounts), evs).jobs| && Deciding(Run(Start(amounts), evs).jobs[j].sub)
    ensures Undoes(Run(Start(amounts), evs).jobs[j])
    decreases |evs|
  {
    if evs != [] {
      var init, ev := evs[..|evs| - 1], evs[|evs| - 1];
      var w := Run(Start(amounts), init);
      RunKeeps(Start(amounts), init);
      if j < |w.jobs| {
        if Deciding(w.jobs[j].sub) {
          UndoesRun(amounts, init, j);
        }
        UndoesStep(w, ev, j);
      } else {
        NewUndoes(w, ev, j);
      }
    }
  }

  lemma {:induction false} IdleOpen(w: World, later: seq<Event>, j: JobId)
    requires Inv(w) && j < |w.jobs| && w.jobs[j].sub.Idle? && GivenBack(w.jobs[j], 0, 0)
    ensures j < |Run(w, later).jobs| && Run(w, later).jobs[j].sub.Idle? && GivenBack(Run(w, later).jobs[j], 0, 0)
    decreases |later|
  {
    if later != [] {
      var init, ev := later[..|later| - 1], later[|later| - 1];
      IdleOpen(w, init, j);
      RunKeeps(w, init);
      IdleOpenStep(Run(w, init), ev, j);
    }
  }

  lemma {:induction false} IdleOpenStep(w: World, ev: Event, j: JobId)
    requires Inv(w) && j < |w.jobs| && w.jobs[j].sub.Idle? && GivenBack(w.jobs[j], 0, 0)
    ensures j < |Step(w, ev).jobs| && Step(w, ev).jobs[j].sub.Idle? && GivenBack(Step(w, ev).jobs[j], 0, 0)
  {
    Steps(w, ev, j);
    if ev.SubStep? && ev.j == j {
      OwnStep(w, ev, j);
    } else {
      OpenStays(w, ev, j);
    }
  }

  /** The finish that ends a job turned away takes from a counter what is not there - the submitter has given back all it
      reserved - unless the counter's last reconcile counted the job and the submitter did not afterwards give back a
      reservation made before it. Here no counter call of the submitter failed; in general the release is judged as any
      finish's. */
  lemma {:induction false} LeftoverReleases(amounts: map<Key, int>, evs: seq<Event>, reply: SubReply, kind: string, now: int, later: seq<Event>,
                                            j: JobId, t: nat)
    requires Answered(evs, j) && j < |Run(Start(amounts), evs).jobs| && Run(Start(amounts), evs).jobs[j].sub.Discarding?
    requires var w := Run(Start(amounts), evs + [SubStep(j, reply, kind, now)] + later);
             t in w.tasks && w.tasks[t].FinReleasing? && w.tasks[t].job == j
    ensures var w := Run(Start(amounts), evs + [SubStep(j, reply, kind, now)] + later);
            && j < |w.jobs| && w.tasks[t].at < |w.jobs[j].core.keys|
            && var k := w.jobs[j].core.keys[w.tasks[t].at];
               var tally := TallyOf(w.jobs[j], k);
               Credit(w.jobs[j], k) <= 0 <==> tally.counted != Some(true) || (tally.given && !tally.reserved)
  {
    var discard := SubStep(j, reply, kind, now);
    var all := evs + [discard] + later;
    UndoesRun(amounts, evs, j);
    RunKeeps(Start(amounts), evs);
    Discarded(Run(Start(amounts), evs), discard, j);
    RunCat(Start(amounts), evs + [discard], later);
    RunThen(Start(amounts), evs, discard);
    StepKeeps(Run(Start(amounts), evs), discard);
    IdleOpen(Step(Run(Start(amounts), evs), discard), later, j);
    FinishUnmatchedIff(amounts, all, t);
    NothingLeftIff(Run(Start(amounts), all).jobs[j], Run(Start(amounts), all).tasks[t].at);
  }

  lemma {:induction false} Discarded(w: World, ev: Event, j: JobId)
    requires Inv(w) && ev.SubStep? && ev.j == j < |w.jobs| && w.jobs[j].sub.Discarding? && Undoes(w.jobs[j])
    ensures j < |Step(w, ev).jobs| && Step(w, ev).jobs[j].sub.Idle? && GivenBack(Step(w, ev).jobs[j], 0, 0)
  {
    Steps(w, ev, j);
    OwnStep(w, ev, j);
  }

  lemma {:induction false} NothingLeftIff(e: Entry, at: nat)
    requires at < |e.core.keys| && GivenBack(e, 0, 0)
    ensures var tally := TallyOf(e, e.core.keys[at]);
            NothingLeft(tally, tally.given) <==> tally.counted != Some(true) || (tally.given && !tally.reserved)
  {
    assert !Open(e, e.core.keys[at]);
  }
}
