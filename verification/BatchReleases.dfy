/** Which releases of the batch protocol take off a counter what is not on it, and that nothing else makes a counter
    fall below what live jobs hold. */
module BatchReleases {
  import opened Options
  import opened BatchJobs
  import opened BatchProtocol
  import opened BatchSafety
  import opened BatchMoney
  import opened Rounding

  // ---- what is left of a job on a counter ----

  /** Adds and counts minus releases, by what was recorded of each. */
  function Due(t: Tally): int { OneIf(t.counted == Some(true)) + OneIf(t.reserved) - OneIf(t.given) - OneIf(t.finished) }

  /** The counter that the submitter's next step may release. */
  function NextGiven(e: Entry): Option<Key> {
    match e.sub
    case RollingBack(at, upto, _) => if at < upto <= |e.core.keys| then Some(e.core.keys[at]) else None
    case Releasing(at) => if at < |e.core.keys| then Some(e.core.keys[at]) else None
    case _ => None
  }

  /** No counter was given back yet among the keys from `lo` on. */
  predicate NoneGiven(e: Entry, lo: nat) { forall i :: lo <= i < |e.core.keys| ==> !TallyOf(e, e.core.keys[i]).given }

  predicate NoneReserved(e: Entry, lo: nat) { forall i :: lo <= i < |e.core.keys| ==> !TallyOf(e, e.core.keys[i]).reserved }

  /** A submitter reserves each counter at most once and gives it back at most once. */
  predicate SubOnce(e: Entry) {
    match e.sub
    case Checking => NoneReserved(e, 0) && NoneGiven(e, 0)
    case Reserving(n) => NoneReserved(e, n) && NoneGiven(e, 0)
    case RollingBack(at, _, _) => NoneGiven(e, at)
    case Creating(reserved) => reserved ==> NoneGiven(e, 0)
    case Rejected(reserved) => reserved ==> NoneGiven(e, 0)
    case Releasing(at) => NoneGiven(e, at)
    case _ => true
  }

  /** What a submitter is about to give back it has reserved, unless a reconcile has since started the record anew. */
  predicate SubHas(e: Entry) {
    match e.sub
    case Reserving(n) => Has(e, 0, n)
    case RollingBack(at, upto, _) => Has(e, at, upto)
    case Creating(reserved) => reserved ==> Has(e, 0, |e.core.keys|)
    case Rejected(reserved) => reserved ==> Has(e, 0, |e.core.keys|)
    case Releasing(at) => Has(e, at, |e.core.keys|)
    case _ => true
  }

  predicate Has(e: Entry, lo: nat, hi: nat) {
    forall i :: lo <= i < hi && i < |e.core.keys| ==> TallyOf(e, e.core.keys[i]).counted.Some? || TallyOf(e, e.core.keys[i]).reserved
  }

  /** The record accounts for the whole credit, and for the finish's releases. */
  predicate Accounts(e: Entry, k: Key) {
    var t := TallyOf(e, k);
    && Credit(e, k) == Due(t)
    && (t.finished ==> k in e.core.finReleased) && (k in e.core.finReleased ==> t.finished || t.counted.Some?)
  }

  ghost predicate TallyInv(e: Entry) { SubOnce(e) && SubHas(e) && forall k :: Accounts(e, k) }

  ghost predicate AllTallied(w: World) { forall j :: 0 <= j < |w.jobs| ==> TallyInv(w.jobs[j]) }

  // ---- one job ----

  lemma {:induction false} SubRuns(e: Entry, reply: SubReply, admits: bool, kind: string, now: int)
    ensures var m := StepSub(e, reply, admits, kind, now).money;
            && (m.Releases? ==> NextGiven(e) == Some(m.k))
            && (m.Adds? ==> e.sub.Reserving? && e.sub.next < |e.core.keys| && m.k == e.core.keys[e.sub.next])
  {
  }

  lemma {:induction false} ReserveOnce(e: Entry, reply: SubReply, admits: bool)
    requires e.sub.Reserving? && e.sub.next < |e.core.keys| && NoDup(e.core.keys) && SubOnce(e) && SubHas(e)
    ensures SubOnce(SubEntry(e, Reserve(e, e.sub.next, reply, admits))) && SubHas(SubEntry(e, Reserve(e, e.sub.next, reply, admits)))
  {
    match reply
    case Done => AnsweredOnce(e, admits);
    case Fault(applied, failOpen) => FaultedOnce(e, applied, failOpen, admits);
    case _ =>
  }

  lemma {:induction false} AnsweredOnce(e: Entry, admits: bool)
    requires e.sub.Reserving? && e.sub.next < |e.core.keys| && NoDup(e.core.keys) && SubOnce(e) && SubHas(e)
    ensures var b := SubEntry(e, Reserve(e, e.sub.next, Done, admits)); SubOnce(b) && SubHas(b)
  {
  }

  lemma {:induction false} FaultedOnce(e: Entry, applied: bool, failOpen: bool, admits: bool)
    requires e.sub.Reserving? && e.sub.next < |e.core.keys| && NoDup(e.core.keys) && SubOnce(e) && SubHas(e)
    ensures var b := SubEntry(e, Reserve(e, e.sub.next, Fault(applied, failOpen), admits)); SubOnce(b) && SubHas(b)
  {
  }

  lemma {:induction false} RollbackOnce(e: Entry, reply: SubReply)
    requires e.sub.RollingBack? && e.sub.at < e.sub.upto <= |e.core.keys| && NoDup(e.core.keys) && SubOnce(e) && SubHas(e)
    ensures var b := SubEntry(e, Rollback(e, e.sub.at, e.sub.upto, e.sub.admit, reply)); SubOnce(b) && SubHas(b)
  {
  }

  lemma {:induction false} GiveOnce(e: Entry, reply: SubReply, admits: bool, kind: string, now: int)
    requires e.sub.Releasing? && NoDup(e.core.keys) && SubOnce(e) && SubHas(e)
    ensures SubOnce(SubEntry(e, StepSub(e, reply, admits, kind, now))) && SubHas(SubEntry(e, StepSub(e, reply, admits, kind, now)))
  {
  }

  lemma {:induction false} QuietOnce(e: Entry, reply: SubReply, admits: bool, kind: string, now: int)
    requires !e.sub.Reserving? && !e.sub.RollingBack? && !e.sub.Releasing? && SubOnce(e) && SubHas(e)
    ensures SubOnce(SubEntry(e, StepSub(e, reply, admits, kind, now))) && SubHas(SubEntry(e, StepSub(e, reply, admits, kind, now)))
  {
    SubFrame(e, reply, admits, kind, now);
    SubRuns(e, reply, admits, kind, now);
  }

  lemma {:induction false} StaysOnce(e: Entry, reply: SubReply, admits: bool, kind: string, now: int)
    requires NoDup(e.core.keys) && SubOnce(e) && SubHas(e)
    ensures SubOnce(SubEntry(e, StepSub(e, reply, admits, kind, now))) && SubHas(SubEntry(e, StepSub(e, reply, admits, kind, now)))
  {
    if e.sub.Reserving? {
      if e.sub.next < |e.core.keys| { ReserveOnce(e, reply, admits); }
    } else if e.sub.RollingBack? {
      if e.sub.at < e.sub.upto <= |e.core.keys| { RollbackOnce(e, reply); }
    } else if e.sub.Releasing? {
      GiveOnce(e, reply, admits, kind, now);
    } else {
      QuietOnce(e, reply, admits, kind, now);
    }
  }

  /** The submitter never gives back a counter twice, nor reserves it twice. */
  lemma {:induction false} FirstTime(e: Entry)
    requires SubOnce(e)
    ensures NextGiven(e).Some? ==> !TallyOf(e, NextGiven(e).value).given
    ensures e.sub.Reserving? && e.sub.next < |e.core.keys| ==> !TallyOf(e, e.core.keys[e.sub.next]).reserved
  {
  }

  lemma {:induction false} SubTallied(e: Entry, reply: SubReply, admits: bool, kind: string, now: int)
    requires NoDup(e.core.keys) && TallyInv(e)
    ensures TallyInv(SubEntry(e, StepSub(e, reply, admits, kind, now)))
  {
    var out := StepSub(e, reply, admits, kind, now);
    var b := SubEntry(e, out);
    StaysOnce(e, reply, admits, kind, now);
    SubRuns(e, reply, admits, kind, now);
    SubFrame(e, reply, admits, kind, now);
    FirstTime(e);
    forall k
      ensures Accounts(b, k)
    {
      assert Accounts(e, k);
      CreditedAt(e.credit, out.money, k);
    }
  }

  lemma {:induction false} TaskTallied(e: Entry, t: nat, tk: Task, answer: Reply, now: int)
    requires CoreOk(e.core) && TaskOk(e.core, t, tk) && TallyInv(e)
    ensures TallyInv(TaskEntry(e, StepTask(e.core, t, tk, answer, now)))
  {
    var out := StepTask(e.core, t, tk, answer, now);
    var b := TaskEntry(e, out);
    TaskFrame(e.core, t, tk, answer, now);
    var more := if out.money.Releases? then [out.money.k] else [];
    forall k
      ensures Accounts(b, k)
    {
      assert Accounts(e, k);
      TallyMoves(e, out.money, more, k);
    }
    SameSide(e, b);
  }

  /** A finish's release of a counter it has not released before. */
  lemma {:induction false} TallyMoves(e: Entry, m: Money, more: seq<Key>, k: Key)
    requires !m.Adds? && more == (if m.Releases? then [m.k] else []) && (m.Releases? ==> m.k !in e.core.finReleased) && Accounts(e, k)
    ensures var c := e.core.(finReleased := e.core.finReleased + more);
            Accounts(e.(core := c, credit := Credited(e.credit, m), tally := ByFinish(e.tally, m)), k)
  {
    CreditedAt(e.credit, m, k);
  }

  /** What the submitter did is recorded apart from what a finish did. */
  lemma {:induction false} SameSide(e: Entry, b: Entry)
    requires SubOnce(e) && SubHas(e) && b.sub == e.sub && b.core.keys == e.core.keys
    requires forall k :: TallyOf(b, k) == TallyOf(e, k).(finished := TallyOf(b, k).finished)
    ensures SubOnce(b) && SubHas(b)
  {
  }

  lemma {:induction false} RecountTallied(e: Entry, k: Key)
    requires TallyInv(e)
    ensures TallyInv(Recounted(e, k))
  {
    var b := Recounted(e, k);
    forall q
      ensures Accounts(b, q)
      ensures TallyOf(b, q).given ==> TallyOf(e, q).given
      ensures TallyOf(b, q).reserved ==> TallyOf(e, q).reserved
      ensures TallyOf(b, q).counted.Some? || TallyOf(b, q) == TallyOf(e, q)
    {
      assert Accounts(e, q);
    }
  }

  // ---- every run ----

  lemma {:induction false} AtTallied(w: World, w': World, j: JobId)
    requires AllTallied(w) && j < |w.jobs| && |w'.jobs| == |w.jobs| && w'.jobs == w.jobs[j := w'.jobs[j]] && TallyInv(w'.jobs[j])
    ensures AllTallied(w')
  {
    forall i | 0 <= i < |w'.jobs|
      ensures TallyInv(w'.jobs[i])
    {
      assert i != j ==> w'.jobs[i] == w.jobs[i];
    }
  }

  lemma {:induction false} QuietTallied(w: World, ev: Event)
    requires AllTallied(w) && (ev.SubCrash? || ev.PollRead? || ev.CancelRead? || ev.TaskCrash? || ev.ReconcileSpend?)
    ensures AllTallied(Step(w, ev))
  {
    QuietShape(w, ev);
    forall i | 0 <= i < |w.jobs|
      ensures TallyInv(Step(w, ev).jobs[i])
    {
      CrashTallied(w.jobs[i]);
    }
  }

  lemma {:induction false} CrashTallied(e: Entry)
    requires TallyInv(e)
    ensures TallyInv(e.(sub := Idle))
  {
    assert forall k :: Accounts(e, k) ==> Accounts(e.(sub := Idle), k);
  }

  lemma {:induction false} ReconcileTallied(w: World, k: Key)
    requires AllTallied(w)
    ensures AllTallied(StepReconcile(w, k))
  {
    forall i | 0 <= i < |w.jobs|
      ensures TallyInv(StepReconcile(w, k).jobs[i])
    {
      RecountTallied(w.jobs[i], k);
    }
  }

  lemma {:induction false} InsertTallied(w: World, ev: Event)
    requires AllTallied(w) && ev.Insert?
    ensures AllTallied(Step(w, ev))
  {
    assert TallyInv(NewEntry(ev.job, ev.keys, ev.results));
  }

  lemma {:induction false} StepTallied(w: World, ev: Event)
    requires Inv(w) && AllTallied(w)
    ensures AllTallied(Step(w, ev))
  {
    if ev.SubStep? {
      if ev.j < |w.jobs| {
        var e := w.jobs[ev.j];
        SubTallied(e, ev.reply, Admits(w, Cost(e.core), NextKey(e)), ev.kind, ev.now);
        AtTallied(w, ApplySub(w, ev.j, SubOutcome(w, e, ev.reply, ev.kind, ev.now)), ev.j);
      }
    } else if ev.TaskStep? {
      if ev.t in w.tasks {
        var j := w.tasks[ev.t].job;
        TaskTallied(w.jobs[j], ev.t, w.tasks[ev.t], ev.answer, ev.now);
        AtTallied(w, ApplyTask(w, ev.t, j, StepTask(w.jobs[j].core, ev.t, w.tasks[ev.t], ev.answer, ev.now)), j);
      }
    } else if ev.Insert? {
      InsertTallied(w, ev);
    } else if ev.ReconcilePending? {
      ReconcileTallied(w, ev.k);
    } else {
      QuietTallied(w, ev);
    }
  }

  lemma {:induction false} RunTallied(amounts: map<Key, int>, evs: seq<Event>)
    ensures AllTallied(Run(Start(amounts), evs))
    decreases |evs|
  {
    if evs != [] {
      RunTallied(amounts, evs[..|evs| - 1]);
      RunKeeps(Start(amounts), evs[..|evs| - 1]);
      StepTallied(Run(Start(amounts), evs[..|evs| - 1]), evs[|evs| - 1]);
    }
  }

  // ---- which releases are unmatched ----

  /** Since the last reconcile nothing of the job came onto the counter, or the other side has already taken it off. Only
      a reconcile that fell between the job's insert and its reservation leaves it there twice. */
  predicate NothingLeft(t: Tally, taken: bool) {
    if t.counted == Some(true) && t.reserved then false else taken || !(t.counted == Some(true) || t.reserved)
  }

  /** A submitter's release - its rollback or the one after a rejection - finds nothing of its job on the counter if and
      only if a finish has already released that counter, or a reconcile since the reservation found the job ended; but
      where a reconcile between insert and reservation counted the job and the reservation then added it again, it is
      there twice, and neither release is unmatched. On a counter not reconciled since the insert that is: if and only if
      a finish has already released it. */
  lemma {:induction false} SubmitterUnmatchedIff(amounts: map<Key, int>, evs: seq<Event>, j: JobId, k: Key)
    requires j < |Run(Start(amounts), evs).jobs| && NextGiven(Run(Start(amounts), evs).jobs[j]) == Some(k)
    ensures var e := Run(Start(amounts), evs).jobs[j];
            && (Credit(e, k) <= 0 <==> NothingLeft(TallyOf(e, k), TallyOf(e, k).finished))
            && (TallyOf(e, k).counted.None? ==> (Credit(e, k) <= 0 <==> k in e.core.finReleased))
  {
    RunTallied(amounts, evs);
    GivenIff(Run(Start(amounts), evs).jobs[j], k);
  }

  lemma {:induction false} GivenIff(e: Entry, k: Key)
    requires TallyInv(e) && NextGiven(e) == Some(k)
    ensures Credit(e, k) <= 0 <==> NothingLeft(TallyOf(e, k), TallyOf(e, k).finished)
    ensures TallyOf(e, k).counted.None? ==> (Credit(e, k) <= 0 <==> k in e.core.finReleased)
  {
    FirstTime(e);
    assert Accounts(e, k);
  }

  /** A finish's release finds nothing of its job on the counter if and only if the submitter had not reserved it there,
      or had rolled it back or released it, or a reconcile since found the job ended already; but not where the job was
      on the counter twice, counted by a reconcile before its reservation added it. On a counter not reconciled since the
      insert only the submitter's doing counts. */
  lemma {:induction false} FinishUnmatchedIff(amounts: map<Key, int>, evs: seq<Event>, t: nat)
    requires t in Run(Start(amounts), evs).tasks && Run(Start(amounts), evs).tasks[t].FinReleasing?
    ensures var w := Run(Start(amounts), evs);
            var tk := w.tasks[t];
            && tk.job < |w.jobs| && tk.at < |w.jobs[tk.job].core.keys|
            && var e := w.jobs[tk.job];
               var k := e.core.keys[tk.at];
               && (Credit(e, k) <= 0 <==> NothingLeft(TallyOf(e, k), TallyOf(e, k).given))
               && (TallyOf(e, k).counted.None? ==> (Credit(e, k) <= 0 <==> !TallyOf(e, k).reserved || TallyOf(e, k).given))
  {
    RunTallied(amounts, evs);
    RunKeeps(Start(amounts), evs);
    TakenIff(Run(Start(amounts), evs), t);
  }

  lemma {:induction false} TakenIff(w: World, t: nat)
    requires Inv(w) && AllTallied(w) && t in w.tasks && w.tasks[t].FinReleasing?
    ensures var tk := w.tasks[t];
            && tk.job < |w.jobs| && tk.at < |w.jobs[tk.job].core.keys|
            && var e := w.jobs[tk.job];
               var k := e.core.keys[tk.at];
               && (Credit(e, k) <= 0 <==> NothingLeft(TallyOf(e, k), TallyOf(e, k).given))
               && (TallyOf(e, k).counted.None? ==> (Credit(e, k) <= 0 <==> !TallyOf(e, k).reserved || TallyOf(e, k).given))
  {
    FinishedIff(w.jobs[w.tasks[t].job], t, w.tasks[t]);
  }

  lemma {:induction false} FinishedIff(e: Entry, t: nat, tk: Task)
    requires TallyInv(e) && CoreOk(e.core) && TaskOk(e.core, t, tk) && tk.FinReleasing?
    ensures var k := e.core.keys[tk.at];
            Credit(e, k) <= 0 <==> NothingLeft(TallyOf(e, k), TallyOf(e, k).given)
  {
    var k := e.core.keys[tk.at];
    assert k !in e.core.finReleased;
    assert Accounts(e, k);
  }

  // ---- nothing else undercounts ----

  /** The event releases a counter on which nothing of the job is left. */
  ghost predicate ReleasesUnmatched(w: World, ev: Event, k: Key) {
    || (ev.SubStep? && ev.j < |w.jobs| && GivesUnmatched(w.jobs[ev.j], SubOutcome(w, w.jobs[ev.j], ev.reply, ev.kind, ev.now).money, k))
    || (ev.TaskStep? && ev.t in w.tasks && w.tasks[ev.t].job < |w.jobs| && TakesUnmatched(w.jobs[w.tasks[ev.t].job], w.tasks[ev.t], k))
  }

  predicate GivesUnmatched(e: Entry, m: Money, k: Key) {
    Cost(e.core) > 0 && m == Releases(k) && NothingLeft(TallyOf(e, k), TallyOf(e, k).finished)
  }

  predicate TakesUnmatched(e: Entry, tk: Task, k: Key) {
    && Cost(e.core) > 0 && tk.FinReleasing? && tk.at < |e.core.keys| && e.core.keys[tk.at] == k
    && NothingLeft(TallyOf(e, k), TallyOf(e, k).given)
  }

  lemma {:induction false} UnmatchedSumAt(jobs: seq<Entry>, j: JobId, e: Entry, k: Key)
    requires j < |jobs|
    ensures UnmatchedSum(jobs[j := e], k) == UnmatchedSum(jobs, k) - Product(NonNegative(-Credit(jobs[j], k)), Cost(jobs[j].core))
                                             + Product(NonNegative(-Credit(e, k)), Cost(e.core))
  {
    var n := |jobs| - 1;
    if j < n {
      UnmatchedSumAt(jobs[..n], j, e, k);
      assert jobs[j := e][..n] == jobs[..n][j := e];
    } else {
      assert jobs[j := e][..n] == jobs[..n];
    }
  }

  /** One script on one job's credit. */
  lemma {:induction false} TermGrows(a: Entry, b: Entry, m: Money, k: Key)
    requires b.core.ceiling == a.core.ceiling && Credit(b, k) == Credit(a, k) + Delta(m, k)
    ensures Product(NonNegative(-Credit(b, k)), Cost(b.core)) > Product(NonNegative(-Credit(a, k)), Cost(a.core))
            <==> m == Releases(k) && Cost(a.core) > 0 && Credit(a, k) <= 0
    ensures Product(NonNegative(-Credit(a, k)), Cost(a.core)) >= 0
  {
    var n, cost := NonNegative(-Credit(a, k)), Cost(a.core);
    ProductStep(n, 1, cost);
    ProductStep(n, -1, cost);
    assert n * cost >= 0;
  }

  lemma {:induction false} EntryGrows(jobs: seq<Entry>, j: JobId, b: Entry, m: Money, k: Key)
    requires j < |jobs| && b.core.ceiling == jobs[j].core.ceiling && b.credit == Credited(jobs[j].credit, m)
    ensures UnmatchedSum(jobs[j := b], k) > UnmatchedSum(jobs, k)
            <==> m == Releases(k) && Cost(jobs[j].core) > 0 && Credit(jobs[j], k) <= 0
  {
    UnmatchedSumAt(jobs, j, b, k);
    CreditedAt(jobs[j].credit, m, k);
    TermGrows(jobs[j], b, m, k);
  }

  lemma {:induction false} SubUnmatched(w: World, j: JobId, out: SubOut, k: Key)
    requires j < |w.jobs| && TallyInv(w.jobs[j]) && out.core.ceiling == w.jobs[j].core.ceiling
    requires out.money == Releases(k) ==> NextGiven(w.jobs[j]) == Some(k)
    ensures UnmatchedSum(ApplySub(w, j, out).jobs, k) > UnmatchedSum(w.jobs, k) <==> GivesUnmatched(w.jobs[j], out.money, k)
  {
    EntryGrows(w.jobs, j, SubEntry(w.jobs[j], out), out.money, k);
    if out.money == Releases(k) {
      GivenIff(w.jobs[j], k);
    }
  }

  lemma {:induction false} TaskUnmatched(w: World, t: nat, tk: Task, out: TaskOut, k: Key)
    requires tk.job < |w.jobs| && TallyInv(w.jobs[tk.job]) && out.core.ceiling == w.jobs[tk.job].core.ceiling
    requires CoreOk(w.jobs[tk.job].core) && TaskOk(w.jobs[tk.job].core, t, tk)
    requires out.money == if tk.FinReleasing? then Releases(w.jobs[tk.job].core.keys[tk.at]) else Same
    ensures UnmatchedSum(ApplyTask(w, t, tk.job, out).jobs, k) > UnmatchedSum(w.jobs, k) <==> TakesUnmatched(w.jobs[tk.job], tk, k)
  {
    EntryGrows(w.jobs, tk.job, TaskEntry(w.jobs[tk.job], out), out.money, k);
    if tk.FinReleasing? {
      FinishedIff(w.jobs[tk.job], t, tk);
    }
  }

  lemma {:induction false} SubStepUnmatched(w: World, ev: Event, k: Key)
    requires AllTallied(w) && ev.SubStep? && ev.j < |w.jobs|
    ensures UnmatchedSum(Step(w, ev).jobs, k) > UnmatchedSum(w.jobs, k) <==> ReleasesUnmatched(w, ev, k)
  {
    var e := w.jobs[ev.j];
    SubFrame(e, ev.reply, Admits(w, Cost(e.core), NextKey(e)), ev.kind, ev.now);
    SubRuns(e, ev.reply, Admits(w, Cost(e.core), NextKey(e)), ev.kind, ev.now);
    SubUnmatched(w, ev.j, SubOutcome(w, e, ev.reply, ev.kind, ev.now), k);
  }

  lemma {:induction false} TaskStepUnmatched(w: World, ev: Event, k: Key)
    requires Inv(w) && AllTallied(w) && ev.TaskStep? && ev.t in w.tasks
    ensures UnmatchedSum(Step(w, ev).jobs, k) > UnmatchedSum(w.jobs, k) <==> ReleasesUnmatched(w, ev, k)
  {
    var tk := w.tasks[ev.t];
    var c := w.jobs[tk.job].core;
    TaskFrame(c, ev.t, tk, ev.answer, ev.now);
    TaskUnmatched(w, ev.t, tk, StepTask(c, ev.t, tk, ev.answer, ev.now), k);
    IsTaskStep(w, ev);
  }

  lemma {:induction false} IsTaskStep(w: World, ev: Event)
    requires ev.TaskStep? && ev.t in w.tasks && w.tasks[ev.t].job < |w.jobs|
    ensures var tk := w.tasks[ev.t];
            Step(w, ev) == ApplyTask(w, ev.t, tk.job, StepTask(w.jobs[tk.job].core, ev.t, tk, ev.answer, ev.now))
  {
  }

  lemma {:induction false} SameUnmatched(a: seq<Entry>, b: seq<Entry>, k: Key)
    requires |a| == |b| && forall i :: 0 <= i < |a| ==> Credit(a[i], k) == Credit(b[i], k) && a[i].core.ceiling == b[i].core.ceiling
    ensures UnmatchedSum(a, k) == UnmatchedSum(b, k)
  {
    if a != [] {
      SameUnmatched(a[..|a| - 1], b[..|b| - 1], k);
    }
  }

  lemma {:induction false} UnmatchedNonNeg(jobs: seq<Entry>, k: Key)
    ensures UnmatchedSum(jobs, k) >= 0
  {
    if jobs != [] {
      UnmatchedNonNeg(jobs[..|jobs| - 1], k);
      var last := jobs[|jobs| - 1];
      assert NonNegative(-Credit(last, k)) * Cost(last.core) >= 0;
    }
  }

  lemma {:induction false} ReconcileUnmatched(w: World, q: Key, k: Key)
    ensures UnmatchedSum(StepReconcile(w, q).jobs, k) <= UnmatchedSum(w.jobs, k)
    ensures q == k ==> UnmatchedSum(StepReconcile(w, q).jobs, k) == 0
  {
    UnmatchedNonNeg(w.jobs, k);
    if q == k {
      Recount(w.jobs, StepReconcile(w, q).jobs, k, k);
    } else {
      SameUnmatched(w.jobs, StepReconcile(w, q).jobs, k);
    }
  }

  lemma {:induction false} InsertUnmatched(w: World, ev: Event, k: Key)
    requires ev.Insert?
    ensures UnmatchedSum(Step(w, ev).jobs, k) == UnmatchedSum(w.jobs, k)
  {
    if Step(w, ev) != w {
      assert Step(w, ev).jobs[..|w.jobs|] == w.jobs;
      assert Product(0, ev.job.ceiling.GetOr(0)) == 0;
    }
  }

  lemma {:induction false} QuietUnmatched(w: World, ev: Event, k: Key)
    requires ev.SubCrash? || ev.PollRead? || ev.CancelRead? || ev.TaskCrash? || ev.ReconcileSpend?
    ensures UnmatchedSum(Step(w, ev).jobs, k) == UnmatchedSum(w.jobs, k)
  {
    QuietShape(w, ev);
    SameUnmatched(w.jobs, Step(w, ev).jobs, k);
  }

  lemma {:induction false} StepUnmatched(w: World, ev: Event, k: Key)
    requires Inv(w) && AllTallied(w)
    ensures UnmatchedSum(Step(w, ev).jobs, k) > UnmatchedSum(w.jobs, k) <==> ReleasesUnmatched(w, ev, k)
  {
    if ev.SubStep? {
      if ev.j < |w.jobs| { SubStepUnmatched(w, ev, k); }
    } else if ev.TaskStep? {
      if ev.t in w.tasks { TaskStepUnmatched(w, ev, k); }
    } else if ev.Insert? {
      InsertUnmatched(w, ev, k);
    } else if ev.ReconcilePending? {
      ReconcileUnmatched(w, ev.k, k);
    } else {
      QuietUnmatched(w, ev, k);
    }
  }

  /** In every interleaving a step adds to what a counter undercounts if and only if it is such a release: by a submitter
      or by a finish, of a counter on which nothing of the job is left. */
  lemma {:induction false} UnmatchedGrowsIff(amounts: map<Key, int>, evs: seq<Event>, ev: Event, k: Key)
    ensures var w := Run(Start(amounts), evs);
            UnmatchedSum(Step(w, ev).jobs, k) > UnmatchedSum(w.jobs, k) <==> ReleasesUnmatched(w, ev, k)
  {
    RunTallied(amounts, evs);
    RunKeeps(Start(amounts), evs);
    StepUnmatched(Run(Start(amounts), evs), ev, k);
  }

  /** Since the counter's last reconcile no release of it was unmatched. */
  ghost predicate MatchedSince(w: World, evs: seq<Event>, k: Key)
    decreases |evs|
  {
    || evs == [] || evs[|evs| - 1] == ReconcilePending(k)
    || (MatchedSince(w, evs[..|evs| - 1], k) && !ReleasesUnmatched(Run(w, evs[..|evs| - 1]), evs[|evs| - 1], k))
  }

  lemma {:induction false} MatchedLeavesNone(amounts: map<Key, int>, evs: seq<Event>, k: Key)
    requires MatchedSince(Start(amounts), evs, k)
    ensures UnmatchedSum(Run(Start(amounts), evs).jobs, k) == 0
    decreases |evs|
  {
    UnmatchedNonNeg(Run(Start(amounts), evs).jobs, k);
    if evs != [] {
      var init, ev := evs[..|evs| - 1], evs[|evs| - 1];
      if ev == ReconcilePending(k) {
        ReconcileUnmatched(Run(Start(amounts), init), k, k);
      } else {
        MatchedLeavesNone(amounts, init, k);
        UnmatchedGrowsIff(amounts, init, ev, k);
      }
    }
  }

  /** As long as none was, the counter covers every ceiling that live jobs hold on it, whatever failed, crashed or
      overlapped - and an admission never exceeds its budget. */
  lemma {:induction false} MatchedCovers(amounts: map<Key, int>, evs: seq<Event>, k: Key)
    requires MatchedSince(Start(amounts), evs, k)
    ensures var w := Run(Start(amounts), evs);
            && GetNat(w.pending, k) >= HeldSum(w.jobs, k)
            && forall j :: 0 <= j < |w.jobs| && w.jobs[j].sub.Reserving? && k == NextKey(w.jobs[j]) && Admits(w, Cost(w.jobs[j].core), k)
                 ==> Get(w.spend, k) + HeldSum(w.jobs, k) + Cost(w.jobs[j].core) <= Get(w.amounts, k)
  {
    MatchedLeavesNone(amounts, evs, k);
    PendingCoversLive(amounts, evs, k);
  }
}
