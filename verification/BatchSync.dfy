/** Orderly runs of the batch protocol: no lost or failed counter call, no submitter dying while it holds a partial
    reservation, no denied job whose row the poller has moved on, no unmatched release, and no reconcile of a counter
    while one of its jobs is between insert and reserve or between settle and release. Poller and cancel may overlap
    with anything. In such runs the counters never drift from the database, without a reconcile having to repair them. */
module BatchSync {
  import opened Options
  import opened BatchJobs
  import opened BatchProtocol
  import opened BatchSafety
  import opened BatchMoney
  import opened BatchReleases

  /** How often a job's ceiling is on counter `k` as far as its submitter has come. */
  function Want(e: Entry, k: Key): nat {
    var keys := e.core.keys;
    match e.sub
    case Checking => 0
    case Discarding => 0
    case Reserving(n) => if n <= |keys| then OneIf(k in keys[..n]) else 0
    case RollingBack(at, upto, _) => if at <= upto <= |keys| then OneIf(k in keys[at..upto]) else 0
    case Releasing(at) => if at <= |keys| then OneIf(k in keys[at..]) else 0
    case Idle => OneIf(Live(e.core.row) && k in keys)
    case _ => OneIf(k in keys)
  }

  /** The submitter has left a job that was finished meanwhile. */
  predicate Left(e: Entry) { e.sub.Idle? && e.core.winner.Some? }

  /** A counter carries what the submitter put there, until the finish releases it. */
  predicate OnTrack(e: Entry, k: Key) {
    if k in e.core.finReleased then Credit(e, k) == 0 && (Want(e, k) == 1 || Left(e))
    else if Left(e) then 0 <= Credit(e, k) <= OneIf(k in e.core.keys)
    else Credit(e, k) == Want(e, k)
  }

  predicate SubOk(e: Entry) {
    var keys := e.core.keys;
    && (e.core.row.None? ==> e.sub.Idle?) && (e.core.failWon ==> e.sub.Idle? || e.sub.Releasing?)
    && match e.sub
       case Reserving(n) => n < |keys|
       case RollingBack(at, upto, admit) => !admit && at < upto <= |keys|
       case Creating(reserved) => reserved <==> keys != []
       case Rejected(reserved) => reserved <==> keys != []
       case Releasing(at) => at < |keys| && !Live(e.core.row)
       case _ => true
  }

  ghost predicate SyncInv(e: Entry) { SubOk(e) && (Cost(e.core) > 0 ==> forall k :: OnTrack(e, k)) }

  ghost predicate Synced(w: World) {
    (forall j :: 0 <= j < |w.jobs| ==> SyncInv(w.jobs[j])) && (forall k :: GetNat(w.forgiven, k) == 0)
  }

  predicate MidSubmit(s: Submitter) { s.Checking? || s.Reserving? || s.RollingBack? || s.Discarding? || s.Releasing? }

  /** Between insert and reserve, or between settle (or fail) and release, of counter `k`. */
  predicate InFlight(e: Entry, k: Key) {
    Cost(e.core) > 0 && k in e.core.keys && (MidSubmit(e.sub) || (e.core.winner.Some? && k !in e.core.finReleased))
  }

  predicate NoneInFlight(jobs: seq<Entry>, k: Key) { forall j :: 0 <= j < |jobs| ==> !InFlight(jobs[j], k) }

  /** The submitter takes back a row that the poller has moved on: the delete misses, and the denied job stays live. */
  predicate DenialMisses(e: Entry) { e.sub.Discarding? && Live(e.core.row) && !Discards(e.core.row) }

  ghost predicate Orderly(w: World, ev: Event) {
    match ev
    case SubStep(j, reply, _, _) =>
      !reply.Fault? && (j < |w.jobs| ==> !DenialMisses(w.jobs[j])) && forall k :: !ReleasesUnmatched(w, ev, k)
    case SubCrash(j) => j < |w.jobs| ==> !MidSubmit(w.jobs[j].sub)
    case TaskStep(_, _, _) => forall k :: !ReleasesUnmatched(w, ev, k)
    case ReconcilePending(k) => NoneInFlight(w.jobs, k)
    case _ => true
  }

  ghost predicate OrderlyRun(w: World, evs: seq<Event>)
    decreases |evs|
  {
    evs == [] || (OrderlyRun(w, evs[..|evs| - 1]) && Orderly(Run(w, evs[..|evs| - 1]), evs[|evs| - 1]))
  }

  // ---- one job ----

  /** A release that finds its job on the counter finds it there once. */
  predicate Matched(e: Entry, m: Money) { m.Releases? && Cost(e.core) > 0 ==> Credit(e, m.k) >= 1 }

  lemma {:induction false} MatchedOnce(e: Entry, m: Money)
    requires SyncInv(e) && Matched(e, m) && m.Releases? && Cost(e.core) > 0
    ensures Credit(e, m.k) == 1 && m.k !in e.core.finReleased && (Want(e, m.k) == 1 || Left(e))
  {
    assert OnTrack(e, m.k);
  }

  lemma {:induction false} SliceStep(keys: seq<Key>, lo: nat, hi: nat, k: Key)
    requires NoDup(keys) && lo < hi <= |keys|
    ensures OneIf(k in keys[lo..hi]) == OneIf(k in keys[lo..hi - 1]) + OneIf(k == keys[hi - 1])
    ensures OneIf(k in keys[lo..hi]) == OneIf(k in keys[lo + 1..hi]) + OneIf(k == keys[lo])
  {
    var all, front, back := keys[lo..hi], keys[lo..hi - 1], keys[lo + 1..hi];
    assert all == front + [keys[hi - 1]];
    assert all == [keys[lo]] + back;
  }

  lemma {:induction false} PrefixStep(keys: seq<Key>, n: nat, k: Key)
    requires NoDup(keys) && n < |keys|
    ensures OneIf(k in keys[..n + 1]) == OneIf(k in keys[..n]) + OneIf(k == keys[n])
    ensures n + 1 == |keys| ==> OneIf(k in keys) == OneIf(k in keys[..n]) + OneIf(k == keys[n])
  {
    var more, front := keys[..n + 1], keys[..n];
    assert more == front + [keys[n]];
    assert n + 1 == |keys| ==> more == keys;
  }

  lemma {:induction false} SuffixStep(keys: seq<Key>, at: nat, k: Key)
    requires NoDup(keys) && at < |keys|
    ensures OneIf(k in keys[at..]) == OneIf(k in keys[at + 1..]) + OneIf(k == keys[at])
  {
    var all, rest := keys[at..], keys[at + 1..];
    assert all == [keys[at]] + rest;
  }

  lemma {:induction false} ReserveSync(e: Entry, reply: SubReply, admits: bool, k: Key)
    requires CoreOk(e.core) && SubOk(e) && OnTrack(e, k) && !reply.Fault? && e.sub.Reserving?
    ensures OnTrack(SubEntry(e, Reserve(e, e.sub.next, reply, admits)), k)
  {
    var keys, n := e.core.keys, e.sub.next;
    PrefixStep(keys, n, k);
    var front := keys[..n];
    assert keys[0..n] == front && (n == 0 ==> front == []);
    CreditedAt(e.credit, Reserve(e, n, reply, admits).money, k);
  }

  lemma {:induction false} RollbackSync(e: Entry, reply: SubReply, k: Key)
    requires CoreOk(e.core) && SubOk(e) && OnTrack(e, k) && !reply.Fault? && e.sub.RollingBack?
    requires Matched(e, Rollback(e, e.sub.at, e.sub.upto, e.sub.admit, reply).money) && Cost(e.core) > 0
    ensures OnTrack(SubEntry(e, Rollback(e, e.sub.at, e.sub.upto, e.sub.admit, reply)), k)
  {
    SliceStep(e.core.keys, e.sub.at, e.sub.upto, k);
    CreditedAt(e.credit, Rollback(e, e.sub.at, e.sub.upto, e.sub.admit, reply).money, k);
  }

  lemma {:induction false} GiveSync(e: Entry, reply: SubReply, admits: bool, kind: string, now: int, k: Key)
    requires CoreOk(e.core) && SubOk(e) && OnTrack(e, k) && e.sub.Releasing? && Cost(e.core) > 0
    requires Matched(e, StepSub(e, reply, admits, kind, now).money)
    ensures OnTrack(SubEntry(e, StepSub(e, reply, admits, kind, now)), k)
  {
    var keys, at := e.core.keys, e.sub.at;
    SuffixStep(keys, at, k);
    CreditedAt(e.credit, Releases(keys[at]), k);
  }

  /** The other steps run no script; what the submitter put on the counters stays. */
  lemma {:induction false} QuietSync(e: Entry, reply: SubReply, admits: bool, kind: string, now: int, k: Key)
    requires CoreOk(e.core) && SubOk(e) && OnTrack(e, k) && !reply.Fault? && Cost(e.core) > 0 && !DenialMisses(e)
    requires !e.sub.Reserving? && !e.sub.RollingBack? && !e.sub.Releasing?
    ensures OnTrack(SubEntry(e, StepSub(e, reply, admits, kind, now)), k)
  {
    match e.sub
    case Checking => CheckedSync(e, k);
    case Creating(reserved) => CreatedSync(e, reply, k);
    case Persisting(_, _) => PersistsLive(e, reply, admits, kind, now);
    case Rejected(_) => RejectedSync(e, kind, now, k);
    case Discarding => DiscardedSync(e, k);
    case Idle =>
  }

  lemma {:induction false} CheckedSync(e: Entry, k: Key)
    requires OnTrack(e, k) && e.sub.Checking?
    ensures OnTrack(SubEntry(e, At(e, AfterCheck(e.core))), k)
  {
    var keys := e.core.keys;
    assert keys[..0] == [];
  }

  lemma {:induction false} CreatedSync(e: Entry, reply: SubReply, k: Key)
    requires CoreOk(e.core) && SubOk(e) && OnTrack(e, k) && e.sub.Creating?
    ensures OnTrack(SubEntry(e, Create(e, e.sub.reserved, reply)), k)
  {
  }

  lemma {:induction false} RejectedSync(e: Entry, kind: string, now: int, k: Key)
    requires CoreOk(e.core) && SubOk(e) && OnTrack(e, k) && e.sub.Rejected? && Cost(e.core) > 0
    ensures OnTrack(SubEntry(e, Reject(e, e.sub.reserved, kind, now)), k)
  {
    var keys := e.core.keys;
    assert keys[0..] == keys;
  }

  lemma {:induction false} DiscardedSync(e: Entry, k: Key)
    requires CoreOk(e.core) && SubOk(e) && OnTrack(e, k) && e.sub.Discarding? && !DenialMisses(e)
    ensures OnTrack(SubEntry(e, SubOut(Discard(e.core), Idle, e.held, Same)), k)
  {
  }

  lemma {:induction false} PersistsLive(e: Entry, reply: SubReply, admits: bool, kind: string, now: int)
    requires CoreOk(e.core) && e.sub.Persisting?
    ensures var out := StepSub(e, reply, admits, kind, now);
            out.sub.Idle? && out.money.Same? && (Live(out.core.row) <==> Live(e.core.row)) && out.core == e.core.(row := out.core.row)
  {
  }

  lemma {:induction false} SubOkKept(e: Entry, reply: SubReply, admits: bool, kind: string, now: int)
    requires CoreOk(e.core) && SubOk(e) && !reply.Fault?
    ensures SubOk(SubEntry(e, StepSub(e, reply, admits, kind, now)))
  {
    if e.sub.Persisting? {
      PersistsLive(e, reply, admits, kind, now);
    } else if e.sub.Rejected? {
      RejectsOk(e, kind, now);
    }
  }

  lemma {:induction false} RejectsOk(e: Entry, kind: string, now: int)
    requires CoreOk(e.core) && SubOk(e) && e.sub.Rejected?
    ensures SubOk(SubEntry(e, Reject(e, e.sub.reserved, kind, now)))
  {
  }

  lemma {:induction false} SubSync(e: Entry, reply: SubReply, admits: bool, kind: string, now: int)
    requires CoreOk(e.core) && SyncInv(e) && !reply.Fault? && !DenialMisses(e)
    requires Matched(e, StepSub(e, reply, admits, kind, now).money)
    ensures SyncInv(SubEntry(e, StepSub(e, reply, admits, kind, now)))
  {
    SubOkKept(e, reply, admits, kind, now);
    SubFrame(e, reply, admits, kind, now);
    var b := SubEntry(e, StepSub(e, reply, admits, kind, now));
    if Cost(e.core) > 0 {
      forall k
        ensures OnTrack(b, k)
      {
        assert OnTrack(e, k);
        if e.sub.Reserving? {
          ReserveSync(e, reply, admits, k);
        } else if e.sub.RollingBack? {
          RollbackSync(e, reply, k);
        } else if e.sub.Releasing? {
          GiveSync(e, reply, admits, kind, now, k);
        } else {
          QuietSync(e, reply, admits, kind, now, k);
        }
      }
    }
  }

  lemma {:induction false} FinReleasingSync(e: Entry, t: nat, tk: Task)
    requires CoreOk(e.core) && TaskOk(e.core, t, tk) && tk.FinReleasing? && SyncInv(e) && Matched(e, Releases(e.core.keys[tk.at]))
    ensures SyncInv(TaskEntry(e, StepFinReleasing(e.core, tk.job, tk.at)))
  {
    var k0 := e.core.keys[tk.at];
    var b := TaskEntry(e, StepFinReleasing(e.core, tk.job, tk.at));
    if Cost(e.core) > 0 {
      MatchedOnce(e, Releases(k0));
      forall k
        ensures OnTrack(b, k)
      {
        assert OnTrack(e, k);
        CreditedAt(e.credit, Releases(k0), k);
      }
    }
  }

  /** A step that runs no script: a live job stays live, or its finish has everything to release. */
  lemma {:induction false} SameCredit(e: Entry, b: Entry)
    requires SyncInv(e) && b == e.(core := b.core) && Framed(e.core, b.core) && b.core.finReleased == e.core.finReleased
    requires !Live(e.core.row) ==> !Live(b.core.row) && b.core.winner == e.core.winner
    requires Live(e.core.row) ==> e.core.winner.None? && e.core.finReleased == [] && (Live(b.core.row) ==> b.core.winner.None?)
    requires Live(e.core.row) && !Live(b.core.row) ==> b.core.winner.Some?
    ensures SyncInv(b)
  {
    if Cost(e.core) > 0 {
      forall k
        ensures OnTrack(b, k)
      {
        assert OnTrack(e, k);
      }
    }
  }

  lemma {:induction false} TaskSync(e: Entry, t: nat, tk: Task, answer: Reply, now: int)
    requires CoreOk(e.core) && TaskOk(e.core, t, tk) && SyncInv(e) && Matched(e, StepTask(e.core, t, tk, answer, now).money)
    ensures SyncInv(TaskEntry(e, StepTask(e.core, t, tk, answer, now)))
  {
    TaskFrame(e.core, t, tk, answer, now);
    if tk.FinReleasing? {
      FinReleasingSync(e, t, tk);
    } else {
      TaskKeeps(e.core, t, tk, answer, now);
      SameCredit(e, TaskEntry(e, StepTask(e.core, t, tk, answer, now)));
    }
  }

  /** Outside those windows a job is on a counter exactly when the database counts it there. */
  lemma {:induction false} QuietCredit(e: Entry, k: Key)
    requires CoreOk(e.core) && SyncInv(e) && Cost(e.core) > 0 && !InFlight(e, k)
    ensures Credit(e, k) == OneIf(Counts(e.core, k))
  {
    assert OnTrack(e, k);
    assert k !in e.core.keys ==> k !in e.core.finReleased;
    if MidSubmit(e.sub) {
      NotWanted(e, k);
    }
  }

  lemma {:induction false} NotWanted(e: Entry, k: Key)
    requires k !in e.core.keys
    ensures Want(e, k) == 0
  {
  }

  lemma {:induction false} RecountSync(e: Entry, k: Key)
    requires CoreOk(e.core) && SyncInv(e) && !InFlight(e, k)
    ensures SyncInv(Recounted(e, k))
  {
    var b := Recounted(e, k);
    if Cost(e.core) > 0 {
      QuietCredit(e, k);
      forall q
        ensures OnTrack(b, q)
      {
        assert OnTrack(e, q);
        assert Credit(b, q) == Credit(e, q) && Want(b, q) == Want(e, q);
      }
    }
  }

  // ---- the whole state ----

  lemma {:induction false} TermNonNeg(e: Entry, k: Key)
    requires SyncInv(e)
    ensures Product(Credit(e, k), Cost(e.core)) >= 0
  {
    if Cost(e.core) > 0 {
      assert OnTrack(e, k);
    }
  }

  lemma {:induction false} SumNonNeg(jobs: seq<Entry>, k: Key)
    requires forall i :: 0 <= i < |jobs| ==> SyncInv(jobs[i])
    ensures CreditSum(jobs, k) >= 0
    ensures forall j :: 0 <= j < |jobs| ==> CreditSum(jobs, k) >= Product(Credit(jobs[j], k), Cost(jobs[j].core))
  {
    if jobs != [] {
      SumNonNeg(jobs[..|jobs| - 1], k);
      TermNonNeg(jobs[|jobs| - 1], k);
    }
  }

  /** A release in an orderly run always finds its ceiling on the counter: the floor never acts. */
  lemma {:induction false} ReleaseCovered(w: World, j: JobId, m: Money)
    requires Synced(w) && Balanced(w) && j < |w.jobs| && Matched(w.jobs[j], m)
    ensures forall k :: GetNat(ForgivenAfter(w.pending, w.forgiven, m, Cost(w.jobs[j].core)), k) == 0
  {
    var cost := Cost(w.jobs[j].core);
    if m.Releases? {
      SumNonNeg(w.jobs, m.k);
      assert GetNat(w.pending, m.k) == CreditSum(w.jobs, m.k) + GetNat(w.forgiven, m.k);
      assert CreditSum(w.jobs, m.k) >= Product(Credit(w.jobs[j], m.k), cost);
      if cost > 0 {
        MatchedOnce(w.jobs[j], m);
      }
    }
    forall k
      ensures GetNat(ForgivenAfter(w.pending, w.forgiven, m, cost), k) == 0
    {
      assert GetNat(w.forgiven, k) == 0;
    }
  }

  lemma {:induction false} AtSync(w: World, w': World, j: JobId, m: Money)
    requires Synced(w) && Balanced(w) && j < |w.jobs| && |w'.jobs| == |w.jobs| && w'.jobs == w.jobs[j := w'.jobs[j]]
    requires SyncInv(w'.jobs[j]) && w'.forgiven == ForgivenAfter(w.pending, w.forgiven, m, Cost(w.jobs[j].core))
    requires Matched(w.jobs[j], m)
    ensures Synced(w')
  {
    ReleaseCovered(w, j, m);
    forall i | 0 <= i < |w'.jobs|
      ensures SyncInv(w'.jobs[i])
    {
      assert i != j ==> w'.jobs[i] == w.jobs[i];
    }
  }

  /** What an orderly step releases is there. */
  lemma {:induction false} SubMatched(w: World, ev: Event)
    requires AllTallied(w) && ev.SubStep? && ev.j < |w.jobs| && Orderly(w, ev)
    ensures Matched(w.jobs[ev.j], SubOutcome(w, w.jobs[ev.j], ev.reply, ev.kind, ev.now).money)
  {
    var e := w.jobs[ev.j];
    var m := SubOutcome(w, e, ev.reply, ev.kind, ev.now).money;
    if m.Releases? && Cost(e.core) > 0 {
      SubRuns(e, ev.reply, Admits(w, Cost(e.core), NextKey(e)), ev.kind, ev.now);
      GivenIff(e, m.k);
      assert !ReleasesUnmatched(w, ev, m.k);
    }
  }

  lemma {:induction false} TaskMatched(w: World, ev: Event)
    requires Inv(w) && AllTallied(w) && ev.TaskStep? && ev.t in w.tasks && Orderly(w, ev) && w.tasks[ev.t].FinReleasing?
    ensures var e, tk := w.jobs[w.tasks[ev.t].job], w.tasks[ev.t]; Matched(e, Releases(e.core.keys[tk.at]))
  {
    var e, tk := w.jobs[w.tasks[ev.t].job], w.tasks[ev.t];
    FinishedIff(e, ev.t, tk);
    assert !ReleasesUnmatched(w, ev, e.core.keys[tk.at]);
  }

  lemma {:induction false} SubStepSync(w: World, ev: Event)
    requires Inv(w) && Balanced(w) && AllTallied(w) && Synced(w) && ev.SubStep? && ev.j < |w.jobs| && Orderly(w, ev)
    ensures Synced(ApplySub(w, ev.j, SubOutcome(w, w.jobs[ev.j], ev.reply, ev.kind, ev.now)))
  {
    var e := w.jobs[ev.j];
    var out := SubOutcome(w, e, ev.reply, ev.kind, ev.now);
    SubMatched(w, ev);
    SubSync(e, ev.reply, Admits(w, Cost(e.core), NextKey(e)), ev.kind, ev.now);
    AtSync(w, ApplySub(w, ev.j, out), ev.j, out.money);
  }

  lemma {:induction false} ApplyTaskSync(w: World, t: nat, j: JobId, out: TaskOut)
    requires Synced(w) && Balanced(w) && j < |w.jobs| && SyncInv(TaskEntry(w.jobs[j], out)) && Matched(w.jobs[j], out.money)
    ensures Synced(ApplyTask(w, t, j, out))
  {
    AtSync(w, ApplyTask(w, t, j, out), j, out.money);
  }

  lemma {:induction false} TaskStepSync(w: World, ev: Event)
    requires Inv(w) && Balanced(w) && AllTallied(w) && Synced(w) && ev.TaskStep? && ev.t in w.tasks && Orderly(w, ev)
    ensures var j := w.tasks[ev.t].job;
            Synced(ApplyTask(w, ev.t, j, StepTask(w.jobs[j].core, ev.t, w.tasks[ev.t], ev.answer, ev.now)))
  {
    var j, tk := w.tasks[ev.t].job, w.tasks[ev.t];
    var e := w.jobs[j];
    TaskFrame(e.core, ev.t, tk, ev.answer, ev.now);
    if tk.FinReleasing? {
      TaskMatched(w, ev);
    }
    TaskSync(e, ev.t, tk, ev.answer, ev.now);
    ApplyTaskSync(w, ev.t, j, StepTask(e.core, ev.t, tk, ev.answer, ev.now));
  }

  lemma {:induction false} ReconcileSync(w: World, k: Key)
    requires Inv(w) && Synced(w) && NoneInFlight(w.jobs, k)
    ensures Synced(StepReconcile(w, k))
  {
    forall j | 0 <= j < |w.jobs|
      ensures SyncInv(StepReconcile(w, k).jobs[j])
    {
      RecountSync(w.jobs[j], k);
    }
    forall q
      ensures GetNat(StepReconcile(w, k).forgiven, q) == 0
    {
      assert GetNat(w.forgiven, q) == 0;
    }
  }

  lemma {:induction false} InsertSync(w: World, ev: Event)
    requires Synced(w) && ev.Insert?
    ensures Synced(Step(w, ev))
  {
    assert SyncInv(NewEntry(ev.job, ev.keys, ev.results));
  }

  lemma {:induction false} CrashSync(e: Entry)
    requires CoreOk(e.core) && SyncInv(e) && !MidSubmit(e.sub)
    ensures SyncInv(e.(sub := Idle))
  {
    if Cost(e.core) > 0 {
      forall k
        ensures OnTrack(e.(sub := Idle), k)
      {
        assert OnTrack(e, k);
      }
    }
  }

  lemma {:induction false} SubCrashSync(w: World, j: JobId)
    requires Inv(w) && Synced(w) && (j < |w.jobs| ==> !MidSubmit(w.jobs[j].sub))
    ensures Synced(Step(w, SubCrash(j)))
  {
    CrashShape(w, j);
    if j < |w.jobs| {
      CrashSync(w.jobs[j]);
    }
  }

  lemma {:induction false} ReadSync(w: World, ev: Event)
    requires Synced(w) && (ev.PollRead? || ev.CancelRead? || ev.TaskCrash? || ev.ReconcileSpend?)
    ensures Synced(Step(w, ev))
  {
    ReadShape(w, ev);
  }

  lemma {:induction false} StepSync(w: World, ev: Event)
    requires Inv(w) && Balanced(w) && AllTallied(w) && Synced(w) && Orderly(w, ev)
    ensures Synced(Step(w, ev))
  {
    match ev
    case SubStep(j, _, _, _) => if j < |w.jobs| { SubStepSync(w, ev); }
    case TaskStep(t, _, _) => if t in w.tasks { TaskStepSync(w, ev); }
    case ReconcilePending(k) => ReconcileSync(w, k);
    case Insert(_, _, _) => InsertSync(w, ev);
    case SubCrash(j) => SubCrashSync(w, j);
    case _ => ReadSync(w, ev);
  }

  lemma {:induction false} OrderlyRunSync(amounts: map<Key, int>, evs: seq<Event>)
    requires OrderlyRun(Start(amounts), evs)
    ensures Synced(Run(Start(amounts), evs))
    decreases |evs|
  {
    if evs != [] {
      var init := evs[..|evs| - 1];
      OrderlyRunSync(amounts, init);
      RunKeeps(Start(amounts), init);
      RunBalances(amounts, init);
      RunTallied(amounts, init);
      StepSync(Run(Start(amounts), init), evs[|evs| - 1]);
    }
  }

  lemma {:induction false} QuietTerm(e: Entry, k: Key)
    requires CoreOk(e.core) && SyncInv(e) && !InFlight(e, k)
    ensures Product(Credit(e, k), Cost(e.core)) == if Counts(e.core, k) then Cost(e.core) else 0
  {
    if Cost(e.core) > 0 {
      QuietCredit(e, k);
    }
  }

  lemma {:induction false} QuietSum(jobs: seq<Entry>, k: Key)
    requires forall j :: 0 <= j < |jobs| ==> CoreOk(jobs[j].core) && SyncInv(jobs[j]) && !InFlight(jobs[j], k)
    ensures CreditSum(jobs, k) == DbSum(jobs, k)
  {
    if jobs != [] {
      QuietSum(jobs[..|jobs| - 1], k);
      QuietTerm(jobs[|jobs| - 1], k);
    }
  }

  lemma {:induction false} QuietPending(w: World, k: Key)
    requires Inv(w) && Synced(w) && Balanced(w) && NoneInFlight(w.jobs, k)
    ensures GetNat(w.pending, k) == DbSum(w.jobs, k)
  {
    QuietSum(w.jobs, k);
    assert GetNat(w.pending, k) == CreditSum(w.jobs, k) + GetNat(w.forgiven, k);
  }

  /** Every state of an orderly run in which no job is between insert and reserve, or between settle and release,
      of a counter has exactly the database sum on that counter - however many submits, rollbacks, rejections,
      finishes and cancels came before and overlapped, and whether or not it was ever reconciled. */
  lemma {:induction false} NoDrift(amounts: map<Key, int>, evs: seq<Event>, k: Key)
    requires OrderlyRun(Start(amounts), evs)
    requires NoneInFlight(Run(Start(amounts), evs).jobs, k)
    ensures var w := Run(Start(amounts), evs); GetNat(w.pending, k) == DbSum(w.jobs, k)
  {
    OrderlyRunSync(amounts, evs);
    RunKeeps(Start(amounts), evs);
    RunBalances(amounts, evs);
    QuietPending(Run(Start(amounts), evs), k);
  }
}
