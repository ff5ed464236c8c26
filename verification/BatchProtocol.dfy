/** The batch protocol as interleaved steps, one per awaited statement: any number of submitters, poller
    advances (with stale row snapshots), cancels and reconciliations, with a crash possible between any two. */
module BatchProtocol {
  import opened Options
  import opened BatchJobs
  import opened ItemTotals
  import opened Rounding

  type Key = string

  /** Where the submitter of a job stands. `admit`: the fail-open mode lets the job through unrecorded. */
  datatype Submitter =
    | Idle
    | Checking
    | Reserving(next: nat)
    | RollingBack(at: nat, upto: nat, admit: bool)
    | Discarding
    | Creating(reserved: bool)
    | Persisting(upstreamId: string, status: Option<UpstreamStatus>)
    | Rejected(reserved: bool)
    | Releasing(at: nat)

  /** A job as the database and the upstream know it. `keys` are the counters of the block budgets that govern
      it and `results` what the upstream returns whenever its results are readable. The last four fields record
      the run: the poller task whose `settle` matched, whether the submitter's `fail` did, the counters a finish has
      released so far, and whether the winning finish had read the results. */
  datatype Core = Core(
    row: Option<Job>,
    ceiling: Option<nat>,
    keys: seq<Key>,
    results: map<CustomId, ItemRow>,
    ledger: map<CustomId, ItemRow>,
    winner: Option<nat>,
    failWon: bool,
    finReleased: seq<Key>,
    settled: bool)

  /** What happened to a job's ceiling on one counter since that counter's last reconcile: whether the reconcile counted
      it (`None`: there was none since the job's insert), its submitter reserved it, its submitter gave it back, a finish
      released it. */
  datatype Tally = Tally(counted: Option<bool>, reserved: bool, given: bool, finished: bool)

  const UNTOUCHED := Tally(None, false, false, false)

  /** A job with its submitter. `credit` is, per counter, times added or counted minus times released since that
      counter's last reconcile; `held` the counters where its ceiling was reserved or counted and not rolled back. */
  datatype Entry = Entry(core: Core, sub: Submitter, held: set<Key>, credit: map<Key, int>, tally: map<Key, Tally>)

  /** Where one poller advance or cancel request stands; `row` is the snapshot it decides on. */
  datatype Task =
    | Advance(job: JobId, row: Job)
    | MarkUnknown(job: JobId)
    | Listing(job: JobId, row: Job)
    | Adopting(job: JobId, upstreamId: string, listed: Option<UpstreamStatus>)
    | PollCancel(job: JobId, row: Job)
    | Probing(job: JobId, row: Job)
    | NoteUnmapped(job: JobId, row: Job)
    | Patching(job: JobId, view: UpstreamStatus, counts: Option<(nat, nat)>)
    | Holding(job: JobId, row: Job, verdict: Status)
    | Settling(job: JobId, row: Job, verdict: Status, flushed: set<CustomId>)
    | Finishing(job: JobId, status: Status, errorKind: Option<string>, totals: Totals, readable: bool)
    | FinReleasing(job: JobId, at: nat)
    | CancelLoaded(job: JobId, row: Job)
    | CancelIntent(job: JobId)
    | CancelAsked(job: JobId)

  datatype World = World(
    jobs: seq<Entry>,
    tasks: map<nat, Task>,
    amounts: map<Key, int>,
    spend: map<Key, int>,
    pending: map<Key, nat>,
    forgiven: map<Key, nat>)

  /** What the environment answers to a submitter's next statement. */
  datatype SubReply = Done | Fault(applied: bool, failOpen: bool) | Accepted(upstreamId: string, status: Option<UpstreamStatus>) | Refused | Ambiguous

  /** What the environment answers to a task's next statement. `None` statuses are unmapped ones. */
  datatype Reply =
    | Ok
    | Gone
    | Waiting
    | Found(upstreamId: string, listed: Option<UpstreamStatus>)
    | Absent(windowElapsed: bool)
    | Viewed(status: Option<UpstreamStatus>, counts: Option<(nat, nat)>)
    | Lost(windowElapsed: bool)
    | Flushed(ids: set<CustomId>)
    | ResultsGone

  datatype Event =
    | Insert(job: Job, keys: seq<Key>, results: map<CustomId, ItemRow>)
    | SubStep(j: JobId, reply: SubReply, kind: string, now: int)
    | SubCrash(j: JobId)
    | PollRead(t: nat, j: JobId)
    | CancelRead(t: nat, j: JobId)
    | TaskStep(t: nat, answer: Reply, now: int)
    | TaskCrash(t: nat)
    | ReconcilePending(k: Key)
    | ReconcileSpend(k: Key, micros: int)

  // ---- counters ----

  function Get(m: map<Key, int>, k: Key): int { if k in m then m[k] else 0 }

  function GetNat(m: map<Key, nat>, k: Key): nat { if k in m then m[k] else 0 }

  function Credit(e: Entry, k: Key): int { Get(e.credit, k) }

  function TallyAt(m: map<Key, Tally>, k: Key): Tally { if k in m then m[k] else UNTOUCHED }

  function TallyOf(e: Entry, k: Key): Tally { TallyAt(e.tally, k) }

  function Cost(c: Core): nat { c.ceiling.GetOr(0) }

  /** What a step does to the pending counters: nothing, or one reserve or release script on one key. */
  datatype Money = Same | Adds(k: Key) | Releases(k: Key)

  function Delta(m: Money, k: Key): int { if m == Adds(k) then 1 else if m == Releases(k) then -1 else 0 }

  function Credited(credit: map<Key, int>, m: Money): map<Key, int> {
    if m.Same? then credit else credit[m.k := Get(credit, m.k) + Delta(m, m.k)]
  }

  /** The record of a script the submitter ran, and of one a finish ran. */
  function BySubmitter(m: map<Key, Tally>, s: Money): map<Key, Tally> {
    match s
    case Same => m
    case Adds(k) => m[k := TallyAt(m, k).(reserved := true)]
    case Releases(k) => m[k := TallyAt(m, k).(given := true)]
  }

  function ByFinish(m: map<Key, Tally>, s: Money): map<Key, Tally> {
    if s.Releases? then m[s.k := TallyAt(m, s.k).(finished := true)] else m
  }

  /** The release script subtracts, floored at zero. */
  function PendingAfter(pending: map<Key, nat>, m: Money, cost: nat): map<Key, nat> {
    match m
    case Same => pending
    case Adds(k) => pending[k := GetNat(pending, k) + cost]
    case Releases(k) => pending[k := NonNegative(GetNat(pending, k) - cost)]
  }

  /** What the floor gave away: the part of a release the counter could not cover. */
  function ForgivenAfter(pending: map<Key, nat>, forgiven: map<Key, nat>, m: Money, cost: nat): map<Key, nat> {
    if m.Releases? then forgiven[m.k := GetNat(forgiven, m.k) + NonNegative(cost - GetNat(pending, m.k))] else forgiven
  }

  function Moved(w: World, m: Money, cost: nat): World {
    w.(pending := PendingAfter(w.pending, m, cost), forgiven := ForgivenAfter(w.pending, w.forgiven, m, cost))
  }

  predicate Admits(w: World, cost: nat, k: Key) { Get(w.spend, k) + GetNat(w.pending, k) + cost <= Get(w.amounts, k) }

  // ---- the submitter ----

  /** A submitter's step: the job after it, where the submitter stands, and the counter script it ran. */
  datatype SubOut = SubOut(core: Core, sub: Submitter, held: set<Key>, money: Money)

  function At(e: Entry, s: Submitter): SubOut { SubOut(e.core, s, e.held, Same) }

  function AfterCheck(c: Core): Submitter {
    if c.keys == [] then Creating(false) else if c.ceiling.None? then Discarding else Reserving(0)
  }

  function AfterRollback(admit: bool): Submitter { if admit then Creating(false) else Discarding }

  /** One check-and-reserve; `admits` is the script's verdict. A fault may or may not have run the script. */
  function Reserve(e: Entry, n: nat, reply: SubReply, admits: bool): SubOut
    requires n < |e.core.keys|
  {
    var k := e.core.keys[n];
    match reply
    case Done =>
      if admits then
        SubOut(e.core, if n + 1 == |e.core.keys| then Creating(true) else Reserving(n + 1), e.held + {k}, Adds(k))
      else At(e, if n == 0 then Discarding else RollingBack(0, n, false))
    case Fault(applied, failOpen) =>
      SubOut(e.core, if n == 0 then AfterRollback(failOpen) else RollingBack(0, n, failOpen), e.held,
             if applied && admits then Adds(k) else Same)
    case _ => At(e, e.sub)
  }

  /** One release of the rollback; a lost one is swallowed and the rollback goes on. */
  function Rollback(e: Entry, at: nat, upto: nat, admit: bool, reply: SubReply): SubOut
    requires at < upto <= |e.core.keys|
  {
    var k := e.core.keys[at];
    var next := if at + 1 == upto then AfterRollback(admit) else RollingBack(at + 1, upto, admit);
    match reply
    case Done => SubOut(e.core, next, e.held - {k}, Releases(k))
    case Fault(_, _) => At(e, next)
    case _ => At(e, e.sub)
  }

  function Create(e: Entry, reserved: bool, reply: SubReply): SubOut {
    match reply
    case Accepted(id, st) => At(e, Persisting(id, st))
    case Refused => At(e, Rejected(reserved))
    case Ambiguous => At(e, Idle)
    case _ => At(e, e.sub)
  }

  function PersistPatch(id: string, st: Option<UpstreamStatus>): Patch { StatusPatch(st.GetOr(Validating)).(upstreamId := Some(id)) }

  function Updated(c: Core, p: Patch, when: Option<set<Status>>): Core {
    c.(row := After(c.row, UpdateRow(c.row, p, when)))
  }

  /** A definitive rejection: `fail` the row, then release - whether or not the `fail` matched. */
  function Reject(e: Entry, reserved: bool, kind: string, now: int): SubOut {
    var c := e.core;
    var r := FailRow(c.row, kind, now);
    SubOut(c.(row := After(c.row, r), failWon := c.failWon || r.Written?),
           if reserved && c.keys != [] && Cost(c) > 0 then Releasing(0) else Idle, e.held, Same)
  }

  function Discard(c: Core): Core { c.(row := if Discards(c.row) then None else c.row) }

  function StepSub(e: Entry, reply: SubReply, admits: bool, kind: string, now: int): SubOut {
    match e.sub
    case Idle => At(e, Idle)
    case Checking =>
      (match reply
       case Done => At(e, AfterCheck(e.core))
       case Fault(_, failOpen) => At(e, AfterRollback(failOpen))
       case _ => At(e, Checking))
    case Reserving(n) => if n < |e.core.keys| then Reserve(e, n, reply, admits) else At(e, e.sub)
    case RollingBack(at, upto, admit) => if at < upto <= |e.core.keys| then Rollback(e, at, upto, admit, reply) else At(e, e.sub)
    case Discarding => SubOut(Discard(e.core), Idle, e.held, Same)
    case Creating(reserved) => Create(e, reserved, reply)
    case Persisting(id, st) => SubOut(Updated(e.core, PersistPatch(id, st), Some({Submitting})), Idle, e.held, Same)
    case Rejected(reserved) => Reject(e, reserved, kind, now)
    case Releasing(at) =>
      if at < |e.core.keys| then
        SubOut(e.core, if at + 1 == |e.core.keys| then Idle else Releasing(at + 1), e.held, Releases(e.core.keys[at]))
      else At(e, e.sub)
  }

  /** The key whose check-and-reserve the submitter is about to run. */
  function NextKey(e: Entry): Key {
    if e.sub.Reserving? && e.sub.next < |e.core.keys| then e.core.keys[e.sub.next] else ""
  }

  // ---- the poller and the cancel request ----

  /** `next`: what comes next for it (`None`: it ended). */
  datatype TaskOut = TaskOut(core: Core, next: Option<Task>, money: Money)

  function Ended(c: Core): TaskOut { TaskOut(c, None, Same) }

  function Becomes(c: Core, tk: Task): TaskOut { TaskOut(c, Some(tk), Same) }

  function FinishEmpty(j: JobId, status: Status, kind: Option<string>): Task { Finishing(j, status, kind, ZERO, false) }

  function StepAdvance(c: Core, j: JobId, row: Job, answer: Reply): TaskOut {
    match answer
    case Gone => Becomes(c, FinishEmpty(j, Failed, Some("provider_missing")))
    case Waiting => if row.status.Submitting? then Ended(c) else Becomes(c, Advance(j, row))
    case Ok =>
      Becomes(c,
        if row.status.Submitting? then MarkUnknown(j)
        else if row.status.SubmissionUnknown? || row.upstreamId.None? then Listing(j, row)
        else if row.cancelRequested && !row.status.Cancelling? then PollCancel(j, row)
        else Probing(j, row))
    case _ => Becomes(c, Advance(j, row))
  }

  function StepListing(c: Core, j: JobId, row: Job, answer: Reply): TaskOut {
    match answer
    case Found(id, st) => Becomes(c, Adopting(j, id, st))
    case Absent(elapsed) =>
      if elapsed then
        Becomes(c, FinishEmpty(j, Failed, Some(if row.cancelRequested then "submit_lost" else "submit_unresolved")))
      else Ended(c)
    case _ => Becomes(c, Listing(j, row))
  }

  function AdoptPatch(id: string, listed: Option<UpstreamStatus>): Patch {
    StatusPatch(listed.GetOr(InProgress)).(upstreamId := Some(id), errorKind := Some(None), stalledSince := Some(None))
  }

  function ViewPatch(s: Status, counts: Option<(nat, nat)>): Patch {
    var p := StatusPatch(s).(errorKind := Some(None), stalledSince := Some(None));
    if counts.Some? then p.(completed := Some(counts.value.0), failed := Some(counts.value.1)) else p
  }

  function HoldPatch(row: Job, verdict: Status): Patch {
    StatusPatch(if row.status.Cancelling? || verdict.Cancelled? then Cancelling else Finalizing)
      .(errorKind := Some(None), stalledSince := Some(None))
  }

  function FinalStatus(job: Job, verdict: Status): Status {
    if verdict.Cancelled? || job.status.Cancelling? then Cancelled else verdict
  }

  function StepProbing(c: Core, j: JobId, row: Job, answer: Reply): TaskOut {
    match answer
    case Lost(elapsed) =>
      Becomes(c, if elapsed then FinishEmpty(j, Expired, None) else FinishEmpty(j, Failed, Some("submit_lost")))
    case Viewed(st, counts) =>
      Becomes(c,
        if st.None? then NoteUnmapped(j, row)
        else if IsTerminal(st.value) then Holding(j, row, st.value)
        else Patching(j, st.value, counts))
    case _ => Becomes(c, Probing(j, row))
  }

  /** Hold the job in `finalizing` or `cancelling`, then settle; a lost race settles from the stale snapshot. */
  function StepHolding(c: Core, j: JobId, row: Job, verdict: Status): TaskOut {
    var r := UpdateRow(c.row, HoldPatch(row, verdict), Some(POLLABLE));
    var job := if r.Written? then r.row else row;
    if r.Violated? then Ended(c)
    else
      Becomes(c.(row := After(c.row, r)),
        if job.upstreamId.Some? then Settling(j, job, verdict, {}) else FinishEmpty(j, FinalStatus(job, verdict), None))
  }

  function Restrict(m: map<CustomId, ItemRow>, ids: set<CustomId>): map<CustomId, ItemRow> {
    map c | c in m && c in ids :: m[c]
  }

  /** Insert-once: a row already in the ledger stays as it is. */
  function InsertOnce(ledger: map<CustomId, ItemRow>, rows: map<CustomId, ItemRow>): map<CustomId, ItemRow> {
    rows + ledger
  }

  ghost function StepSettling(c: Core, j: JobId, job: Job, verdict: Status, flushed: set<CustomId>, answer: Reply): TaskOut {
    match answer
    case Flushed(ids) =>
      var rows := Restrict(c.results, ids);
      Becomes(c.(ledger := InsertOnce(c.ledger, rows)), Settling(j, job, verdict, flushed + rows.Keys))
    case Ok =>
      if flushed == c.results.Keys then Becomes(c, Finishing(j, FinalStatus(job, verdict), None, TotalsOf(c.results), true))
      else Becomes(c, Settling(j, job, verdict, flushed))
    case ResultsGone => Becomes(c, FinishEmpty(j, FinalStatus(job, verdict), None))
    case _ => Becomes(c, Settling(j, job, verdict, flushed))
  }

  function SettlementOf(status: Status, kind: Option<string>, totals: Totals, now: int): Settlement {
    Settlement(status, totals.completed, totals.failed, totals.cost, now, kind)
  }

  function FinishGuard(totals: Totals): set<Status> {
    if totals.completed + totals.failed > 0 then SETTLED_FROM else NON_TERMINAL
  }

  function StepFinishing(c: Core, t: nat, j: JobId, status: Status, kind: Option<string>, totals: Totals, readable: bool, now: int): TaskOut {
    var r := SettleRow(c.row, SettlementOf(status, kind, totals, now), FinishGuard(totals));
    if !r.Written? then Ended(c)
    else
      var c1 := c.(row := Some(r.row), winner := Some(t), settled := readable);
      if Cost(c) > 0 && c.keys != [] then Becomes(c1, FinReleasing(j, 0)) else Ended(c1)
  }

  function StepFinReleasing(c: Core, j: JobId, at: nat): TaskOut
    requires at < |c.keys|
  {
    var k := c.keys[at];
    TaskOut(c.(finReleased := c.finReleased + [k]),
            if at + 1 == |c.keys| then None else Some(FinReleasing(j, at + 1)), Releases(k))
  }

  function StepCancel(c: Core, j: JobId, row: Job, answer: Reply): TaskOut {
    if IsTerminal(row.status) then Ended(c)
    else if row.upstreamId.None? then Becomes(c, CancelIntent(j))
    else if row.status.Cancelling? then Ended(c)
    else
      match answer
      case Gone => Becomes(c, CancelIntent(j))
      case Ok => Becomes(c, CancelAsked(j))
      case _ => Becomes(c, CancelLoaded(j, row))
  }

  function UnknownPatch(now: int): Patch {
    StatusPatch(SubmissionUnknown).(errorKind := Some(None), stalledSince := Some(Some(now)))
  }

  /** The stall dates from the first unmapped view. */
  function UnmappedPatch(row: Job, now: int): Patch {
    NO_CHANGE.(errorKind := Some(Some("upstream_status_unknown")), stalledSince := Some(Some(row.stalledSince.GetOr(now))))
  }

  const INTENT := NO_CHANGE.(cancelRequested := Some(true))
  const CANCEL := StatusPatch(Cancelling).(cancelRequested := Some(true))

  ghost function StepTask(c: Core, t: nat, tk: Task, answer: Reply, now: int): TaskOut {
    match tk
    case Advance(j, row) => StepAdvance(c, j, row, answer)
    case MarkUnknown(_) => Ended(Updated(c, UnknownPatch(now), Some({Submitting})))
    case Listing(j, row) => StepListing(c, j, row, answer)
    case Adopting(_, id, st) => Ended(Updated(c, AdoptPatch(id, st), None))
    case PollCancel(j, row) => Becomes(Updated(c, StatusPatch(Cancelling), Some(CANCELLABLE)), Probing(j, row))
    case Probing(j, row) => StepProbing(c, j, row, answer)
    case NoteUnmapped(_, row) => Ended(Updated(c, UnmappedPatch(row, now), None))
    case Patching(_, st, counts) => Ended(Updated(c, ViewPatch(st, counts), Some(POLLABLE)))
    case Holding(j, row, verdict) => StepHolding(c, j, row, verdict)
    case Settling(j, row, verdict, flushed) => StepSettling(c, j, row, verdict, flushed, answer)
    case Finishing(j, status, kind, totals, readable) => StepFinishing(c, t, j, status, kind, totals, readable, now)
    case FinReleasing(j, at) => if at < |c.keys| then StepFinReleasing(c, j, at) else Ended(c)
    case CancelLoaded(j, row) => StepCancel(c, j, row, answer)
    case CancelIntent(_) => Ended(Updated(c, INTENT, None))
    case CancelAsked(_) => Ended(Updated(c, CANCEL, Some(CANCELLABLE)))
  }

  // ---- reconciliation ----

  predicate Counts(c: Core, k: Key) { Live(c.row) && k in c.keys }

  /** Sum of the ceilings of the live jobs a counter governs: the scheduler's database read. */
  function DbSum(jobs: seq<Entry>, k: Key): nat {
    if jobs == [] then 0
    else DbSum(jobs[..|jobs| - 1], k) + (if Counts(jobs[|jobs| - 1].core, k) then Cost(jobs[|jobs| - 1].core) else 0)
  }

  function Recounted(e: Entry, k: Key): Entry {
    var n := Counts(e.core, k);
    e.(credit := e.credit[k := if n then 1 else 0], held := if n then e.held + {k} else e.held - {k},
       tally := e.tally[k := UNTOUCHED.(counted := Some(n))])
  }

  function StepReconcile(w: World, k: Key): World {
    w.(jobs := seq(|w.jobs|, i requires 0 <= i < |w.jobs| => Recounted(w.jobs[i], k)),
       pending := w.pending[k := DbSum(w.jobs, k)],
       forgiven := w.forgiven[k := 0])
  }

  /** The ledger's total raises the spend counter, never lowers it. */
  function StepSpend(w: World, k: Key, micros: int): World {
    if micros > Get(w.spend, k) then w.(spend := w.spend[k := micros]) else w
  }

  // ---- runs ----

  predicate NoDup(s: seq<Key>) { forall a, b :: 0 <= a < b < |s| ==> s[a] != s[b] }

  predicate FreshRow(j: Job) {
    j.status.Submitting? && j.upstreamId.None? && j.completed == 0 && j.failed == 0 && !j.cancelRequested
    && j.settledCost.None? && j.terminalAt.None? && j.errorKind.None?
  }

  function NewEntry(job: Job, keys: seq<Key>, results: map<CustomId, ItemRow>): Entry {
    Entry(Core(Some(job), job.ceiling, keys, results, map[], None, false, [], false), Checking, {}, map[], map[])
  }

  function SetJob(w: World, j: JobId, e: Entry): World
    requires j < |w.jobs|
  {
    w.(jobs := w.jobs[j := e])
  }

  function Scheduled(tasks: map<nat, Task>, t: nat, next: Option<Task>): map<nat, Task> {
    if next.Some? then tasks[t := next.value] else tasks - {t}
  }

  function SetTask(w: World, t: nat, next: Option<Task>): World { w.(tasks := Scheduled(w.tasks, t, next)) }

  /** A job after its submitter's step, and after a task's. */
  function SubEntry(e: Entry, out: SubOut): Entry {
    Entry(out.core, out.sub, out.held, Credited(e.credit, out.money), BySubmitter(e.tally, out.money))
  }

  function TaskEntry(e: Entry, out: TaskOut): Entry {
    e.(core := out.core, credit := Credited(e.credit, out.money), tally := ByFinish(e.tally, out.money))
  }

  function ApplySub(w: World, j: JobId, out: SubOut): (r: World)
    requires j < |w.jobs|
    ensures r.tasks == w.tasks && |r.jobs| == |w.jobs| && r.jobs == w.jobs[j := r.jobs[j]]
    ensures r.jobs[j] == SubEntry(w.jobs[j], out)
  {
    Moved(SetJob(w, j, SubEntry(w.jobs[j], out)), out.money, Cost(w.jobs[j].core))
  }

  function ApplyTask(w: World, t: nat, j: JobId, out: TaskOut): (r: World)
    requires j < |w.jobs|
    ensures r.tasks == Scheduled(w.tasks, t, out.next) && |r.jobs| == |w.jobs| && r.jobs == w.jobs[j := r.jobs[j]]
    ensures r.jobs[j] == TaskEntry(w.jobs[j], out)
  {
    Moved(SetTask(SetJob(w, j, TaskEntry(w.jobs[j], out)), t, out.next), out.money, Cost(w.jobs[j].core))
  }

  function SubOutcome(w: World, e: Entry, reply: SubReply, kind: string, now: int): SubOut {
    StepSub(e, reply, Admits(w, Cost(e.core), NextKey(e)), kind, now)
  }

  ghost function Step(w: World, ev: Event): World {
    match ev
    case Insert(job, keys, results) =>
      if FreshRow(job) && NoDup(keys) then w.(jobs := w.jobs + [NewEntry(job, keys, results)]) else w
    case SubStep(j, reply, kind, now) => if j < |w.jobs| then ApplySub(w, j, SubOutcome(w, w.jobs[j], reply, kind, now)) else w
    case SubCrash(j) => if j < |w.jobs| then SetJob(w, j, w.jobs[j].(sub := Idle)) else w
    case PollRead(t, j) =>
      if j < |w.jobs| && t !in w.tasks && Live(w.jobs[j].core.row) then SetTask(w, t, Some(Advance(j, w.jobs[j].core.row.value))) else w
    case CancelRead(t, j) =>
      if j < |w.jobs| && t !in w.tasks && w.jobs[j].core.row.Some? then SetTask(w, t, Some(CancelLoaded(j, w.jobs[j].core.row.value))) else w
    case TaskStep(t, answer, now) =>
      if t in w.tasks && w.tasks[t].job < |w.jobs| then
        ApplyTask(w, t, w.tasks[t].job, StepTask(w.jobs[w.tasks[t].job].core, t, w.tasks[t], answer, now))
      else w
    case TaskCrash(t) => SetTask(w, t, None)
    case ReconcilePending(k) => StepReconcile(w, k)
    case ReconcileSpend(k, micros) => StepSpend(w, k, micros)
  }

  /** The state after a sequence of events. */
  ghost function Run(w: World, evs: seq<Event>): World {
    if evs == [] then w else Step(Run(w, evs[..|evs| - 1]), evs[|evs| - 1])
  }

  function Start(amounts: map<Key, int>): World { World([], map[], amounts, map[], map[], map[]) }
}
