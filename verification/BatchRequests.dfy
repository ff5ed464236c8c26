/** A submission and a cancel run alone are runs of the protocol's submitter and of its cancel task: what holds of every
    interleaving holds of them. */
module BatchRequests {
  import opened Options
  import opened ItemTotals
  import opened BatchJobs
  import opened BatchProtocol
  import Counters = SpendCounters
  import Budgets = BudgetService
  import Service = BatchService
  import Refinement = BatchRefinement

  // ---- the submitter's steps on the stores ----

  /** A job with its submitter, and the store its scripts move. */
  datatype Local = Local(e: Entry, store: Counters.Store)

  /** The budgets as they were read, whose job it is, and which counters they meter. */
  datatype Governance = Governance(all: seq<Budgets.Budget>, agent: string, key: Budgets.Keying)

  ghost predicate GovernsOn(g: Governance, b: Budgets.Budget, k: Key) {
    b in g.all && Budgets.Governs(b, Some(g.agent)) && g.key(b) == k
  }

  /** Every governing budget on the counter has room. */
  ghost predicate Room(store: Counters.Store, g: Governance, k: Key, cost: nat) {
    forall b :: GovernsOn(g, b, k) ==> Budgets.Fits(store, k, b, cost)
  }

  ghost function Once(l: Local, g: Governance, reply: SubReply, kind: string, now: int): Local {
    var out := StepSub(l.e, reply, Room(l.store, g, NextKey(l.e), Cost(l.e.core)), kind, now);
    Local(SubEntry(l.e, out), Refinement.Scripted(l.store, out.money, Cost(l.e.core)))
  }

  ghost function RunSub(l: Local, g: Governance, replies: seq<SubReply>, kind: string, now: int): Local
    decreases |replies|
  {
    if replies == [] then l else RunSub(Once(l, g, replies[0], kind, now), g, replies[1..], kind, now)
  }

  /** The row and the counters a submission leaves; `room` is what was read, `kind` the reason of a refusal. */
  datatype Goal = Goal(row: Option<Job>, store: Counters.Store, g: Governance, kind: string, now: int)

  ghost predicate Met(l: Local, goal: Goal) {
    l.e.sub.Idle? && l.e.core.row == goal.row && Budgets.SameReads(l.store, goal.store)
  }

  /** Some replies take the submitter to its end, and leave that. */
  ghost predicate Reaches(l: Local, goal: Goal) { exists replies :: Met(RunSub(l, goal.g, replies, goal.kind, goal.now), goal) }

  ghost function Next(l: Local, reply: SubReply, goal: Goal): Local { Once(l, goal.g, reply, goal.kind, goal.now) }

  lemma {:induction false} ReachesNow(l: Local, goal: Goal)
    requires Met(l, goal)
    ensures Reaches(l, goal)
  {
    assert RunSub(l, goal.g, [], goal.kind, goal.now) == l;
  }

  lemma {:induction false} ReachesAfter(l: Local, first: SubReply, goal: Goal)
    requires Reaches(Next(l, first, goal), goal)
    ensures Reaches(l, goal)
  {
    var rest :| Met(RunSub(Next(l, first, goal), goal.g, rest, goal.kind, goal.now), goal);
    assert ([first] + rest)[1..] == rest;
    assert RunSub(l, goal.g, [first] + rest, goal.kind, goal.now) == RunSub(Next(l, first, goal), goal.g, rest, goal.kind, goal.now);
  }

  /** The same job, with its submitter there and the counters so. */
  predicate Stands(l: Local, c: Core, sub: Submitter, store: Counters.Store) { l.e.core == c && l.e.sub == sub && l.store == store }

  // ---- releases after a refusal ----

  lemma {:induction false} ReleaseStep(l: Local, c: Core, at: nat, before: Counters.Store, goal: Goal)
    requires at < |c.keys| && Stands(l, c, Releasing(at), Budgets.Dropped(before, c.keys[..at], Cost(c)))
    ensures Stands(Next(l, Done, goal), c, if at + 1 == |c.keys| then Idle else Releasing(at + 1), Budgets.Dropped(before, c.keys[..at + 1], Cost(c)))
  {
    assert c.keys[..at + 1][..at] == c.keys[..at];
  }

  /** From the counter it is at, the release visits every other. */
  lemma {:induction false} ReleasesRest(l: Local, c: Core, at: nat, before: Counters.Store, goal: Goal)
    requires at < |c.keys| && Stands(l, c, Releasing(at), Budgets.Dropped(before, c.keys[..at], Cost(c)))
    requires c.row == goal.row && Budgets.SameReads(Budgets.Dropped(before, c.keys, Cost(c)), goal.store)
    ensures Reaches(l, goal)
    decreases |c.keys| - at
  {
    ReleaseStep(l, c, at, before, goal);
    if at + 1 == |c.keys| {
      assert c.keys[..at + 1] == c.keys;
      ReachesNow(Next(l, Done, goal), goal);
    } else {
      ReleasesRest(Next(l, Done, goal), c, at + 1, before, goal);
    }
    ReachesAfter(l, Done, goal);
  }

  // ---- the create and what follows ----

  lemma {:induction false} CreateSteps(l: Local, c: Core, reserved: bool, store: Counters.Store, create: Service.CreateAnswer, goal: Goal) returns (reply: SubReply)
    requires Stands(l, c, Creating(reserved), store)
    ensures reply == match create
                     case Created(id, st) => Accepted(id, st)
                     case Refused(_) => SubReply.Refused
                     case NoAnswer => Ambiguous
    ensures Stands(Next(l, reply, goal), c,
                   match create
                   case Created(id, st) => Persisting(id, st)
                   case Refused(_) => Rejected(reserved)
                   case NoAnswer => Idle, store)
  {
    reply := match create
      case Created(id, st) => Accepted(id, st)
      case Refused(_) => SubReply.Refused
      case NoAnswer => Ambiguous;
  }

  /** The row an accepted create leaves. */
  function PersistedRow(j: Job, create: Service.CreateAnswer): Job
    requires create.Created?
  {
    if Service.EndsAtOnce(create) then j else j.(status := create.status.GetOr(Validating), upstreamId := Some(create.upstreamId))
  }

  lemma {:induction false} Persists(l: Local, c: Core, j: Job, store: Counters.Store, create: Service.CreateAnswer, goal: Goal)
    requires create.Created? && Stands(l, c, Persisting(create.upstreamId, create.status), store)
    requires c.row == Some(j) && FreshRow(j) && goal.row == Some(PersistedRow(j, create)) && Budgets.SameReads(store, goal.store)
    ensures Reaches(l, goal)
  {
    ReachesNow(Next(l, Done, goal), goal);
    ReachesAfter(l, Done, goal);
  }

  lemma {:induction false} RejectStep(l: Local, c: Core, j: Job, reserved: bool, store: Counters.Store, goal: Goal) returns (c': Core)
    requires Stands(l, c, Rejected(reserved), store) && c.row == Some(j) && FreshRow(j) && j.stalledSince.None?
    ensures c' == c.(row := Some(Service.FailedRow(j, goal.kind, goal.now)), failWon := true)
    ensures Stands(Next(l, Done, goal), c', if reserved && c.keys != [] && Cost(c) > 0 then Releasing(0) else Idle, store)
  {
    c' := c.(row := Some(Service.FailedRow(j, goal.kind, goal.now)), failWon := true);
  }

  /** A refused create fails the row and gives back the whole reservation. */
  lemma {:induction false} Rejects(l: Local, c: Core, j: Job, reserved: bool, before: Counters.Store, store: Counters.Store, goal: Goal)
    requires Stands(l, c, Rejected(reserved), store) && c.row == Some(j) && FreshRow(j) && j.stalledSince.None? && Budgets.DistinctSpendKeys(c.keys)
    requires store == if reserved then Budgets.Bumped(before, c.keys, Cost(c)) else before
    requires goal.row == Some(Service.FailedRow(j, goal.kind, goal.now)) && Budgets.SameReads(before, goal.store)
    ensures Reaches(l, goal)
  {
    var c' := RejectStep(l, c, j, reserved, store, goal);
    if reserved && c.keys != [] && Cost(c) > 0 {
      Budgets.ReleaseUndoesReserve(before, c.keys, Cost(c));
      assert c'.keys[..0] == [] && Budgets.Dropped(store, [], Cost(c)) == store;
      ReleasesRest(Next(l, Done, goal), c', 0, store, goal);
    } else {
      if reserved {
        NothingReserved(before, c.keys, Cost(c));
      }
      ReachesNow(Next(l, Done, goal), goal);
    }
    ReachesAfter(l, Done, goal);
  }

  lemma {:induction false} NothingReserved(before: Counters.Store, keys: seq<Key>, cost: nat)
    requires Budgets.DistinctSpendKeys(keys) && (keys == [] || cost == 0)
    ensures Budgets.SameReads(Budgets.Bumped(before, keys, cost), before)
  {
    if cost == 0 {
      Service.ZeroMovesNothing(before, keys);
    }
  }

  /** What the create and everything after it leave of the row, and of a reservation. */
  function RowAfter(j: Job, create: Service.CreateAnswer, now: int): Job {
    match create
    case Created(_, _) => PersistedRow(j, create)
    case Refused(kind) => Service.FailedRow(j, kind, now)
    case NoAnswer => j
  }

  lemma {:induction false} Creates(l: Local, c: Core, j: Job, reserved: bool, before: Counters.Store, store: Counters.Store, create: Service.CreateAnswer,
                                   goal: Goal)
    requires Stands(l, c, Creating(reserved), store) && c.row == Some(j) && FreshRow(j) && j.stalledSince.None? && Budgets.DistinctSpendKeys(c.keys)
    requires store == if reserved then Budgets.Bumped(before, c.keys, Cost(c)) else before
    requires (create.Refused? ==> goal.kind == create.kind) && goal.row == Some(RowAfter(j, create, goal.now))
    requires Budgets.SameReads(if create.Refused? then before else store, goal.store)
    ensures Reaches(l, goal)
  {
    var reply := CreateSteps(l, c, reserved, store, create, goal);
    match create {
      case Created(_, _) => Persists(Next(l, reply, goal), c, j, store, create, goal);
      case Refused(_) => Rejects(Next(l, reply, goal), c, j, reserved, before, store, goal);
      case NoAnswer => ReachesNow(Next(l, reply, goal), goal);
    }
    ReachesAfter(l, reply, goal);
  }

  // ---- the reservation ----

  lemma {:induction false} Discards(l: Local, c: Core, j: Job, store: Counters.Store, goal: Goal)
    requires Stands(l, c, Discarding, store) && c.row == Some(j) && FreshRow(j) && goal.row == None && Budgets.SameReads(store, goal.store)
    ensures Reaches(l, goal)
  {
    ReachesNow(Next(l, Done, goal), goal);
    ReachesAfter(l, Done, goal);
  }

  lemma {:induction false} RollbackStep(l: Local, c: Core, at: nat, n: nat, admit: bool, store: Counters.Store, goal: Goal)
    requires at < n <= |c.keys| && Stands(l, c, RollingBack(at, n, admit), Budgets.Dropped(store, c.keys[..at], Cost(c)))
    ensures Stands(Next(l, Done, goal), c, if at + 1 < n then RollingBack(at + 1, n, admit) else if admit then Creating(false) else Discarding,
                   Budgets.Dropped(store, c.keys[..at + 1], Cost(c)))
  {
    assert c.keys[..at + 1][..at] == c.keys[..at];
  }

  /** The submitter may get from one state to the other. */
  ghost predicate Leads(l: Local, l': Local, goal: Goal) { Reaches(l', goal) ==> Reaches(l, goal) }

  /** A rollback gives back what the counters before it hold, and then the job is turned away or let through. */
  lemma {:induction false} RollsBack(l: Local, c: Core, at: nat, n: nat, admit: bool, store: Counters.Store, goal: Goal) returns (l': Local)
    requires at < n <= |c.keys| && Stands(l, c, RollingBack(at, n, admit), Budgets.Dropped(store, c.keys[..at], Cost(c)))
    ensures Stands(l', c, if admit then Creating(false) else Discarding, Budgets.Dropped(store, c.keys[..n], Cost(c)))
    ensures Leads(l, l', goal)
    decreases n - at
  {
    RollbackStep(l, c, at, n, admit, store, goal);
    l' := Next(l, Done, goal);
    if at + 1 < n {
      l' := RollsBack(l', c, at + 1, n, admit, store, goal);
    }
    if Reaches(l', goal) {
      ReachesAfter(l, Done, goal);
    }
  }

  lemma {:induction false} RoomStays(before: Counters.Store, keys: seq<Key>, n: nat, g: Governance, cost: nat)
    requires n < |keys| && Budgets.DistinctSpendKeys(keys)
    ensures Room(Budgets.Bumped(before, keys[..n], cost), g, keys[n], cost) <==> Room(before, g, keys[n], cost)
  {
    forall b
      ensures Budgets.Fits(Budgets.Bumped(before, keys[..n], cost), keys[n], b, cost) <==> Budgets.Fits(before, keys[n], b, cost)
    {
      Budgets.EarlierKeysDoNotMatter(before, keys, n, b, cost);
    }
  }

  lemma {:induction false} OneMore(before: Counters.Store, keys: seq<Key>, n: nat, cost: nat)
    requires n < |keys|
    ensures Budgets.Bumped(before, keys[..n + 1], cost)
            == Refinement.Scripted(Budgets.Bumped(before, keys[..n], cost), Adds(keys[n]), cost)
  {
    assert keys[..n + 1][..n] == keys[..n];
  }

  lemma {:induction false} ReserveStep(l: Local, c: Core, n: nat, before: Counters.Store, goal: Goal)
    requires n < |c.keys| && Budgets.DistinctSpendKeys(c.keys) && Stands(l, c, Reserving(n), Budgets.Bumped(before, c.keys[..n], Cost(c)))
    ensures if Room(before, goal.g, c.keys[n], Cost(c)) then
              Stands(Next(l, Done, goal), c, if n + 1 == |c.keys| then Creating(true) else Reserving(n + 1), Budgets.Bumped(before, c.keys[..n + 1], Cost(c)))
            else Stands(Next(l, Done, goal), c, if n == 0 then Discarding else RollingBack(0, n, false), Budgets.Bumped(before, c.keys[..n], Cost(c)))
  {
    RoomStays(before, c.keys, n, goal.g, Cost(c));
    OneMore(before, c.keys, n, Cost(c));
  }

  /** Counter by counter: with room on all of them the job holds its ceiling on each; otherwise everything is given back
      and the job is turned away. */
  lemma {:induction false} Reserves(l: Local, c: Core, n: nat, before: Counters.Store, goal: Goal) returns (l': Local)
    requires n < |c.keys| && Budgets.DistinctSpendKeys(c.keys) && Stands(l, c, Reserving(n), Budgets.Bumped(before, c.keys[..n], Cost(c)))
    ensures Leads(l, l', goal)
    ensures if forall i :: n <= i < |c.keys| ==> Room(before, goal.g, c.keys[i], Cost(c))
            then Stands(l', c, Creating(true), Budgets.Bumped(before, c.keys, Cost(c)))
            else Stands(l', c, Discarding, l'.store) && Budgets.SameReads(l'.store, before)
    decreases |c.keys| - n
  {
    ReserveStep(l, c, n, before, goal);
    l' := Next(l, Done, goal);
    if !Room(before, goal.g, c.keys[n], Cost(c)) {
      l' := GivesBack(l', c, n, before, goal);
    } else if n + 1 < |c.keys| {
      l' := Reserves(l', c, n + 1, before, goal);
    } else {
      assert c.keys[..n + 1] == c.keys;
    }
    if Reaches(l', goal) {
      ReachesAfter(l, Done, goal);
    }
  }

  lemma {:induction false} GivesBack(l: Local, c: Core, n: nat, before: Counters.Store, goal: Goal) returns (l': Local)
    requires n < |c.keys| && Budgets.DistinctSpendKeys(c.keys)
    requires Stands(l, c, if n == 0 then Discarding else RollingBack(0, n, false), Budgets.Bumped(before, c.keys[..n], Cost(c)))
    ensures Leads(l, l', goal) && Stands(l', c, Discarding, l'.store) && Budgets.SameReads(l'.store, before)
  {
    l' := l;
    assert c.keys[..0] == [];
    if n > 0 {
      var store := Budgets.Bumped(before, c.keys[..n], Cost(c));
      assert Budgets.Dropped(store, [], Cost(c)) == store;
      l' := RollsBack(l, c, 0, n, false, store, goal);
      Budgets.ReleaseUndoesReserve(before, c.keys[..n], Cost(c));
    }
  }

  lemma {:induction false} FaultStep(l: Local, c: Core, n: nat, before: Counters.Store, applied: bool, failOpen: bool, goal: Goal)
    requires n < |c.keys| && Budgets.DistinctSpendKeys(c.keys) && Stands(l, c, Reserving(n), Budgets.Bumped(before, c.keys[..n], Cost(c)))
    ensures Stands(Next(l, Fault(applied, failOpen), goal), c,
                   if n > 0 then RollingBack(0, n, failOpen) else if failOpen then Creating(false) else Discarding,
                   Budgets.Bumped(before, if applied && Room(before, goal.g, c.keys[n], Cost(c)) then c.keys[..n + 1] else c.keys[..n], Cost(c)))
  {
    RoomStays(before, c.keys, n, goal.g, Cost(c));
    OneMore(before, c.keys, n, Cost(c));
  }

  /** The store once a reservation that failed at its `n`th counter is given back: as before, or with one ceiling too much
      on that counter if the script whose reply was lost had run and admitted. */
  ghost predicate GivenBack(store: Counters.Store, c: Core, n: nat, before: Counters.Store, ran: bool)
    requires n < |c.keys|
  {
    Budgets.SameReads(store, if ran then Counters.SetPending(before, c.keys[n], Counters.Pending(before, c.keys[n]) + Cost(c)) else before)
  }

  /** A reservation that fails at any counter is given back, and the job let through or turned away by the fail mode. */
  lemma {:induction false} FaultGivesBack(l: Local, c: Core, n: nat, before: Counters.Store, applied: bool, failOpen: bool, goal: Goal) returns (l': Local)
    requires n < |c.keys| && Budgets.DistinctSpendKeys(c.keys) && Stands(l, c, Reserving(n), Budgets.Bumped(before, c.keys[..n], Cost(c)))
    ensures Leads(l, l', goal) && Stands(l', c, if failOpen then Creating(false) else Discarding, l'.store)
    ensures GivenBack(l'.store, c, n, before, applied && Room(before, goal.g, c.keys[n], Cost(c)))
  {
    FaultStep(l, c, n, before, applied, failOpen, goal);
    l' := Next(l, Fault(applied, failOpen), goal);
    var ran := applied && Room(before, goal.g, c.keys[n], Cost(c));
    var store := l'.store;
    assert c.keys[..0] == [] && Budgets.Dropped(store, [], Cost(c)) == store;
    if n > 0 {
      l' := RollsBack(l', c, 0, n, failOpen, store, goal);
    }
    Undone(c, n, before, ran);
    if Reaches(l', goal) {
      ReachesAfter(l, Fault(applied, failOpen), goal);
    }
  }

  lemma {:induction false} Undone(c: Core, n: nat, before: Counters.Store, ran: bool)
    requires n < |c.keys| && Budgets.DistinctSpendKeys(c.keys)
    ensures GivenBack(Budgets.Dropped(Budgets.Bumped(before, if ran then c.keys[..n + 1] else c.keys[..n], Cost(c)), c.keys[..n], Cost(c)), c, n, before, ran)
  {
    if ran {
      Budgets.RolledBackStray(before, c.keys, n, Cost(c));
    } else {
      Budgets.ReleaseUndoesReserve(before, c.keys[..n], Cost(c));
    }
  }

  // ---- a submission ----

  function RowAt(rows: map<JobId, Job>, id: JobId): Option<Job> { if id in rows then Some(rows[id]) else None }

  /** The submitter's checks lead to the create, reserved or not, or to the row's removal, exactly as the service's do. */
  lemma {:induction false} Checks(l: Local, c: Core, reply: SubReply, goal: Goal)
    requires Stands(l, c, Checking, l.store) && (reply.Done? || reply.Fault?)
    ensures Stands(Next(l, reply, goal), c,
                   if reply.Fault? then (if reply.failOpen then Creating(false) else Discarding)
                   else if c.keys == [] then Creating(false) else if c.ceiling.None? then Discarding else Reserving(0), l.store)
  {
  }

  /** A submission without failed calls: its arguments, and what was read for it. */
  datatype Submission = Submission(id: JobId, job: Job, cached: Option<seq<Budgets.Budget>>, recent: bool, failOpen: bool, create: Service.CreateAnswer,
                                   now: int)

  ghost predicate Submits(s: Submission, r: Service.SubmitResult, rows: map<JobId, Job>, rows': map<JobId, Job>, before: Counters.Store, after: Counters.Store) {
    && FreshRow(s.job) && s.job.stalledSince.None? && s.job.submittedAt >= 0 && s.id !in rows
    && Service.SubmitOk(r, s.id, s.job, rows, rows', before, after, s.cached, s.recent, s.failOpen, s.create, None, None, s.now)
  }

  function GovernanceOf(s: Submission): Governance
    requires s.job.submittedAt >= 0
  {
    Governance(s.cached.GetOr([]), s.job.agent, Budgets.KeyingAt(s.job.submittedAt))
  }

  /** The job's counters are those of its governing budgets. */
  ghost predicate KeysFit(s: Submission, keys: seq<Key>)
    requires s.job.submittedAt >= 0
  {
    && Budgets.DistinctSpendKeys(keys)
    && (s.cached.Some? ==> Budgets.GoverningKeys(keys, s.cached.value, Some(s.job.agent), s.job.submittedAt))
  }

  function GoalOf(s: Submission, rows': map<JobId, Job>, after: Counters.Store, kind: string): Goal
    requires s.job.submittedAt >= 0
  {
    Goal(RowAt(rows', s.id), after, GovernanceOf(s), kind, s.now)
  }

  /** Nothing was reserved: the job went on without, or was turned away. */
  lemma {:induction false} Unreserved(l: Local, c: Core, s: Submission, r: Service.SubmitResult, rows: map<JobId, Job>, rows': map<JobId, Job>,
                                      after: Counters.Store, kind: string, admitted: bool)
    requires Submits(s, r, rows, rows', l.store, after) && c.row == Some(s.job) && KeysFit(s, c.keys) && (s.create.Refused? ==> kind == s.create.kind)
    requires Stands(l, c, if admitted then Creating(false) else Discarding, l.store)
    requires Budgets.SameReads(after, l.store) && RowAt(rows', s.id) == if admitted then Some(RowAfter(s.job, s.create, s.now)) else None
    ensures Reaches(l, GoalOf(s, rows', after, kind))
  {
    if admitted {
      Creates(l, c, s.job, false, l.store, l.store, s.create, GoalOf(s, rows', after, kind));
    } else {
      Discards(l, c, s.job, l.store, GoalOf(s, rows', after, kind));
    }
  }

  /** The result tells whether the job went on. */
  lemma {:induction false} ResultIs(s: Submission, r: Service.SubmitResult, rows: map<JobId, Job>, rows': map<JobId, Job>, before: Counters.Store,
                                    after: Counters.Store)
    requires Submits(s, r, rows, rows', before, after)
    ensures RowAt(rows', s.id) == if r.BudgetBlocked? || r.BatchUnbounded? || r.EnforcementUnavailable? then None else Some(RowAfter(s.job, s.create, s.now))
    ensures !(Service.IsGoverned(s.cached, s.job) && s.recent && s.job.ceiling.Some?) ==> Budgets.SameReads(after, before)
  {
  }

  /** Where the checks cannot pass: the budgets are unreadable, or the counters are stale. */
  predicate Blind(s: Submission) { s.cached.None? || (!s.recent && s.job.ceiling.Some?) }

  lemma {:induction false} AsChecked(l: Local, c: Core, s: Submission, r: Service.SubmitResult, rows: map<JobId, Job>, rows': map<JobId, Job>,
                                     after: Counters.Store, kind: string)
    requires Submits(s, r, rows, rows', l.store, after) && c.row == Some(s.job) && KeysFit(s, c.keys) && (s.create.Refused? ==> kind == s.create.kind)
    requires c.ceiling == s.job.ceiling && (Service.IsGoverned(s.cached, s.job) <==> s.cached.Some? && c.keys != [])
    requires Stands(l, c, Checking, l.store) && !(Service.IsGoverned(s.cached, s.job) && s.recent && s.job.ceiling.Some?)
    ensures Reaches(l, GoalOf(s, rows', after, kind))
  {
    var goal := GoalOf(s, rows', after, kind);
    ResultIs(s, r, rows, rows', l.store, after);
    Service.SubmitDecides(r, s.id, s.job, rows, rows', l.store, after, s.cached, s.recent, s.failOpen, s.create, None, s.now);
    var reply := if s.cached.None? || (Blind(s) && c.keys != []) then Fault(false, s.failOpen) else Done;
    Checks(l, c, reply, goal);
    Unreserved(Next(l, reply, goal), c, s, r, rows, rows', after, kind, Next(l, reply, goal).e.sub.Creating?);
    ReachesAfter(l, reply, goal);
  }

  /** The order in which counters gain a ceiling does not show. */
  lemma {:induction false} OrderIsFree(before: Counters.Store, keys: seq<Key>, keys': seq<Key>, cost: nat)
    requires Budgets.DistinctSpendKeys(keys) && Budgets.DistinctSpendKeys(keys') && forall k :: k in keys <==> k in keys'
    ensures Budgets.SameReads(Budgets.Bumped(before, keys, cost), Budgets.Bumped(before, keys', cost))
  {
    forall k
      ensures Counters.Pending(Budgets.Bumped(before, keys, cost), k) == Counters.Pending(Budgets.Bumped(before, keys', cost), k)
      ensures Counters.IsSpendKey(k) ==> Counters.Read(Budgets.Bumped(before, keys, cost), k) == Counters.Read(Budgets.Bumped(before, keys', cost), k)
    {
      Budgets.BumpedAt(before, keys, cost, k);
      Budgets.BumpedAt(before, keys', cost, k);
    }
  }

  ghost predicate AllRoom(before: Counters.Store, g: Governance, keys: seq<Key>, cost: nat) {
    forall i :: 0 <= i < |keys| ==> Room(before, g, keys[i], cost)
  }

  /** There is room on every counter exactly if every governing budget has room. */
  lemma {:induction false} RoomIff(before: Counters.Store, s: Submission, keys: seq<Key>, cost: nat)
    requires s.job.submittedAt >= 0 && s.cached.Some? && KeysFit(s, keys)
    ensures AllRoom(before, GovernanceOf(s), keys, cost) <==> Budgets.AllFit(before, s.cached.value, Some(s.job.agent), s.job.submittedAt, cost)
  {
    var g := GovernanceOf(s);
    forall b
      ensures g.key(b) == Budgets.KeyFor(b, s.job.submittedAt)
    {
    }
    if AllRoom(before, g, keys, cost) {
      forall b | b in s.cached.value && Budgets.Governs(b, Some(s.job.agent))
        ensures Budgets.Fits(before, Budgets.KeyFor(b, s.job.submittedAt), b, cost)
      {
        assert Budgets.KeyFor(b, s.job.submittedAt) in keys;
        assert GovernsOn(g, b, g.key(b));
      }
    }
  }

  lemma {:induction false} AnyOrder(s: Submission, before: Counters.Store, after: Counters.Store, keys: seq<Key>)
    requires s.job.submittedAt >= 0 && KeysFit(s, keys) && Service.ReservedFor(before, after, s.cached, s.job)
    ensures Budgets.SameReads(Budgets.Bumped(before, keys, s.job.ceiling.value), after)
  {
    var keys' :| Budgets.GoverningKeys(keys', s.cached.value, Some(s.job.agent), s.job.submittedAt)
                 && after == Budgets.Bumped(before, keys', s.job.ceiling.value);
    OrderIsFree(before, keys, keys', s.job.ceiling.value);
  }

  /** What the counters hold after a reserved submission. */
  lemma {:induction false} ReservedResult(s: Submission, r: Service.SubmitResult, rows: map<JobId, Job>, rows': map<JobId, Job>, before: Counters.Store,
                                          after: Counters.Store, keys: seq<Key>)
    requires Submits(s, r, rows, rows', before, after) && KeysFit(s, keys)
    requires Service.IsGoverned(s.cached, s.job) && s.recent && s.job.ceiling.Some?
    ensures var fit := Budgets.AllFit(before, s.cached.value, Some(s.job.agent), s.job.submittedAt, s.job.ceiling.value);
            && RowAt(rows', s.id) == (if fit then Some(RowAfter(s.job, s.create, s.now)) else None)
            && Budgets.SameReads(if fit && !s.create.Refused? then Budgets.Bumped(before, keys, s.job.ceiling.value) else before, after)
  {
    ResultIs(s, r, rows, rows', before, after);
    if !r.BudgetBlocked? && !s.create.Refused? {
      AnyOrder(s, before, after, keys);
    }
  }

  lemma {:induction false} AsReserved(l: Local, c: Core, s: Submission, r: Service.SubmitResult, rows: map<JobId, Job>, rows': map<JobId, Job>,
                                      after: Counters.Store, kind: string)
    requires Submits(s, r, rows, rows', l.store, after) && c.row == Some(s.job) && KeysFit(s, c.keys) && (s.create.Refused? ==> kind == s.create.kind)
    requires c.ceiling == s.job.ceiling && c.keys != [] && Service.IsGoverned(s.cached, s.job) && s.recent && s.job.ceiling.Some?
    requires Stands(l, c, Checking, l.store)
    ensures Reaches(l, GoalOf(s, rows', after, kind))
  {
    var goal := GoalOf(s, rows', after, kind);
    Checks(l, c, Done, goal);
    assert c.keys[..0] == [] && Budgets.Bumped(l.store, [], Cost(c)) == l.store;
    var l' := Reserves(Next(l, Done, goal), c, 0, l.store, goal);
    RoomIff(l.store, s, c.keys, Cost(c));
    ReservedResult(s, r, rows, rows', l.store, after, c.keys);
    if AllRoom(l.store, goal.g, c.keys, Cost(c)) {
      Creates(l', c, s.job, true, l.store, Budgets.Bumped(l.store, c.keys, Cost(c)), s.create, goal);
    } else {
      Discards(l', c, s.job, l'.store, goal);
    }
    ReachesAfter(l, Done, goal);
  }

  lemma {:induction false} GovernedKeys(s: Submission, keys: seq<Key>)
    requires s.job.submittedAt >= 0 && KeysFit(s, keys)
    ensures Service.IsGoverned(s.cached, s.job) <==> s.cached.Some? && keys != []
  {
    if s.cached.Some? && keys != [] {
      assert keys[0] in keys;
    }
    if Service.IsGoverned(s.cached, s.job) {
      var b :| b in s.cached.value && Budgets.Governs(b, Some(s.job.agent));
      assert Budgets.KeyFor(b, s.job.submittedAt) in keys;
    }
  }

  /** A submission run alone, all its calls answered, is a run of the protocol's submitter on the job it inserts: some
      replies take it to the same row - or to none - and to counters that read the same. */
  lemma {:induction false} SubmitIsRun(s: Submission, r: Service.SubmitResult, rows: map<JobId, Job>, rows': map<JobId, Job>, before: Counters.Store,
                                       after: Counters.Store, keys: seq<Key>, results: map<CustomId, ItemRow>, kind: string)
    requires Submits(s, r, rows, rows', before, after) && KeysFit(s, keys) && (s.create.Refused? ==> kind == s.create.kind)
    ensures Reaches(Local(NewEntry(s.job, keys, results), before), GoalOf(s, rows', after, kind))
  {
    var l := Local(NewEntry(s.job, keys, results), before);
    GovernedKeys(s, keys);
    if Service.IsGoverned(s.cached, s.job) && s.recent && s.job.ceiling.Some? {
      AsReserved(l, l.e.core, s, r, rows, rows', after, kind);
    } else {
      AsChecked(l, l.e.core, s, r, rows, rows', after, kind);
    }
  }

  // ---- a cancel request ----

  /** The row a cancel leaves: nothing of it changes where the job is over, is already being cancelled upstream, or the
      upstream's cancel fails; the request alone is noted where there is no upstream to ask. */
  function CancelledRow(j: Job, provider: bool, cancelOk: bool): Job {
    if IsTerminal(j.status) || (j.upstreamId.Some? && (j.status.Cancelling? || (provider && !cancelOk))) then j
    else if j.upstreamId.None? || !provider then j.(cancelRequested := true)
    else if j.status in {Validating, InProgress, Finalizing} then j.(status := Cancelling, cancelRequested := true)
    else j
  }

  /** A cancel run alone, of the row as it is, is a run of the protocol's cancel task: some replies take the job to just
      that row, the ledger and the counters untouched. */
  lemma {:induction false} CancelIsRun(c: Core, t: nat, j: JobId, row: Job, store: Counters.Store, provider: bool, cancelOk: bool, now: int)
    requires c.row == Some(row) && RowOk(row)
    ensures Refinement.Reaches(Refinement.Local(c, Some(CancelLoaded(j, row)), store), t, now,
                               Refinement.Seen(Some(CancelledRow(row, provider, cancelOk)), c.ledger, store))
  {
    var l := Refinement.Local(c, Some(CancelLoaded(j, row)), store);
    var seen := Refinement.Seen(Some(CancelledRow(row, provider, cancelOk)), c.ledger, store);
    if CancelledRow(row, provider, cancelOk) == row {
      Refinement.ReachesNow(l, t, now);
    } else {
      var first := if provider then Ok else Gone;
      var asked := CancelStep(l, t, j, row, provider, now);
      CancelWrites(asked, t, j, row, provider, now);
      Refinement.ReachesNow(Refinement.Once(asked, t, Ok, now), t, now);
      Refinement.ReachesAfter(asked, t, Ok, now, Refinement.Once(asked, t, Ok, now), seen);
      Refinement.ReachesAfter(l, t, first, now, asked, seen);
    }
  }

  /** What the cancel is about to write. */
  function CancelTask(j: JobId, row: Job, provider: bool): Task {
    if row.upstreamId.None? || !provider then CancelIntent(j) else CancelAsked(j)
  }

  lemma {:induction false} CancelStep(l: Refinement.Local, t: nat, j: JobId, row: Job, provider: bool, now: int) returns (asked: Refinement.Local)
    requires l.next == Some(CancelLoaded(j, row)) && !IsTerminal(row.status) && !(row.upstreamId.Some? && row.status.Cancelling?)
    ensures asked == Refinement.Once(l, t, if provider then Ok else Gone, now)
    ensures asked == Refinement.Local(l.core, Some(CancelTask(j, row, provider)), l.store)
  {
    asked := Refinement.Once(l, t, if provider then Ok else Gone, now);
  }

  lemma {:induction false} CancelWrites(l: Refinement.Local, t: nat, j: JobId, row: Job, provider: bool, now: int)
    requires l.core.row == Some(row) && RowOk(row) && !IsTerminal(row.status) && !(row.upstreamId.Some? && row.status.Cancelling?)
    requires l.next == Some(CancelTask(j, row, provider))
    ensures Refinement.SeenOf(Refinement.Once(l, t, Ok, now)) == Refinement.Seen(Some(CancelledRow(row, provider, true)), l.core.ledger, l.store)
  {
  }
}
