/** The reconciler: spend and pending recomputed from the database, once per counter key. */
module BudgetScheduler {
  import opened Options
  import opened Text
  import opened Period
  import opened SpendCounters
  import opened BudgetService
  import opened BatchJobs

  /** Ids carry no colon, and budgets satisfy the table's CHECK. */
  predicate PlainBudget(b: Budget) { BudgetOk(b) && Without(b.owner, ':') && Without(ScopeIdOf(b), ':') }

  // ---- the reservations read ----

  /** The agent a budget's ledger scan is narrowed to. */
  function AgentFilter(b: Budget): Option<string> { if b.scope.Agent? then Some(ScopeIdOf(b)) else None }

  /** A non-terminal job of the owner, of the agent if one is given, submitted in the range. */
  predicate InRange(j: Job, owner: string, agentId: Option<string>, start: int, end: int) {
    j.owner == owner && !IsTerminal(j.status) && start <= j.submittedAt < end && (agentId.Some? ==> j.agent == agentId.value)
  }

  function PendingMicrosFor(rows: seq<Job>, owner: string, agentId: Option<string>, start: int, end: int): nat {
    if rows == [] then 0
    else
      var last := rows[|rows| - 1];
      PendingMicrosFor(rows[..|rows| - 1], owner, agentId, start, end)
      + (if InRange(last, owner, agentId, start, end) then last.ceiling.GetOr(0) else 0)
  }

  // ---- which jobs a counter stands for ----

  /** The job is live and its reservation for this budget sits on the budget's counter at `at`. */
  predicate ReservesOn(j: Job, b: Budget, at: nat) {
    j.submittedAt >= 0 && !IsTerminal(j.status) && j.owner == b.owner && Applies(b, Some(j.agent)) && KeyFor(b, j.submittedAt) == KeyFor(b, at)
  }

  /** Sum of the ceilings of the jobs whose reservation sits on the counter. */
  function ReservedSum(rows: seq<Job>, b: Budget, at: nat): nat {
    if rows == [] then 0
    else
      var last := rows[|rows| - 1];
      ReservedSum(rows[..|rows| - 1], b, at) + (if ReservesOn(last, b, at) then last.ceiling.GetOr(0) else 0)
  }

  lemma {:induction false} SameKeyIff(b: Budget, a: nat, at: nat)
    requires PlainBudget(b)
    ensures KeyFor(b, a) == KeyFor(b, at) <==> PeriodOf(b.window, at).startMs <= a < PeriodOf(b.window, at).endMs
  {
    PeriodIdPlain(b.window, a);
    PeriodIdPlain(b.window, at);
    KeyInjective(b.owner, b.scope, ScopeIdOf(b), b.window, PeriodOf(b.window, a).periodId, b.basis,
                 b.owner, b.scope, ScopeIdOf(b), b.window, PeriodOf(b.window, at).periodId, b.basis);
    SamePeriodIff(b.window, at, a);
  }

  /** The database range selects exactly the jobs whose reservations sit on the counter key: the range of the
      reconciled period, the key reserved at submission and the key released at the end all agree. */
  lemma {:induction false} RangeSelects(j: Job, b: Budget, at: nat)
    requires PlainBudget(b) && j.submittedAt >= 0
    ensures var p := PeriodOf(b.window, at);
            InRange(j, b.owner, AgentFilter(b), p.startMs, p.endMs) <==> ReservesOn(j, b, at)
  {
    SameKeyIff(b, j.submittedAt, at);
  }

  lemma {:induction false} RangeSums(rows: seq<Job>, b: Budget, at: nat)
    requires PlainBudget(b) && forall i :: 0 <= i < |rows| ==> rows[i].submittedAt >= 0
    ensures var p := PeriodOf(b.window, at);
            PendingMicrosFor(rows, b.owner, AgentFilter(b), p.startMs, p.endMs) == ReservedSum(rows, b, at)
  {
    if rows != [] {
      RangeSums(rows[..|rows| - 1], b, at);
      RangeSelects(rows[|rows| - 1], b, at);
    }
  }

  /** Budgets that share a counter meter the same jobs. */
  predicate SameMeter(b: Budget, c: Budget) {
    b.owner == c.owner && b.scope == c.scope && b.agentId == c.agentId && b.window == c.window && b.basis == c.basis
  }

  lemma {:induction false} SharedKey(b: Budget, at: nat, c: Budget, at': nat)
    requires PlainBudget(b) && PlainBudget(c) && KeyFor(b, at) == KeyFor(c, at')
    ensures SameMeter(b, c)
  {
    PeriodIdPlain(b.window, at);
    PeriodIdPlain(c.window, at');
    KeyInjective(b.owner, b.scope, ScopeIdOf(b), b.window, PeriodOf(b.window, at).periodId, b.basis,
                 c.owner, c.scope, ScopeIdOf(c), c.window, PeriodOf(c.window, at').periodId, c.basis);
  }

  /** The counters a submission reserves on. */
  ghost predicate SubmissionKey(k: string, all: seq<Budget>, j: Job)
    requires j.submittedAt >= 0
  {
    exists b :: b in all && Governs(b, Some(j.agent)) && KeyFor(b, j.submittedAt) == k
  }

  /** The budgets of one owner. */
  ghost predicate OwnBudgets(all: seq<Budget>, owner: string) { forall c :: c in all ==> PlainBudget(c) && c.owner == owner }

  /** A reconcile of a block budget's counter counts a live job, of any owner, if and only if the job's submission
      reserved on that counter: what the batch protocol assumes of the keys of a job and the sum of a reconcile. */
  lemma {:induction false} ReconcileCountsReserved(j: Job, all: seq<Budget>, b: Budget, at: nat)
    requires PlainBudget(b) && b.enabled && b.action.Block? && j.submittedAt >= 0 && !IsTerminal(j.status)
    requires OwnBudgets(all, j.owner) && (j.owner == b.owner ==> b in all)
    ensures ReservesOn(j, b, at) <==> SubmissionKey(KeyFor(b, at), all, j)
  {
    if SubmissionKey(KeyFor(b, at), all, j) {
      var c :| c in all && Governs(c, Some(j.agent)) && KeyFor(c, j.submittedAt) == KeyFor(b, at);
      SharedKey(c, j.submittedAt, b, at);
      assert KeyFor(c, j.submittedAt) == KeyFor(b, j.submittedAt);
    } else if ReservesOn(j, b, at) {
      assert Governs(b, Some(j.agent));
    }
  }

  // ---- one occurrence ----

  /** What the database answers for one counter when its group's turn comes: the ledger's period total, and the job
      rows at that moment (`None`: no batch surface is wired). */
  datatype Reading = Reading(micros: nat, rows: Option<seq<Job>>)

  type Readings = string -> Reading

  predicate Dated(db: Readings, key: string) {
    db(key).rows.Some? ==> forall i :: 0 <= i < |db(key).rows.value| ==> db(key).rows.value[i].submittedAt >= 0
  }

  function SumFor(r: Reading, b: Budget, at: nat): nat { ReservedSum(r.rows.GetOr([]), b, at) }

  /** A counter that was reconciled: pending is the database sum, and spend is raised to the ledger's total, never
      lowered. */
  predicate Meets(before: Store, after: Store, key: string, r: Reading, sum: nat) {
    && Pending(after, key) == (if r.rows.Some? then sum else Pending(before, key))
    && Read(after, key) == (if r.micros > Read(before, key) then r.micros else Read(before, key))
  }

  predicate Reconciled(before: Store, after: Store, b: Budget, at: nat, db: Readings) {
    var k := KeyFor(b, at);
    Meets(before, after, k, db(k), SumFor(db(k), b, at))
  }

  /** Nothing but these counters moved. */
  ghost predicate OnlyMoved(before: Store, after: Store, keys: seq<string>) {
    && (forall k :: k !in keys ==> Pending(after, k) == Pending(before, k))
    && (forall k :: IsSpendKey(k) && k !in keys ==> Read(after, k) == Read(before, k))
  }

  /** Spend and pending of one group's counter. */
  method ReconcileGroup(counter: SpendCounter, key: string, b: Budget, at: nat, r: Reading)
    requires PlainBudget(b) && key == KeyFor(b, at)
    requires r.rows.Some? ==> forall i :: 0 <= i < |r.rows.value| ==> r.rows.value[i].submittedAt >= 0
    modifies counter
    ensures Meets(old(counter.store), counter.store, key, r, SumFor(r, b, at))
    ensures OnlyMoved(old(counter.store), counter.store, [key])
  {
    ghost var before := counter.store;
    var period := PeriodOf(b.window, at);
    var result := counter.ReconcileMax(key, r.micros);
    SpendMoves(before, key, result);
    if r.rows.Some? {
      var pending := PendingMicrosFor(r.rows.value, b.owner, AgentFilter(b), period.startMs, period.endMs);
      RangeSums(r.rows.value, b, at);
      PendingMoves(counter.store, key, pending);
      counter.ReconcilePending(key, pending);
    }
  }

  lemma {:induction false} SpendMoves(store: Store, key: string, v: nat)
    requires IsSpendKey(key)
    ensures OnlyMoved(store, store[key := v], [key]) && Pending(store[key := v], key) == Pending(store, key)
  {
    forall k
      ensures Pending(store[key := v], k) == Pending(store, k)
    {
      PendingIsNoSpendKey(k, key);
    }
  }

  lemma {:induction false} PendingMoves(store: Store, key: string, v: nat)
    requires IsSpendKey(key)
    ensures OnlyMoved(store, SetPending(store, key, v), [key])
    ensures Pending(SetPending(store, key, v), key) == v && Read(SetPending(store, key, v), key) == Read(store, key)
  {
    forall k
      ensures Pending(SetPending(store, key, v), k) == if k == key then v else Pending(store, k)
      ensures IsSpendKey(k) ==> Read(SetPending(store, key, v), k) == Read(store, k)
    {
      SetPendingMoves(store, key, v, k);
    }
  }

  lemma {:induction false} SameSum(rows: seq<Job>, b: Budget, c: Budget, at: nat)
    requires SameMeter(b, c)
    ensures ReservedSum(rows, b, at) == ReservedSum(rows, c, at)
  {
    if rows != [] {
      var front, last := rows[..|rows| - 1], rows[|rows| - 1];
      SameSum(front, b, c, at);
      assert ScopeIdOf(b) == ScopeIdOf(c) && KeyFor(b, at) == KeyFor(c, at);
      assert last.submittedAt >= 0 ==> KeyFor(b, last.submittedAt) == KeyFor(c, last.submittedAt);
      assert ReservesOn(last, b, at) <==> ReservesOn(last, c, at);
    }
  }

  /** The counter holds, for every budget of the group, what the database answered. */
  predicate GroupMeets(before: Store, after: Store, g: Group, at: nat, db: Readings) {
    forall b :: b in g.budgets ==> Meets(before, after, g.key, db(g.key), SumFor(db(g.key), b, at))
  }

  lemma {:induction false} SharedMeets(before: Store, after: Store, groups: seq<Group>, active: seq<Budget>, at: nat, i: nat, b: Budget, db: Readings)
    requires Partitions(groups, active, KeyingAt(at)) && i < |groups| && b in groups[i].budgets
    requires forall c :: c in active ==> PlainBudget(c)
    requires Meets(before, after, groups[i].key, db(groups[i].key), SumFor(db(groups[i].key), b, at))
    ensures GroupMeets(before, after, groups[i], at, db)
  {
    var r := db(groups[i].key);
    InGroup(groups, active, at, i, b);
    forall c | c in groups[i].budgets
      ensures SumFor(r, c, at) == SumFor(r, b, at)
    {
      InGroup(groups, active, at, i, c);
      SharedKey(b, at, c, at);
      SameSum(r.rows.GetOr([]), b, c, at);
    }
  }

  /** Where an occurrence stands: the first `i` counters are reconciled, and no other has moved. */
  ghost predicate Underway(before: Store, now: Store, groups: seq<Group>, i: nat, at: nat, db: Readings)
    requires i <= |groups|
  {
    OnlyMoved(before, now, KeysOf(groups)[..i]) && forall g :: 0 <= g < i ==> GroupMeets(before, now, groups[g], at, db)
  }

  lemma {:induction false} OneMore(before: Store, middle: Store, now: Store, groups: seq<Group>, i: nat, at: nat, db: Readings)
    requires i < |groups| && DistinctKeys(groups) && (forall g :: 0 <= g < |groups| ==> IsSpendKey(groups[g].key))
    requires Underway(before, middle, groups, i, at, db) && OnlyMoved(middle, now, [groups[i].key])
    requires GroupMeets(middle, now, groups[i], at, db)
    ensures Underway(before, now, groups, i + 1, at, db)
  {
    var keys := KeysOf(groups);
    assert keys[..i + 1] == keys[..i] + [keys[i]] && keys[i] !in keys[..i];
    forall g | 0 <= g < i
      ensures GroupMeets(before, now, groups[g], at, db)
    {
      assert groups[g].key != groups[i].key && GroupMeets(before, middle, groups[g], at, db);
      assert Pending(now, groups[g].key) == Pending(middle, groups[g].key) && Read(now, groups[g].key) == Read(middle, groups[g].key);
    }
    assert Pending(middle, keys[i]) == Pending(before, keys[i]) && Read(middle, keys[i]) == Read(before, keys[i]);
  }

  /** An alert budget whose period total has reached its amount. */
  predicate Due(b: Budget, micros: nat) { b.action.Alert? && micros >= ToMicros(b.amount) }

  /** `marks`: whether the alert marker of the budget's period was set by this call; one that is set already, or a call
      that fails, alerts nobody. */
  method Alerts(budgets: seq<Budget>, micros: nat, marks: Budget -> bool) returns (alerted: seq<Budget>)
    ensures forall b :: b in alerted <==> b in budgets && Due(b, micros) && marks(b)
  {
    alerted := [];
    var i := 0;
    while i < |budgets|
      invariant 0 <= i <= |budgets|
      invariant forall b :: b in alerted <==> b in budgets[..i] && Due(b, micros) && marks(b)
    {
      assert budgets[..i + 1] == budgets[..i] + [budgets[i]];
      if Due(budgets[i], micros) && marks(budgets[i]) {
        alerted := alerted + [budgets[i]];
      }
      i := i + 1;
    }
    assert budgets[..i] == budgets;
  }

  /** Reconciles one more group: the ones before it stay reconciled. */
  method NextGroup(counter: SpendCounter, groups: seq<Group>, i: nat, at: nat, db: Readings, ghost before: Store, ghost active: seq<Budget>)
    requires i < |groups| && Partitions(groups, active, KeyingAt(at)) && Dated(db, groups[i].key)
    requires (forall b :: b in active ==> PlainBudget(b)) && forall g :: 0 <= g < |groups| ==> IsSpendKey(groups[g].key)
    requires Underway(before, counter.store, groups, i, at, db)
    modifies counter
    ensures Underway(before, counter.store, groups, i + 1, at, db)
  {
    var b := groups[i].budgets[0];
    ghost var middle := counter.store;
    InGroup(groups, active, at, i, b);
    ReconcileGroup(counter, groups[i].key, b, at, db(groups[i].key));
    SharedMeets(middle, counter.store, groups, active, at, i, b, db);
    OneMore(before, middle, counter.store, groups, i, at, db);
  }

  /** The alerts of the first `i` groups, each by its own counter's total. */
  predicate AllAlerted(alerted: seq<Budget>, groups: seq<Group>, i: nat, db: Readings, marks: Budget -> bool)
    requires i <= |groups|
  {
    && (forall b :: b in alerted ==> exists g :: 0 <= g < i && b in groups[g].budgets && Due(b, db(groups[g].key).micros) && marks(b))
    && (forall g, b :: 0 <= g < i && b in groups[g].budgets && Due(b, db(groups[g].key).micros) && marks(b) ==> b in alerted)
  }

  /** A call to the database or the store that fails ends the occurrence: at that group, with its spend raised or not, or
      behind the last one at the heartbeat. */
  datatype Stop = Stop(group: nat, raised: bool)

  predicate StopsAt(stop: Option<Stop>, i: nat) { stop.Some? && stop.value.group == i }

  /** One reconcile occurrence, each counter from what the database answers at its turn: afterwards the counter of every
      active budget that was reached carries the ceilings of exactly the live jobs reserved on it, its spend is at least
      the ledger's, no other counter has moved, and `alerted` are the alert budgets among them that reached their amount.
      The heartbeat `beat` is stamped if and only if no call failed, and then every active budget was reached; the counter
      at which one failed, `half`, has its spend raised at most. */
  method RunBudgetOccurrence(counter: SpendCounter, active: seq<Budget>, db: Readings, at: nat, marks: Budget -> bool, stop: Option<Stop>)
      returns (alerted: seq<Budget>, beat: bool, ghost done: seq<string>, ghost half: seq<string>)
    requires (forall b :: b in active ==> PlainBudget(b)) && forall k :: Dated(db, k)
    modifies counter
    ensures forall b :: b in active && KeyFor(b, at) in done ==> Reconciled(old(counter.store), counter.store, b, at, db)
    ensures forall k :: k !in done ==> Pending(counter.store, k) == Pending(old(counter.store), k)
    ensures forall k :: IsSpendKey(k) && k !in done && k !in half ==> Read(counter.store, k) == Read(old(counter.store), k)
    ensures forall k :: k in half ==> Meets(old(counter.store), counter.store, k, db(k).(rows := None), 0)
    ensures forall k :: k in done || k in half ==> exists b :: b in active && KeyFor(b, at) == k
    ensures forall b :: b in alerted
              <==> (b in active && KeyFor(b, at) in done && b.action == Alert && ReachesUsd(db(KeyFor(b, at)).micros, b.amount) && marks(b))
    ensures (stop.None? ==> beat) && (beat ==> half == [] && forall b :: b in active ==> KeyFor(b, at) in done)
  {
    var groups := GroupByKey(active, KeyingAt(at));
    GroupsSpend(groups, active, at);
    ghost var before := counter.store;
    alerted, done, half := [], [], [];
    var i := 0;
    while i < |groups| && !StopsAt(stop, i)
      invariant 0 <= i <= |groups|
      invariant Underway(before, counter.store, groups, i, at, db) && AllAlerted(alerted, groups, i, db, marks)
    {
      NextGroup(counter, groups, i, at, db, before, active);
      var more := Alerts(groups[i].budgets, db(groups[i].key).micros, marks);
      MoreAlerts(alerted, more, groups, i, db, marks);
      alerted := alerted + more;
      i := i + 1;
    }
    beat := !StopsAt(stop, i);
    ghost var middle := counter.store;
    done := KeysOf(groups)[..i];
    if i < |groups| && stop.value.raised {
      var result := counter.ReconcileMax(groups[i].key, db(groups[i].key).micros);
      SpendMoves(middle, groups[i].key, result);
      half := [groups[i].key];
      HalfMeets(before, middle, counter.store, groups, i, db);
    }
    ReachedMeet(before, middle, counter.store, groups, active, at, i, half, db);
    AlertsAre(alerted, groups, active, at, i, db, marks);
    forall b
      ensures Due(b, db(KeyFor(b, at)).micros) <==> b.action == Alert && ReachesUsd(db(KeyFor(b, at)).micros, b.amount)
    {
      MicrosOfUsd(db(KeyFor(b, at)).micros, b.amount);
    }
    ReachedAre(groups, active, at, i);
  }

  lemma {:induction false} MoreAlerts(alerted: seq<Budget>, more: seq<Budget>, groups: seq<Group>, i: nat, db: Readings, marks: Budget -> bool)
    requires i < |groups| && AllAlerted(alerted, groups, i, db, marks)
    requires forall b :: b in more <==> b in groups[i].budgets && Due(b, db(groups[i].key).micros) && marks(b)
    ensures AllAlerted(alerted + more, groups, i + 1, db, marks)
  {
  }

  lemma {:induction false} GroupsSpend(groups: seq<Group>, active: seq<Budget>, at: nat)
    requires Partitions(groups, active, KeyingAt(at))
    ensures forall g :: 0 <= g < |groups| ==> IsSpendKey(groups[g].key)
  {
    forall g | 0 <= g < |groups|
      ensures IsSpendKey(groups[g].key)
    {
      var b := GroupKeyOf(groups, active, at, g);
    }
  }

  lemma {:induction false} KeyAhead(groups: seq<Group>, i: nat, g: nat)
    requires DistinctKeys(groups) && i <= |groups| && g < |groups|
    ensures groups[g].key in KeysOf(groups)[..i] <==> g < i
  {
    var keys := KeysOf(groups);
    if g < i {
      assert keys[..i][g] == keys[g];
    }
  }

  /** The counter at which a call failed had not moved before. */
  lemma {:induction false} HalfMeets(before: Store, middle: Store, after: Store, groups: seq<Group>, i: nat, db: Readings)
    requires i < |groups| && DistinctKeys(groups) && IsSpendKey(groups[i].key) && OnlyMoved(before, middle, KeysOf(groups)[..i])
    requires var k := groups[i].key;
             Pending(after, k) == Pending(middle, k) && Read(after, k) == if db(k).micros > Read(middle, k) then db(k).micros else Read(middle, k)
    ensures var k := groups[i].key; Meets(before, after, k, db(k).(rows := None), 0)
  {
    KeyAhead(groups, i, i);
  }

  lemma {:induction false} ReachedMeet(before: Store, middle: Store, after: Store, groups: seq<Group>, active: seq<Budget>, at: nat, i: nat,
                                       half: seq<string>, db: Readings)
    requires Partitions(groups, active, KeyingAt(at)) && i <= |groups| && Underway(before, middle, groups, i, at, db)
    requires (after == middle && half == []) || (i < |groups| && half == [groups[i].key] && OnlyMoved(middle, after, half)
                                               && Pending(after, groups[i].key) == Pending(middle, groups[i].key))
    requires forall g :: 0 <= g < |groups| ==> IsSpendKey(groups[g].key)
    ensures forall b :: b in active && KeyFor(b, at) in KeysOf(groups)[..i] ==> Reconciled(before, after, b, at, db)
    ensures forall k :: k !in KeysOf(groups)[..i] ==> Pending(after, k) == Pending(before, k)
    ensures forall k :: IsSpendKey(k) && k !in KeysOf(groups)[..i] && k !in half ==> Read(after, k) == Read(before, k)
  {
    forall b | b in active && KeyFor(b, at) in KeysOf(groups)[..i]
      ensures Reconciled(before, after, b, at, db)
    {
      var g := GroupOf(groups, active, at, b);
      KeyAhead(groups, i, g);
      assert GroupMeets(before, middle, groups[g], at, db);
      assert i < |groups| ==> groups[g].key != groups[i].key;
    }
  }

  lemma {:induction false} AlertsAre(alerted: seq<Budget>, groups: seq<Group>, active: seq<Budget>, at: nat, i: nat, db: Readings, marks: Budget -> bool)
    requires Partitions(groups, active, KeyingAt(at)) && i <= |groups| && AllAlerted(alerted, groups, i, db, marks)
    ensures forall b :: b in alerted <==>
              b in active && KeyFor(b, at) in KeysOf(groups)[..i] && Due(b, db(KeyFor(b, at)).micros) && marks(b)
  {
    forall b
      ensures b in alerted <==> b in active && KeyFor(b, at) in KeysOf(groups)[..i] && Due(b, db(KeyFor(b, at)).micros) && marks(b)
    {
      if b in alerted {
        var g :| 0 <= g < i && b in groups[g].budgets && Due(b, db(groups[g].key).micros) && marks(b);
        InGroup(groups, active, at, g, b);
        KeyAhead(groups, i, g);
      } else if b in active {
        var g := GroupOf(groups, active, at, b);
        KeyAhead(groups, i, g);
      }
    }
  }

  lemma {:induction false} ReachedAre(groups: seq<Group>, active: seq<Budget>, at: nat, i: nat)
    requires Partitions(groups, active, KeyingAt(at)) && i <= |groups|
    ensures forall g :: 0 <= g < |groups| ==> exists b :: b in active && KeyFor(b, at) == groups[g].key
    ensures forall k :: k in KeysOf(groups)[..i] ==> exists b :: b in active && KeyFor(b, at) == k
    ensures i == |groups| ==> forall b :: b in active ==> KeyFor(b, at) in KeysOf(groups)[..i]
  {
    forall g | 0 <= g < |groups|
      ensures exists b :: b in active && KeyFor(b, at) == groups[g].key
    {
      var b := GroupKeyOf(groups, active, at, g);
    }
    forall b | b in active && i == |groups|
      ensures KeyFor(b, at) in KeysOf(groups)[..i]
    {
      var g := GroupOf(groups, active, at, b);
      KeyAhead(groups, i, g);
    }
  }
}
