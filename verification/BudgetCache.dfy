/** The per-owner budget cache: single-flight loads stamped with a generation, least-recently-used eviction. The `began`
    and `clock` stamps are history: they order loads and invalidations, and no decision reads them. */
module BudgetCache {
  import opened Options

  type Owner = string
  type Rows = seq<string>
  type LoadId = nat

  datatype Entry = Entry(owner: Owner, at: int, rows: Rows, began: nat)

  /** What a load's promise settled to: rows that come from the load that began at `began`, or an error. */
  datatype Outcome = Pending | Resolved(began: nat) | Rejected

  /** A database load; `hit` is the entry its starter saw, served if the load fails. */
  datatype Load = Load(owner: Owner, gen: nat, began: nat, hit: Option<Entry>, outcome: Outcome)

  /** A get waiting for a load; `after` is when its owner was last invalidated before it. */
  datatype Waiter = Waiter(load: LoadId, after: nat)

  /** Rows a get received: from a load that began at `began`, for a get preceded by an invalidation at `after`. */
  datatype Served = Served(owner: Owner, after: nat, began: nat)

  /** `cache` is ordered, the least recently used entry first. */
  datatype State = State(
    cache: seq<Entry>, inflight: map<Owner, LoadId>, loads: map<LoadId, Load>, generation: map<Owner, nat>,
    invalidated: map<Owner, nat>, waiters: seq<Waiter>, served: seq<Served>, clock: nat, nextLoad: LoadId)

  datatype Config = Config(ttlMs: int, max: nat)

  datatype Event =
    | Get(owner: Owner, now: int)
    | Loaded(load: LoadId, rows: Rows, now: int)
    | Failed(load: LoadId)
    | Finally(load: LoadId)
    | Invalidate(owner: Owner)

  // ---- the ordered map ----

  function Lookup(cache: seq<Entry>, owner: Owner): Option<Entry> {
    if cache == [] then None
    else if cache[0].owner == owner then Some(cache[0])
    else Lookup(cache[1..], owner)
  }

  function Without(cache: seq<Entry>, owner: Owner): seq<Entry> {
    if cache == [] then []
    else if cache[0].owner == owner then Without(cache[1..], owner)
    else [cache[0]] + Without(cache[1..], owner)
  }

  predicate Distinct(cache: seq<Entry>) { forall i, k :: 0 <= i < k < |cache| ==> cache[i].owner != cache[k].owner }

  lemma {:induction false} LookupIs(cache: seq<Entry>, owner: Owner)
    ensures Lookup(cache, owner).Some? ==> Lookup(cache, owner).value in cache && Lookup(cache, owner).value.owner == owner
    ensures Lookup(cache, owner).None? ==> forall e :: e in cache ==> e.owner != owner
  {
    if cache != [] {
      LookupIs(cache[1..], owner);
      assert cache == [cache[0]] + cache[1..];
    }
  }

  lemma {:induction false} HeadAlone(cache: seq<Entry>)
    requires Distinct(cache) && cache != []
    ensures Distinct(cache[1..]) && forall e :: e in cache[1..] ==> e.owner != cache[0].owner
    ensures forall e :: e in cache <==> e == cache[0] || e in cache[1..]
  {
    assert cache == [cache[0]] + cache[1..];
  }

  lemma {:induction false} WithoutIs(cache: seq<Entry>, owner: Owner)
    requires Distinct(cache)
    ensures Distinct(Without(cache, owner)) && forall e :: e in Without(cache, owner) <==> e in cache && e.owner != owner
    ensures |Without(cache, owner)| == |cache| - (if Lookup(cache, owner).Some? then 1 else 0)
  {
    if cache != [] {
      HeadAlone(cache);
      WithoutIs(cache[1..], owner);
      LookupIs(cache[1..], owner);
    }
  }

  /** Delete and re-insert: the entry becomes the most recently used. */
  function Touched(cache: seq<Entry>, e: Entry): seq<Entry> { Without(cache, e.owner) + [e] }

  /** Insert, then drop the oldest entry when there are too many. */
  function Stored(cache: seq<Entry>, e: Entry, max: nat): seq<Entry> {
    var next := Touched(cache, e);
    if |next| > max then next[1..] else next
  }

  lemma {:induction false} TouchedIs(cache: seq<Entry>, e: Entry)
    requires Distinct(cache)
    ensures Distinct(Touched(cache, e)) && |Touched(cache, e)| == |cache| + (if Lookup(cache, e.owner).Some? then 0 else 1)
    ensures forall x :: x in Touched(cache, e) <==> x == e || (x in cache && x.owner != e.owner)
  {
    WithoutIs(cache, e.owner);
    var w := Without(cache, e.owner);
    forall i, k | 0 <= i < k < |w| + 1
      ensures Touched(cache, e)[i].owner != Touched(cache, e)[k].owner
    {
      assert k == |w| ==> w[i] in w;
    }
  }

  lemma {:induction false} StoredIs(cache: seq<Entry>, e: Entry, max: nat)
    requires Distinct(cache) && |cache| <= max && max >= 1
    ensures Distinct(Stored(cache, e, max)) && |Stored(cache, e, max)| <= max
    ensures e in Stored(cache, e, max) && forall x :: x in Stored(cache, e, max) ==> x == e || x in cache
  {
    TouchedIs(cache, e);
    var next := Touched(cache, e);
    assert next[|next| - 1] == e;
    if |next| > max {
      assert next[1..][|next| - 2] == e;
      assert forall x :: x in next[1..] ==> x in next;
    }
  }

  // ---- the steps ----

  function At(m: map<Owner, nat>, owner: Owner): nat { if owner in m then m[owner] else 0 }

  predicate IsFresh(hit: Option<Entry>, now: int, cfg: Config) { hit.Some? && now - hit.value.at < cfg.ttlMs }

  /** The owner's load in flight is of the current generation: a get may join it. */
  predicate Joinable(s: State, owner: Owner) {
    owner in s.inflight && s.inflight[owner] in s.loads && s.loads[s.inflight[owner]].gen == At(s.generation, owner)
  }

  /** Joining a promise that has already settled answers at once. */
  function Joined(s: State, owner: Owner): State
    requires Joinable(s, owner)
  {
    var l, after := s.inflight[owner], At(s.invalidated, owner);
    match s.loads[l].outcome
    case Pending => s.(waiters := s.waiters + [Waiter(l, after)])
    case Resolved(began) => s.(served := s.served + [Served(owner, after, began)])
    case Rejected => s
  }

  function Started(s: State, owner: Owner): State {
    var l := s.nextLoad;
    s.(loads := s.loads[l := Load(owner, At(s.generation, owner), s.clock, Lookup(s.cache, owner), Pending)],
       inflight := s.inflight[owner := l], waiters := s.waiters + [Waiter(l, At(s.invalidated, owner))], nextLoad := l + 1)
  }

  function Served1(s: State, owner: Owner, hit: Entry): State {
    s.(cache := Touched(s.cache, hit), served := s.served + [Served(owner, At(s.invalidated, owner), hit.began)])
  }

  function Tick(s: State): State { s.(clock := s.clock + 1) }

  function StepGet(s: State, owner: Owner, now: int, cfg: Config): State {
    var hit := Lookup(s.cache, owner);
    Tick(if IsFresh(hit, now, cfg) then Served1(s, owner, hit.value) else if Joinable(s, owner) then Joined(s, owner) else Started(s, owner))
  }

  /** What the waiters of a load receive. */
  function Answers(waiters: seq<Waiter>, l: LoadId, owner: Owner, began: nat): seq<Served> {
    if waiters == [] then []
    else
      Answers(waiters[..|waiters| - 1], l, owner, began)
      + (if waiters[|waiters| - 1].load == l then [Served(owner, waiters[|waiters| - 1].after, began)] else [])
  }

  /** The load's promise settles: its waiters get the rows, or the error. */
  function Settle(s: State, l: LoadId, outcome: Outcome): State
    requires l in s.loads
  {
    var load := s.loads[l];
    s.(loads := s.loads[l := load.(outcome := outcome)],
       served := s.served + if outcome.Resolved? then Answers(s.waiters, l, load.owner, outcome.began) else [])
  }

  /** Rows arrive: cached only if no write superseded the load, handed to every waiter. */
  function StepLoaded(s: State, l: LoadId, rows: Rows, now: int, cfg: Config): State {
    if l !in s.loads || !s.loads[l].outcome.Pending? then s
    else
      var load := s.loads[l];
      var current := At(s.generation, load.owner) == load.gen;
      Settle(if current then s.(cache := Stored(s.cache, Entry(load.owner, now, rows, load.began), cfg.max)) else s, l, Resolved(load.began))
  }

  /** The load fails: the stale entry is served if there was one, else the error goes to the waiters. */
  function StepFailed(s: State, l: LoadId): State {
    if l !in s.loads || !s.loads[l].outcome.Pending? then s
    else
      var hit := s.loads[l].hit;
      Settle(s, l, if hit.Some? then Resolved(hit.value.began) else Rejected)
  }

  /** A settled load leaves, and clears the in-flight slot unless a newer generation holds it. */
  function StepFinally(s: State, l: LoadId): State {
    if l !in s.loads || s.loads[l].outcome.Pending? then s
    else
      var load := s.loads[l];
      var mine := load.owner in s.inflight && s.inflight[load.owner] in s.loads && s.loads[s.inflight[load.owner]].gen == load.gen;
      s.(loads := s.loads - {l}, inflight := if mine then s.inflight - {load.owner} else s.inflight)
  }

  function StepInvalidate(s: State, owner: Owner): State {
    Tick(s.(cache := Without(s.cache, owner), generation := s.generation[owner := At(s.generation, owner) + 1],
            invalidated := s.invalidated[owner := s.clock]))
  }

  function Step(s: State, ev: Event, cfg: Config): State {
    match ev
    case Get(owner, now) => StepGet(s, owner, now, cfg)
    case Loaded(l, rows, now) => StepLoaded(s, l, rows, now, cfg)
    case Failed(l) => StepFailed(s, l)
    case Finally(l) => StepFinally(s, l)
    case Invalidate(owner) => StepInvalidate(s, owner)
  }

  /** The clock starts at 1, so nothing has been invalidated at time 0. */
  const START := State([], map[], map[], map[], map[], [], [], 1, 0)

  function Run(s: State, evs: seq<Event>, cfg: Config): State {
    if evs == [] then s else Step(Run(s, evs[..|evs| - 1], cfg), evs[|evs| - 1], cfg)
  }

  // ---- the invariant, part by part ----

  /** Nothing cached is older than its owner's last invalidation. */
  predicate CacheOk(cache: seq<Entry>, invalidated: map<Owner, nat>, clock: nat, max: nat) {
    Distinct(cache) && |cache| <= max && forall e :: e in cache ==> At(invalidated, e.owner) < e.began < clock
  }

  predicate StampsOk(invalidated: map<Owner, nat>, clock: nat) { clock >= 1 && forall o :: o in invalidated ==> invalidated[o] < clock }

  /** Rows this load may still hand out are newer than `after`. */
  predicate Newer(load: Load, after: nat) {
    after < load.began && (load.hit.Some? ==> after < load.hit.value.began) && (load.outcome.Resolved? ==> after < load.outcome.began)
  }

  /** A load of the current generation serves nothing older than the last invalidation. */
  predicate LoadsOk(loads: map<LoadId, Load>, generation: map<Owner, nat>, invalidated: map<Owner, nat>, clock: nat, nextLoad: LoadId) {
    forall l :: l in loads ==>
      && l < nextLoad && loads[l].gen <= At(generation, loads[l].owner) && loads[l].began < clock
      && (loads[l].gen == At(generation, loads[l].owner) ==> Newer(loads[l], At(invalidated, loads[l].owner)))
  }

  predicate SlotsOk(loads: map<LoadId, Load>, inflight: map<Owner, LoadId>) {
    forall o :: o in inflight ==> inflight[o] in loads && loads[inflight[o]].owner == o
  }

  /** At most one load per owner and generation, and the current one holds the owner's slot. */
  predicate SingleFlight(loads: map<LoadId, Load>, inflight: map<Owner, LoadId>, generation: map<Owner, nat>) {
    && (forall l, m :: l in loads && m in loads && loads[l].owner == loads[m].owner && loads[l].gen == loads[m].gen ==> l == m)
    && (forall l :: l in loads && loads[l].gen == At(generation, loads[l].owner) ==> loads[l].owner in inflight && inflight[loads[l].owner] == l)
  }

  /** Whatever a waited-for load ends up serving is newer than the invalidation its waiter must see. */
  predicate WaitersOk(waiters: seq<Waiter>, loads: map<LoadId, Load>, nextLoad: LoadId) {
    forall i :: 0 <= i < |waiters| ==> waiters[i].load < nextLoad && (waiters[i].load in loads ==> Newer(loads[waiters[i].load], waiters[i].after))
  }

  predicate ServedOk(served: seq<Served>) { forall i :: 0 <= i < |served| ==> served[i].after < served[i].began }

  predicate Inv(s: State, max: nat) {
    && CacheOk(s.cache, s.invalidated, s.clock, max)
    && StampsOk(s.invalidated, s.clock)
    && LoadsOk(s.loads, s.generation, s.invalidated, s.clock, s.nextLoad)
    && SlotsOk(s.loads, s.inflight)
    && SingleFlight(s.loads, s.inflight, s.generation)
    && WaitersOk(s.waiters, s.loads, s.nextLoad)
    && ServedOk(s.served)
  }

  // ---- what every step keeps ----

  lemma {:induction false} TickKeeps(s: State, max: nat)
    requires Inv(s, max)
    ensures Inv(Tick(s), max)
  {
  }

  lemma {:induction false} Served1Keeps(s: State, owner: Owner, max: nat)
    requires Inv(s, max) && Lookup(s.cache, owner).Some?
    ensures Inv(Served1(s, owner, Lookup(s.cache, owner).value), max)
  {
    LookupIs(s.cache, owner);
    TouchedIs(s.cache, Lookup(s.cache, owner).value);
  }

  lemma {:induction false} JoinedKeeps(s: State, owner: Owner, max: nat)
    requires Inv(s, max) && Joinable(s, owner)
    ensures Inv(Joined(s, owner), max)
  {
  }

  /** A new load: nothing of its owner's current generation was in flight. */
  lemma {:induction false} NewFlight(loads: map<LoadId, Load>, inflight: map<Owner, LoadId>, generation: map<Owner, nat>, owner: Owner, l: LoadId, load: Load)
    requires SingleFlight(loads, inflight, generation) && SlotsOk(loads, inflight) && l !in loads
    requires load.owner == owner && load.gen == At(generation, owner)
    requires owner in inflight ==> loads[inflight[owner]].gen != At(generation, owner)
    ensures SingleFlight(loads[l := load], inflight[owner := l], generation) && SlotsOk(loads[l := load], inflight[owner := l])
  {
    forall m | m in loads && loads[m].owner == owner
      ensures loads[m].gen != At(generation, owner)
    {
    }
  }

  lemma {:induction false} NewLoads(s: State, owner: Owner, load: Load)
    requires LoadsOk(s.loads, s.generation, s.invalidated, s.clock + 1, s.nextLoad) && load.gen <= At(s.generation, load.owner) && load.began <= s.clock
    requires Newer(load, At(s.invalidated, load.owner))
    ensures LoadsOk(s.loads[s.nextLoad := load], s.generation, s.invalidated, s.clock + 1, s.nextLoad + 1)
  {
  }

  lemma {:induction false} StartedKeeps(s: State, owner: Owner, max: nat)
    requires Inv(s, max) && !Joinable(s, owner)
    ensures Inv(Tick(Started(s, owner)), max)
  {
    LookupIs(s.cache, owner);
    var load := Started(s, owner).loads[s.nextLoad];
    TickKeeps(s, max);
    assert Newer(load, At(s.invalidated, owner));
    NewLoads(s, owner, load);
    NewFlight(s.loads, s.inflight, s.generation, owner, s.nextLoad, load);
  }

  lemma {:induction false} AnswersOk(waiters: seq<Waiter>, l: LoadId, owner: Owner, began: nat)
    requires forall i :: 0 <= i < |waiters| && waiters[i].load == l ==> waiters[i].after < began
    ensures ServedOk(Answers(waiters, l, owner, began))
  {
    if waiters != [] {
      AnswersOk(waiters[..|waiters| - 1], l, owner, began);
    }
  }

  /** Settling to what the load, or the entry its starter saw, may serve. */
  predicate Serves(load: Load, outcome: Outcome) {
    outcome.Resolved? ==> outcome.began == load.began || (load.hit.Some? && outcome.began == load.hit.value.began)
  }

  lemma {:induction false} SettledLoads(s: State, l: LoadId, outcome: Outcome)
    requires LoadsOk(s.loads, s.generation, s.invalidated, s.clock, s.nextLoad) && l in s.loads && Serves(s.loads[l], outcome)
    ensures LoadsOk(s.loads[l := s.loads[l].(outcome := outcome)], s.generation, s.invalidated, s.clock, s.nextLoad)
  {
  }

  lemma {:induction false} SettledFlight(loads: map<LoadId, Load>, inflight: map<Owner, LoadId>, generation: map<Owner, nat>, l: LoadId, outcome: Outcome)
    requires SingleFlight(loads, inflight, generation) && SlotsOk(loads, inflight) && l in loads
    ensures SingleFlight(loads[l := loads[l].(outcome := outcome)], inflight, generation)
    ensures SlotsOk(loads[l := loads[l].(outcome := outcome)], inflight)
  {
  }

  lemma {:induction false} SettledWaiters(waiters: seq<Waiter>, loads: map<LoadId, Load>, nextLoad: LoadId, l: LoadId, outcome: Outcome)
    requires WaitersOk(waiters, loads, nextLoad) && l in loads && Serves(loads[l], outcome)
    ensures WaitersOk(waiters, loads[l := loads[l].(outcome := outcome)], nextLoad)
    ensures outcome.Resolved? ==> forall i :: 0 <= i < |waiters| && waiters[i].load == l ==> waiters[i].after < outcome.began
  {
  }

  lemma {:induction false} SettleKeeps(s: State, l: LoadId, outcome: Outcome, max: nat)
    requires Inv(s, max) && l in s.loads && Serves(s.loads[l], outcome)
    ensures Inv(Settle(s, l, outcome), max)
  {
    SettledLoads(s, l, outcome);
    SettledFlight(s.loads, s.inflight, s.generation, l, outcome);
    SettledWaiters(s.waiters, s.loads, s.nextLoad, l, outcome);
    if outcome.Resolved? {
      AnswersOk(s.waiters, l, s.loads[l].owner, outcome.began);
    }
  }

  lemma {:induction false} StoreKeeps(s: State, e: Entry, max: nat)
    requires Inv(s, max) && max >= 1 && At(s.invalidated, e.owner) < e.began < s.clock
    ensures Inv(s.(cache := Stored(s.cache, e, max)), max)
  {
    StoredIs(s.cache, e, max);
  }

  lemma {:induction false} LoadedKeeps(s: State, l: LoadId, rows: Rows, now: int, cfg: Config)
    requires Inv(s, cfg.max) && cfg.max >= 1
    ensures Inv(StepLoaded(s, l, rows, now, cfg), cfg.max)
  {
    if l in s.loads && s.loads[l].outcome.Pending? {
      var load := s.loads[l];
      if At(s.generation, load.owner) == load.gen {
        var e := Entry(load.owner, now, rows, load.began);
        StoreKeeps(s, e, cfg.max);
        SettleKeeps(s.(cache := Stored(s.cache, e, cfg.max)), l, Resolved(load.began), cfg.max);
      } else {
        SettleKeeps(s, l, Resolved(load.began), cfg.max);
      }
    }
  }

  lemma {:induction false} FailedKeeps(s: State, l: LoadId, max: nat)
    requires Inv(s, max)
    ensures Inv(StepFailed(s, l), max)
  {
    if l in s.loads && s.loads[l].outcome.Pending? {
      var hit := s.loads[l].hit;
      SettleKeeps(s, l, if hit.Some? then Resolved(hit.value.began) else Rejected, max);
    }
  }

  lemma {:induction false} DropFlight(loads: map<LoadId, Load>, inflight: map<Owner, LoadId>, generation: map<Owner, nat>, l: LoadId)
    requires SingleFlight(loads, inflight, generation) && SlotsOk(loads, inflight) && l in loads
    ensures var load := loads[l];
            var mine := load.owner in inflight && loads[inflight[load.owner]].gen == load.gen;
            var after := if mine then inflight - {load.owner} else inflight;
            SingleFlight(loads - {l}, after, generation) && SlotsOk(loads - {l}, after)
  {
  }

  lemma {:induction false} FinallyKeeps(s: State, l: LoadId, max: nat)
    requires Inv(s, max)
    ensures Inv(StepFinally(s, l), max)
  {
    if l in s.loads && !s.loads[l].outcome.Pending? {
      DropFlight(s.loads, s.inflight, s.generation, l);
    }
  }

  lemma {:induction false} BumpedLoads(loads: map<LoadId, Load>, generation: map<Owner, nat>, invalidated: map<Owner, nat>, clock: nat, nextLoad: LoadId, owner: Owner)
    requires LoadsOk(loads, generation, invalidated, clock, nextLoad)
    ensures LoadsOk(loads, generation[owner := At(generation, owner) + 1], invalidated[owner := clock], clock + 1, nextLoad)
  {
  }

  lemma {:induction false} BumpedFlight(loads: map<LoadId, Load>, inflight: map<Owner, LoadId>, generation: map<Owner, nat>, owner: Owner)
    requires SingleFlight(loads, inflight, generation) && forall l :: l in loads ==> loads[l].gen <= At(generation, loads[l].owner)
    ensures SingleFlight(loads, inflight, generation[owner := At(generation, owner) + 1])
  {
  }

  lemma {:induction false} DroppedCache(cache: seq<Entry>, invalidated: map<Owner, nat>, clock: nat, max: nat, owner: Owner)
    requires CacheOk(cache, invalidated, clock, max)
    ensures CacheOk(Without(cache, owner), invalidated[owner := clock], clock + 1, max)
  {
    WithoutIs(cache, owner);
  }

  lemma {:induction false} InvalidateKeeps(s: State, owner: Owner, max: nat)
    requires Inv(s, max)
    ensures Inv(StepInvalidate(s, owner), max)
  {
    DroppedCache(s.cache, s.invalidated, s.clock, max, owner);
    BumpedLoads(s.loads, s.generation, s.invalidated, s.clock, s.nextLoad, owner);
    BumpedFlight(s.loads, s.inflight, s.generation, owner);
  }

  lemma {:induction false} GetKeeps(s: State, owner: Owner, now: int, cfg: Config)
    requires Inv(s, cfg.max)
    ensures Inv(StepGet(s, owner, now, cfg), cfg.max)
  {
    if IsFresh(Lookup(s.cache, owner), now, cfg) {
      Served1Keeps(s, owner, cfg.max);
      TickKeeps(Served1(s, owner, Lookup(s.cache, owner).value), cfg.max);
    } else if Joinable(s, owner) {
      JoinedKeeps(s, owner, cfg.max);
      TickKeeps(Joined(s, owner), cfg.max);
    } else {
      StartedKeeps(s, owner, cfg.max);
    }
  }

  lemma {:induction false} StepKeeps(s: State, ev: Event, cfg: Config)
    requires Inv(s, cfg.max) && cfg.max >= 1
    ensures Inv(Step(s, ev, cfg), cfg.max)
  {
    match ev
    case Get(owner, now) => GetKeeps(s, owner, now, cfg);
    case Loaded(l, rows, now) => LoadedKeeps(s, l, rows, now, cfg);
    case Failed(l) => FailedKeeps(s, l, cfg.max);
    case Finally(l) => FinallyKeeps(s, l, cfg.max);
    case Invalidate(owner) => InvalidateKeeps(s, owner, cfg.max);
  }

  // ---- every run ----

  lemma {:induction false} RunKeeps(evs: seq<Event>, cfg: Config)
    requires cfg.max >= 1
    ensures Inv(Run(START, evs, cfg), cfg.max)
  {
    if evs != [] {
      RunKeeps(evs[..|evs| - 1], cfg);
      StepKeeps(Run(START, evs[..|evs| - 1], cfg), evs[|evs| - 1], cfg);
    }
  }

  /** In every run, whatever the order in which loads settle: the rows any get received - cached, from a joined load, or
      stale after a failed refresh - come from a load that began after the last invalidation before that get; at most one
      load per owner and generation is in flight; and the cache never exceeds its cap. */
  lemma {:induction false} NeverStale(evs: seq<Event>, cfg: Config)
    requires cfg.max >= 1
    ensures var s := Run(START, evs, cfg);
            && (forall i :: 0 <= i < |s.served| ==> s.served[i].after < s.served[i].began)
            && (forall l, m :: l in s.loads && m in s.loads && l != m ==> s.loads[l].owner != s.loads[m].owner || s.loads[l].gen != s.loads[m].gen)
            && |s.cache| <= cfg.max && Distinct(s.cache)
  {
    RunKeeps(evs, cfg);
  }

  // ---- who is served ----

  lemma {:induction false} AnswersReach(waiters: seq<Waiter>, l: LoadId, owner: Owner, began: nat, i: nat)
    requires i < |waiters| && waiters[i].load == l
    ensures Served(owner, waiters[i].after, began) in Answers(waiters, l, owner, began)
  {
    if i < |waiters| - 1 {
      AnswersReach(waiters[..|waiters| - 1], l, owner, began, i);
    }
  }

  /** Every get that waits for a load is served when that brings rows, and also when it fails as long as its starter saw an
      entry: the rows of that entry then. Only a failure without one serves nobody. */
  lemma {:induction false} WaitersServed(s: State, l: LoadId, rows: Rows, now: int, cfg: Config, i: nat)
    requires l in s.loads && s.loads[l].outcome.Pending? && i < |s.waiters| && s.waiters[i].load == l
    ensures Served(s.loads[l].owner, s.waiters[i].after, s.loads[l].began) in StepLoaded(s, l, rows, now, cfg).served
    ensures s.loads[l].hit.Some? ==> Served(s.loads[l].owner, s.waiters[i].after, s.loads[l].hit.value.began) in StepFailed(s, l).served
    ensures s.loads[l].hit.None? ==> StepFailed(s, l).served == s.served
  {
    AnswersReach(s.waiters, l, s.loads[l].owner, s.loads[l].began, i);
    if s.loads[l].hit.Some? {
      AnswersReach(s.waiters, l, s.loads[l].owner, s.loads[l].hit.value.began, i);
    }
  }

  /** A fresh hit becomes the most recently used entry, and nothing enters or leaves. */
  lemma {:induction false} HitIsNewest(s: State, owner: Owner, now: int, cfg: Config)
    requires Distinct(s.cache) && IsFresh(Lookup(s.cache, owner), now, cfg)
    ensures var after := StepGet(s, owner, now, cfg).cache;
            && after != [] && after[|after| - 1] == Lookup(s.cache, owner).value
            && |after| == |s.cache| && forall e :: e in after <==> e in s.cache
  {
    LookupIs(s.cache, owner);
    TouchedIs(s.cache, Lookup(s.cache, owner).value);
    OnlyEntry(s.cache, owner);
  }

  lemma {:induction false} OnlyEntry(cache: seq<Entry>, owner: Owner)
    requires Distinct(cache)
    ensures forall e :: e in cache && e.owner == owner ==> Lookup(cache, owner) == Some(e)
  {
    LookupIs(cache, owner);
  }

  // ---- how old cached rows are ----

  /** Event `m` brought these rows for this owner, at this time. */
  predicate BroughtAt(evs: seq<Event>, cfg: Config, m: nat, e: Entry) {
    m < |evs| && evs[m].Loaded? && evs[m].rows == e.rows && evs[m].now == e.at && LoadsFor(Run(START, evs[..m], cfg), evs[m].load, e.owner)
  }

  predicate LoadsFor(s: State, l: LoadId, owner: Owner) { l in s.loads && s.loads[l].owner == owner }

  ghost predicate Brought(evs: seq<Event>, cfg: Config, cache: seq<Entry>) {
    forall e :: e in cache ==> exists m: nat :: BroughtAt(evs, cfg, m, e)
  }

  lemma {:induction false} GetCaches(s: State, owner: Owner, now: int, cfg: Config, e: Entry)
    requires Distinct(s.cache) && e in StepGet(s, owner, now, cfg).cache
    ensures e in s.cache
  {
    LookupIs(s.cache, owner);
    if Lookup(s.cache, owner).Some? {
      TouchedIs(s.cache, Lookup(s.cache, owner).value);
    }
  }

  lemma {:induction false} LoadCaches(s: State, l: LoadId, rows: Rows, now: int, cfg: Config, e: Entry)
    requires Distinct(s.cache) && |s.cache| <= cfg.max && cfg.max >= 1 && e in StepLoaded(s, l, rows, now, cfg).cache && e !in s.cache
    ensures rows == e.rows && now == e.at && LoadsFor(s, l, e.owner)
  {
    if l in s.loads {
      StoredIs(s.cache, Entry(s.loads[l].owner, now, rows, s.loads[l].began), cfg.max);
    }
  }

  /** A step caches nothing but what a load has just brought. */
  lemma {:induction false} CacheGrows(s: State, ev: Event, cfg: Config, e: Entry)
    requires Distinct(s.cache) && |s.cache| <= cfg.max && cfg.max >= 1 && e in Step(s, ev, cfg).cache && e !in s.cache
    ensures ev.Loaded? && ev.rows == e.rows && ev.now == e.at && LoadsFor(s, ev.load, e.owner)
  {
    match ev
    case Get(owner, now) => GetCaches(s, owner, now, cfg, e);
    case Loaded(l, rows, now) => LoadCaches(s, l, rows, now, cfg, e);
    case Invalidate(owner) => WithoutIs(s.cache, owner);
    case _ =>
  }

  lemma {:induction false} StillBrought(front: seq<Event>, last: Event, cfg: Config, e: Entry, m: nat)
    requires BroughtAt(front, cfg, m, e)
    ensures BroughtAt(front + [last], cfg, m, e)
  {
    assert (front + [last])[..m] == front[..m];
  }

  lemma {:induction false} BroughtNow(front: seq<Event>, last: Event, cfg: Config, e: Entry)
    requires last.Loaded? && last.rows == e.rows && last.now == e.at && LoadsFor(Run(START, front, cfg), last.load, e.owner)
    ensures BroughtAt(front + [last], cfg, |front|, e)
  {
    assert (front + [last])[..|front|] == front;
  }

  lemma {:induction false} StepBrought(front: seq<Event>, last: Event, cfg: Config, s: State)
    requires s == Run(START, front, cfg) && Inv(s, cfg.max) && cfg.max >= 1 && Brought(front, cfg, s.cache)
    ensures Brought(front + [last], cfg, Step(s, last, cfg).cache)
  {
    forall e | e in Step(s, last, cfg).cache
      ensures exists m: nat :: BroughtAt(front + [last], cfg, m, e)
    {
      if e in s.cache {
        var m: nat :| BroughtAt(front, cfg, m, e);
        StillBrought(front, last, cfg, e, m);
      } else {
        CacheGrows(s, last, cfg, e);
        BroughtNow(front, last, cfg, e);
      }
    }
  }

  lemma {:induction false} LastBrought(evs: seq<Event>, front: seq<Event>, cfg: Config, s: State)
    requires evs != [] && front == evs[..|evs| - 1] && s == Run(START, front, cfg)
    requires Inv(s, cfg.max) && cfg.max >= 1 && Brought(front, cfg, s.cache)
    ensures Brought(evs, cfg, Run(START, evs, cfg).cache)
  {
    StepBrought(front, evs[|evs| - 1], cfg, s);
    assert front + [evs[|evs| - 1]] == evs;
  }

  lemma {:induction false} RunBrought(evs: seq<Event>, cfg: Config)
    requires cfg.max >= 1
    ensures Brought(evs, cfg, Run(START, evs, cfg).cache)
  {
    if evs != [] {
      var front := evs[..|evs| - 1];
      RunBrought(front, cfg);
      RunKeeps(front, cfg);
      LastBrought(evs, front, cfg, Run(START, front, cfg));
    }
  }

  /** A get is answered with cached rows exactly if the owner has an entry younger than the time to live; and every entry
      is what a load of that owner brought, as old as that event. So no get is answered at once with rows that were read
      for another owner, or that arrived the time to live or longer ago. */
  lemma {:induction false} FreshAndOwn(evs: seq<Event>, cfg: Config, owner: Owner, now: int)
    requires cfg.max >= 1
    ensures var hit := Lookup(Run(START, evs, cfg).cache, owner);
            IsFresh(hit, now, cfg) ==>
              exists m: nat :: BroughtAt(evs, cfg, m, hit.value) && hit.value.owner == owner && now - evs[m].now < cfg.ttlMs
    ensures IsFresh(Lookup(Run(START, evs, cfg).cache, owner), now, cfg)
            <==> exists e :: e in Run(START, evs, cfg).cache && e.owner == owner && now - e.at < cfg.ttlMs
  {
    RunBrought(evs, cfg);
    RunKeeps(evs, cfg);
    var cache := Run(START, evs, cfg).cache;
    LookupIs(cache, owner);
    OnlyEntry(cache, owner);
    if IsFresh(Lookup(cache, owner), now, cfg) {
      var m: nat :| BroughtAt(evs, cfg, m, Lookup(cache, owner).value);
      assert BroughtAt(evs, cfg, m, Lookup(cache, owner).value);
    }
  }

  /** Storing above the cap drops one entry: the least recently used of the other owners'. */
  lemma {:induction false} EvictsOldest(cache: seq<Entry>, e: Entry, max: nat, i: nat, k: nat)
    requires Distinct(cache) && i < |cache| && k < |cache| && cache[i].owner != e.owner && cache[k].owner != e.owner
    requires |cache| <= max && cache[i] !in Stored(cache, e, max) && k != i
    ensures i < k && cache[k] in Stored(cache, e, max)
  {
    TouchedIs(cache, e);
    FirstLeft(cache, e.owner);
    var next := Touched(cache, e);
    assert cache[i] in next && cache[k] in next;
    assert next == [next[0]] + next[1..];
  }

  lemma {:induction false} FirstLeft(cache: seq<Entry>, owner: Owner)
    requires Distinct(cache)
    ensures forall k :: 0 <= k < |cache| && cache[k].owner != owner
              ==> Without(cache, owner) != [] && exists i :: 0 <= i <= k && cache[i] == Without(cache, owner)[0]
  {
    if cache != [] && cache[0].owner == owner {
      HeadAlone(cache);
      FirstLeft(cache[1..], owner);
      forall k | 0 <= k < |cache| && cache[k].owner != owner
        ensures Without(cache, owner) != [] && exists i :: 0 <= i <= k && cache[i] == Without(cache, owner)[0]
      {
        assert cache[1..][k - 1] == cache[k];
        var i :| 0 <= i <= k - 1 && cache[1..][i] == Without(cache[1..], owner)[0];
        assert cache[i + 1] == Without(cache, owner)[0];
      }
    }
  }

  // ---- the cache object ----

  /** What a get returns at once: cached rows, or the load whose promise it was given. */
  datatype GetResult = Hit(rows: Rows) | Awaits(load: LoadId)

  class Cache {
    const cfg: Config
    var cache: seq<Entry>
    var inflight: map<Owner, LoadId>
    var generation: map<Owner, nat>
    var loads: map<LoadId, Load>
    var nextLoad: LoadId
    var clock: nat
    ghost var invalidated: map<Owner, nat>
    ghost var waiters: seq<Waiter>
    ghost var served: seq<Served>

    ghost function View(): State
      reads this
    {
      State(cache, inflight, loads, generation, invalidated, waiters, served, clock, nextLoad)
    }

    constructor (cfg: Config)
      ensures View() == START && this.cfg == cfg
    {
      this.cfg := cfg;
      cache, inflight, generation, loads, nextLoad, clock := [], map[], map[], map[], 0, 1;
      invalidated, waiters, served := map[], [], [];
    }

    /** `Map.delete`, keeping the order of the rest. */
    method Delete(owner: Owner)
      modifies this`cache
      ensures cache == Without(old(cache), owner)
    {
      var kept, i := [], |cache|;
      while i > 0
        invariant 0 <= i <= |cache| && cache == old(cache)
        invariant kept == Without(cache[i..], owner)
      {
        i := i - 1;
        assert cache[i..][1..] == cache[i + 1..];
        if cache[i].owner != owner {
          kept := [cache[i]] + kept;
        }
      }
      cache := kept;
    }

    /** The least-recently-used touch of a fresh entry. */
    method Touch(owner: Owner)
      requires Lookup(cache, owner).Some?
      modifies this
      ensures View() == Served1(old(View()), owner, Lookup(old(cache), owner).value)
    {
      var hit := Lookup(cache, owner).value;
      LookupIs(cache, owner);
      Delete(owner);
      cache := cache + [hit];
      served := served + [Served(owner, At(invalidated, owner), hit.began)];
    }

    method Join(owner: Owner)
      requires Joinable(View(), owner)
      modifies this
      ensures View() == Joined(old(View()), owner)
    {
      ghost var outcome := loads[inflight[owner]].outcome;
      if outcome.Pending? {
        waiters := waiters + [Waiter(inflight[owner], At(invalidated, owner))];
      } else if outcome.Resolved? {
        served := served + [Served(owner, At(invalidated, owner), outcome.began)];
      }
    }

    method StartLoad(owner: Owner)
      modifies this
      ensures View() == Started(old(View()), owner)
    {
      waiters := waiters + [Waiter(nextLoad, At(invalidated, owner))];
      loads := loads[nextLoad := Load(owner, At(generation, owner), clock, Lookup(cache, owner), Pending)];
      inflight := inflight[owner := nextLoad];
      nextLoad := nextLoad + 1;
    }

    /** A fresh entry is touched and returned; a load of the current generation is joined; else one is started. */
    method Fetch(owner: Owner, now: int) returns (r: GetResult)
      modifies this
      ensures View() == StepGet(old(View()), owner, now, cfg)
      ensures r == if IsFresh(Lookup(old(cache), owner), now, cfg) then Hit(Lookup(old(cache), owner).value.rows)
                   else if Joinable(old(View()), owner) then Awaits(old(inflight)[owner]) else Awaits(old(nextLoad))
      ensures Distinct(old(cache)) ==> (r.Hit? <==> exists e :: e in old(cache) && e.owner == owner && now - e.at < cfg.ttlMs)
    {
      var hit := Lookup(cache, owner);
      LookupIs(cache, owner);
      if hit.Some? && now - hit.value.at < cfg.ttlMs {
        Touch(owner);
        r := Hit(hit.value.rows);
      } else if owner in inflight && inflight[owner] in loads && loads[inflight[owner]].gen == At(generation, owner) {
        r := Awaits(inflight[owner]);
        Join(owner);
      } else {
        r := Awaits(nextLoad);
        StartLoad(owner);
      }
      clock := clock + 1;
    }

    /** Drops rows a write has superseded, else caches them and evicts the oldest entry above the cap. */
    method Store(owner: Owner, rows: Rows, gen: nat, began: nat, now: int)
      modifies this`cache
      ensures cache == if At(generation, owner) == gen then Stored(old(cache), Entry(owner, now, rows, began), cfg.max) else old(cache)
    {
      if At(generation, owner) != gen {
        return;
      }
      Delete(owner);
      cache := cache + [Entry(owner, now, rows, began)];
      if |cache| > cfg.max {
        cache := cache[1..];
      }
    }

    method OnLoaded(l: LoadId, rows: Rows, now: int)
      modifies this
      ensures View() == StepLoaded(old(View()), l, rows, now, cfg)
    {
      if l !in loads || !loads[l].outcome.Pending? {
        return;
      }
      var load := loads[l];
      Store(load.owner, rows, load.gen, load.began, now);
      served := served + Answers(waiters, l, load.owner, load.began);
      loads := loads[l := load.(outcome := Resolved(load.began))];
    }

    method OnFailed(l: LoadId)
      modifies this
      ensures View() == StepFailed(old(View()), l)
    {
      if l !in loads || !loads[l].outcome.Pending? {
        return;
      }
      var load := loads[l];
      if load.hit.Some? {
        served := served + Answers(waiters, l, load.owner, load.hit.value.began);
        loads := loads[l := load.(outcome := Resolved(load.hit.value.began))];
      } else {
        loads := loads[l := load.(outcome := Rejected)];
      }
    }

    method OnFinally(l: LoadId)
      modifies this
      ensures View() == StepFinally(old(View()), l)
    {
      if l !in loads || loads[l].outcome.Pending? {
        return;
      }
      var load := loads[l];
      if load.owner in inflight && inflight[load.owner] in loads && loads[inflight[load.owner]].gen == load.gen {
        inflight := inflight - {load.owner};
      }
      loads := loads - {l};
    }

    method Invalidated(owner: Owner)
      modifies this
      ensures View() == StepInvalidate(old(View()), owner)
    {
      Delete(owner);
      generation := generation[owner := At(generation, owner) + 1];
      invalidated := invalidated[owner := clock];
      clock := clock + 1;
    }
  }
}
