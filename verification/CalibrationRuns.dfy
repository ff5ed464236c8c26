/** Calibration at two scopes as a state machine: sweeps, rebases, reverts and toggles on the tenant's settings and on its
    agents, every write compare-and-set against an observation that may be arbitrarily old. */
module CalibrationRuns {
  import opened Options
  import opened Calibration

  type AgentId = string

  /** The tenant's row; `generation` counts the agents' promotions and demotions. */
  datatype Settings = Settings(enabled: bool, quad: Option<Quad>, epoch: nat, generation: nat)

  datatype AgentRow = AgentRow(quad: Option<Quad>, epoch: nat)

  /** `log` holds the tenant's audit rows, `agentLog` its agents'. `past` records which quad each epoch carried. */
  datatype State = State(settings: Settings, agents: map<AgentId, AgentRow>, log: seq<CalEvent>, agentLog: seq<(AgentId, CalEvent)>,
                         past: map<nat, Option<Quad>>)

  /** What does not change during a run. */
  datatype Env = Env(instance: Pair, cfg: Config) {
    function Rails(): Rails { RailsOf(cfg) }

    predicate Ok() { ConfigOk(cfg) && OnScale(instance) }

    function TenantPair(s: Settings): Pair { Effective(instance, s.quad, Rails()) }
  }

  // ---- the writes ----

  /** `enabled` and `generation` are compared only when given. */
  datatype Expected = Expected(enabled: Option<bool>, quad: Option<Quad>, epoch: nat, generation: Option<nat>)

  predicate Matches(s: Settings, x: Expected) {
    && s.epoch == x.epoch && s.quad == x.quad
    && (x.generation.Some? ==> s.generation == x.generation.value) && (x.enabled.Some? ==> s.enabled == x.enabled.value)
  }

  /** The tenant's write: all or nothing, the epoch counts the events. */
  function SetTenant(s: State, quad: Option<Quad>, x: Expected, events: seq<CalEvent>): State {
    if !Matches(s.settings, x) then s
    else
      var epoch := s.settings.epoch + |events|;
      s.(settings := s.settings.(quad := quad, epoch := epoch), log := s.log + events, past := s.past[epoch := quad])
  }

  function RevertEvent(env: Env, s: Settings): CalEvent {
    CalEvent(Revert, if s.quad.Some? then s.quad.value.pair else env.instance, env.instance, env.instance, None)
  }

  /** The user's revert: clears whatever pair is there. */
  function ClearTenant(env: Env, s: State): State {
    if s.settings.quad.None? then s
    else
      var epoch := s.settings.epoch + 1;
      s.(settings := s.settings.(quad := None, epoch := epoch), log := s.log + [RevertEvent(env, s.settings)], past := s.past[epoch := None])
  }

  /** The parent a promotion was derived from; its anchors are not compared. */
  datatype Pin = Pin(pair: Option<Pair>, epoch: nat, generation: nat)

  function PairOf(q: Option<Quad>): Option<Pair> { if q.Some? then Some(q.value.pair) else None }

  predicate Pinned(s: Settings, pin: Option<Pin>) {
    pin.Some? ==> PairOf(s.quad) == pin.value.pair && s.epoch == pin.value.epoch && s.generation == pin.value.generation
  }

  function Tagged(id: AgentId, events: seq<CalEvent>): seq<(AgentId, CalEvent)> {
    seq(|events|, i requires 0 <= i < |events| => (id, events[i]))
  }

  /** An agent's write: the pin, then the agent's own row; a real change of membership moves the generation. */
  function SetAgent(s: State, id: AgentId, quad: Option<Quad>, x: AgentRow, pin: Option<Pin>, events: seq<CalEvent>): State {
    if !Pinned(s.settings, pin) || id !in s.agents || s.agents[id] != x then s
    else
      var moved := if x.quad.Some? != quad.Some? then 1 else 0;
      s.(agents := s.agents[id := AgentRow(quad, x.epoch + 1)],
         settings := s.settings.(generation := s.settings.generation + moved),
         agentLog := s.agentLog + Tagged(id, events))
  }

  // ---- the steps ----

  /** What the analytics and the recent events answered. */
  datatype Evidence = Evidence(highEdge: EdgeStats, lowEdge: EdgeStats, coolHigh: bool, coolLow: bool)

  datatype Step =
    | TenantMove(obs: Settings, evidence: Evidence)
    | TenantRebase(obs: Settings)
    | TenantRevert
    | Toggle(enabled: bool)
    | AgentAdded(id: AgentId)
    | AgentMove(id: AgentId, parentObs: Settings, row: AgentRow, evidence: Evidence)
    | AgentClear(id: AgentId, parentObs: Settings, row: AgentRow, trigger: Trigger)

  function TenantInputs(env: Env, obs: Settings, e: Evidence): MoveInputs {
    MoveInputs(env.instance, env.TenantPair(obs), if obs.quad.Some? then obs.quad.value.anchor else env.instance,
               e.highEdge, e.lowEdge, e.coolHigh, e.coolLow, env.cfg, env.Rails(), None)
  }

  function Expecting(obs: Settings, enabled: Option<bool>): Expected { Expected(enabled, obs.quad, obs.epoch, None) }

  function MoveTenant(env: Env, s: State, obs: Settings, e: Evidence): State {
    if IsStale(env.instance, obs.quad, env.Rails()) || Halted(env.instance, env.TenantPair(obs), env.Rails()) then s
    else
      match Decision(TenantInputs(env, obs, e))
      case Noop => s
      case Move(target, events) => SetTenant(s, Some(Quad(target, env.instance)), Expecting(obs, Some(true)), events)
  }

  function RebaseEvent(env: Env, obs: Settings): CalEvent {
    CalEvent(Rebase, if obs.quad.Some? then obs.quad.value.pair else env.instance, env.instance, env.instance, None)
  }

  function RebaseTenant(env: Env, s: State, obs: Settings): State {
    if !IsStale(env.instance, obs.quad, env.Rails()) then s
    else SetTenant(s, None, Expecting(obs, None), [RebaseEvent(env, obs)])
  }

  function AgentInputs(env: Env, parent: Pair, obs: AgentRow, e: Evidence): MoveInputs {
    MoveInputs(parent, Effective(parent, obs.quad, env.Rails()), if obs.quad.Some? then obs.quad.value.anchor else parent,
               e.highEdge, e.lowEdge, e.coolHigh, e.coolLow, env.cfg, env.Rails(), Some(env.instance))
  }

  /** The parent is what the sweep read; a promoted agent whose own pair does not apply is left to hygiene. */
  function MoveAgent(env: Env, s: State, id: AgentId, parentObs: Settings, obs: AgentRow, e: Evidence): State {
    var parent := env.TenantPair(parentObs);
    var own := Effective(parent, obs.quad, env.Rails());
    if Halted(env.instance, parent, env.Rails()) || (obs.quad.Some? && own == parent) || Halted(parent, own, env.Rails()) then s
    else
      match Decision(AgentInputs(env, parent, obs, e))
      case Noop => s
      case Move(target, events) =>
        SetAgent(s, id, Some(Quad(target, parent)), obs, Some(Pin(PairOf(parentObs.quad), parentObs.epoch, parentObs.generation)), events)
  }

  /** Hygiene and the user's agent revert: back to inherited, with no pin on the parent. */
  function ClearAgent(env: Env, s: State, id: AgentId, parentObs: Settings, obs: AgentRow, trigger: Trigger): State {
    if obs.quad.None? then s
    else
      var parent := env.TenantPair(parentObs);
      SetAgent(s, id, None, obs, None, [CalEvent(trigger, obs.quad.value.pair, parent, parent, None)])
  }

  function Next(env: Env, s: State, step: Step): State {
    match step
    case TenantMove(obs, e) => MoveTenant(env, s, obs, e)
    case TenantRebase(obs) => RebaseTenant(env, s, obs)
    case TenantRevert => ClearTenant(env, s)
    case Toggle(enabled) => s.(settings := s.settings.(enabled := enabled))
    case AgentAdded(id) => if id in s.agents then s else s.(agents := s.agents[id := AgentRow(None, 0)])
    case AgentMove(id, parentObs, obs, e) => if WasRead(s, parentObs) then MoveAgent(env, s, id, parentObs, obs, e) else s
    case AgentClear(id, parentObs, obs, trigger) => ClearAgent(env, s, id, parentObs, obs, trigger)
  }

  /** The tenant's row did look like this once: what a read can return. */
  predicate WasRead(s: State, obs: Settings) { obs.epoch in s.past && s.past[obs.epoch] == obs.quad }

  function Start(enabled: bool): State { State(Settings(enabled, None, 0, 0), map[], [], [], map[0 := None]) }

  function Run(env: Env, s: State, steps: seq<Step>): State {
    if steps == [] then s else Next(env, Run(env, s, steps[..|steps| - 1]), steps[|steps| - 1])
  }

  // ---- the invariant ----

  predicate TenantOk(env: Env, s: Settings) { s.quad.Some? ==> ApplyPair(env.instance, s.quad, env.Rails()) == Some(s.quad.value.pair) }

  /** An agent's pair is sound on its own anchor, and within the cap of the instance defaults. */
  predicate AgentQuadOk(env: Env, q: Quad) {
    && ApplyPair(q.anchor, Some(q), env.Rails()) == Some(q.pair)
    && env.instance.low <= q.anchor.low && q.anchor.high <= env.instance.high
    && env.instance.high - q.pair.high <= env.cfg.maxDrift && q.pair.low - env.instance.low <= env.cfg.maxDrift
  }

  predicate AgentsOk(env: Env, agents: map<AgentId, AgentRow>) {
    forall id :: id in agents && agents[id].quad.Some? ==> AgentQuadOk(env, agents[id].quad.value)
  }

  predicate PastOk(s: State) {
    && s.settings.epoch in s.past && s.past[s.settings.epoch] == s.settings.quad
    && (forall e :: e in s.past ==> e <= s.settings.epoch)
  }

  // -- the audit log --

  /** The pair an auditor ends at, replaying the events in order; `None` when one does not take up where the last ended. */
  function Replay(from: Pair, log: seq<CalEvent>): Option<Pair> {
    if log == [] then Some(from)
    else
      var p, e := Replay(from, log[..|log| - 1]), log[|log| - 1];
      if p == Some(e.before) then Some(e.after) else None
  }

  predicate LogOk(env: Env, s: State) {
    |s.log| == s.settings.epoch && Replay(env.instance, s.log) == Some(env.TenantPair(s.settings))
  }

  /** Calibrator events since the last clear. */
  function SinceClear(log: seq<CalEvent>): nat {
    if log == [] || !log[|log| - 1].trigger.Calibrator? then 0 else SinceClear(log[..|log| - 1]) + 1
  }

  /** Those of one edge. */
  function Since(log: seq<CalEvent>, edge: Edge): nat {
    if log == [] || !log[|log| - 1].trigger.Calibrator? then 0
    else Since(log[..|log| - 1], edge) + (if log[|log| - 1].edge == Some(edge) then 1 else 0)
  }

  /** Each edge stands one step from the instance default per event since the last clear. */
  predicate Walked(env: Env, p: Pair, high: nat, low: nat) {
    env.instance.high - p.high == high * env.cfg.step && p.low - env.instance.low == low * env.cfg.step
  }

  predicate StepsOk(env: Env, p: Pair, log: seq<CalEvent>) {
    Walked(env, p, Since(log, High), Since(log, Low)) && SinceClear(log) == Since(log, High) + Since(log, Low)
  }

  predicate Inv(env: Env, s: State) {
    TenantOk(env, s.settings) && AgentsOk(env, s.agents) && PastOk(s) && LogOk(env, s) && StepsOk(env, env.TenantPair(s.settings), s.log)
  }

  // ---- what every step keeps ----

  /** A stored tenant pair applies as it stands, so it only contracts from the instance defaults, within the cap. */
  lemma {:induction false} TenantPairIs(env: Env, s: Settings)
    requires env.Ok() && TenantOk(env, s)
    ensures env.TenantPair(s) == (if s.quad.Some? then s.quad.value.pair else env.instance)
    ensures s.quad.Some? ==> s.quad.value.anchor == env.instance && GapAdmissible(env.TenantPair(s).Gap(), env.Rails())
    ensures Contracts(env.TenantPair(s), env.instance, env.cfg.maxDrift) && OnScale(env.TenantPair(s))
    ensures !IsStale(env.instance, s.quad, env.Rails())
  {
  }

  lemma {:induction false} ReplayOne(from: Pair, log: seq<CalEvent>, e: CalEvent)
    ensures Replay(from, log + [e]) == if Replay(from, log) == Some(e.before) then Some(e.after) else None
    ensures SinceClear(log + [e]) == if e.trigger.Calibrator? then SinceClear(log) + 1 else 0
    ensures forall edge :: Since(log + [e], edge) == if e.trigger.Calibrator? then Since(log, edge) + (if e.edge == Some(edge) then 1 else 0) else 0
  {
    assert (log + [e])[..|log|] == log;
  }

  function Mark(e: CalEvent, edge: Edge): nat { if e.edge == Some(edge) then 1 else 0 }

  function Marked(events: seq<CalEvent>, edge: Edge): nat {
    if events == [] then 0 else Marked(events[..|events| - 1], edge) + Mark(events[|events| - 1], edge)
  }

  /** Calibrator events that chain replay to the end of the chain. */
  lemma {:induction false} ReplayAll(from: Pair, log: seq<CalEvent>, events: seq<CalEvent>, start: Pair)
    requires Replay(from, log) == Some(start) && Linked(events, start)
    ensures Replay(from, log + events) == Some(EndOf(events, start))
    ensures SinceClear(log + events) == SinceClear(log) + |events|
    ensures forall edge :: Since(log + events, edge) == Since(log, edge) + Marked(events, edge)
  {
    if events == [] {
      assert log + events == log;
    } else {
      var front, last := events[..|events| - 1], events[|events| - 1];
      ReplayAll(from, log, front, start);
      assert log + events == (log + front) + [last];
      ReplayOne(from, log + front, last);
    }
  }

  function EndOf(events: seq<CalEvent>, start: Pair): Pair { if events == [] then start else events[|events| - 1].after }

  /** Calibrator events, each taking up where the last left off. */
  predicate Linked(events: seq<CalEvent>, start: Pair) {
    events == []
    || (events[|events| - 1].trigger.Calibrator? && events[|events| - 1].before == EndOf(events[..|events| - 1], start)
        && Linked(events[..|events| - 1], start))
  }

  /** A move's events chain from the pair it started at to its target, one per moved edge. */
  lemma {:induction false} MoveLinks(p: MoveInputs)
    requires Decision(p).Move?
    ensures var d := Decision(p);
            && d.events != [] && Linked(d.events, p.eff) && EndOf(d.events, p.eff) == d.target
            && d.target.high == p.eff.high - Marked(d.events, High) * p.cfg.step
            && d.target.low == p.eff.low + Marked(d.events, Low) * p.cfg.step
            && |d.events| == Marked(d.events, High) + Marked(d.events, Low)
  {
    assert High in {High, Low} && Low in {High, Low} && High !in {Low} && Low !in {High};
    var events := Decision(p).events;
    MarkedFew(events);
    assert events[..1][..0] == [] && (|events| == 1 ==> events[..0] == []);
  }

  lemma {:induction false} MarkedFew(events: seq<CalEvent>)
    ensures |events| == 1 ==> forall edge :: Marked(events, edge) == Mark(events[0], edge)
    ensures |events| == 2 ==> forall edge :: Marked(events, edge) == Mark(events[0], edge) + Mark(events[1], edge)
  {
    if |events| >= 1 {
      var one := events[..1];
      assert one[..0] == [] && (|events| == 1 ==> one == events) && (|events| == 2 ==> events[..|events| - 1] == one);
      assert forall edge :: Marked(one, edge) == Marked(one[..0], edge) + Mark(one[0], edge);
    }
  }

  lemma {:induction false} WalksOn(env: Env, p: Pair, target: Pair, high: nat, low: nat, moreHigh: nat, moreLow: nat)
    requires Walked(env, p, high, low)
    requires target == Pair(p.high - moreHigh * env.cfg.step, p.low + moreLow * env.cfg.step)
    ensures Walked(env, target, high + moreHigh, low + moreLow)
  {
    Distribute(high, moreHigh, env.cfg.step);
    Distribute(low, moreLow, env.cfg.step);
  }

  lemma {:induction false} MoveWalks(env: Env, log: seq<CalEvent>, p: MoveInputs)
    requires Decision(p).Move? && p.cfg == env.cfg && Replay(env.instance, log) == Some(p.eff) && StepsOk(env, p.eff, log)
    ensures Replay(env.instance, log + Decision(p).events) == Some(Decision(p).target) && Decision(p).events != []
    ensures StepsOk(env, Decision(p).target, log + Decision(p).events)
  {
    MoveLinks(p);
    EventsWalk(env, log, p.eff, Decision(p).events, Decision(p).target);
  }

  lemma {:induction false} EventsWalk(env: Env, log: seq<CalEvent>, p: Pair, events: seq<CalEvent>, target: Pair)
    requires Replay(env.instance, log) == Some(p) && StepsOk(env, p, log) && Linked(events, p) && EndOf(events, p) == target
    requires target == Pair(p.high - Marked(events, High) * env.cfg.step, p.low + Marked(events, Low) * env.cfg.step)
    requires |events| == Marked(events, High) + Marked(events, Low)
    ensures Replay(env.instance, log + events) == Some(target) && StepsOk(env, target, log + events)
  {
    ReplayAll(env.instance, log, events, p);
    WalksOn(env, p, target, Since(log, High), Since(log, Low), Marked(events, High), Marked(events, Low));
  }

  lemma {:induction false} Distribute(a: nat, b: nat, step: int)
    ensures (a + b) * step == a * step + b * step
  {
  }

  lemma {:induction false} PastKeeps(s: State, quad: Option<Quad>, x: Expected, events: seq<CalEvent>)
    requires PastOk(s) && Matches(s.settings, x) && |events| > 0
    ensures PastOk(SetTenant(s, quad, x, events))
  {
  }

  /** Writing the tenant's row and its events keeps the bookkeeping. */
  lemma {:induction false} SetTenantKeeps(env: Env, s: State, quad: Option<Quad>, x: Expected, events: seq<CalEvent>, p: Pair)
    requires Inv(env, s) && Matches(s.settings, x) && |events| > 0
    requires var after := SetTenant(s, quad, x, events).settings; TenantOk(env, after) && env.TenantPair(after) == p
    requires Replay(env.instance, s.log + events) == Some(p) && StepsOk(env, p, s.log + events)
    ensures Inv(env, SetTenant(s, quad, x, events))
  {
    PastKeeps(s, quad, x, events);
  }

  lemma {:induction false} MoveTenantKeeps(env: Env, s: State, obs: Settings, e: Evidence)
    requires env.Ok() && Inv(env, s)
    ensures Inv(env, MoveTenant(env, s, obs, e))
    ensures var s' := MoveTenant(env, s, obs, e);
            s' != s ==> s'.settings.quad.Some? && !IsStale(env.instance, s'.settings.quad, env.Rails())
                        && !Halted(env.instance, env.TenantPair(s'.settings), env.Rails())
  {
    var p := TenantInputs(env, obs, e);
    var d := Decision(p);
    if MoveTenant(env, s, obs, e) != s {
      var x := Expecting(obs, Some(true));
      assert obs.quad == s.settings.quad;
      TenantPairIs(env, s.settings);
      DecisionDecides(p);
      MoveKeeps(p, d);
      MoveWalks(env, s.log, p);
      SetTenantKeeps(env, s, Some(Quad(d.target, env.instance)), x, d.events, d.target);
    }
  }

  /** With the configuration fixed, no stored tenant pair ever goes stale: there is nothing to rebase. */
  lemma {:induction false} RebaseKeeps(env: Env, s: State, obs: Settings)
    requires env.Ok() && Inv(env, s)
    ensures RebaseTenant(env, s, obs) == s
  {
    TenantPairIs(env, s.settings);
  }

  lemma {:induction false} ClearKeeps(env: Env, s: State)
    requires env.Ok() && Inv(env, s)
    ensures Inv(env, ClearTenant(env, s))
  {
    if s.settings.quad.Some? {
      TenantPairIs(env, s.settings);
      ReplayOne(env.instance, s.log, RevertEvent(env, s.settings));
    }
  }

  /** An agent write commits only in a state where its anchor is the tenant's effective pair: the pin compares the epoch,
      and an epoch never carried two different pairs. */
  lemma {:induction false} AgentAnchored(env: Env, s: State, id: AgentId, parentObs: Settings, row: AgentRow, e: Evidence)
    requires env.Ok() && Inv(env, s) && WasRead(s, parentObs) && MoveAgent(env, s, id, parentObs, row, e) != s
    ensures var s' := MoveAgent(env, s, id, parentObs, row, e);
            && id in s'.agents && s'.agents[id].quad.Some? && s'.agents[id].quad.value.anchor == env.TenantPair(s.settings)
            && s'.settings.quad == s.settings.quad
            && AgentQuadOk(env, s'.agents[id].quad.value)
            && !Halted(env.TenantPair(s.settings), s'.agents[id].quad.value.pair, env.Rails())
  {
    assert parentObs.quad == s.settings.quad;
    var parent := env.TenantPair(s.settings);
    TenantPairIs(env, s.settings);
    assert env.TenantPair(parentObs) == parent;
    var p := AgentInputs(env, parent, row, e);
    DecisionDecides(p);
    assert row == s.agents[id];
    AgentStarts(env, parent, row);
    MoveKeeps(p, Decision(p));
  }

  /** The pair an agent's move starts from lies within its parent, and its drift is measured from the parent. */
  lemma {:induction false} AgentStarts(env: Env, parent: Pair, row: AgentRow)
    requires env.Ok() && OnScale(parent)
    requires row.quad.Some? ==> Effective(parent, row.quad, env.Rails()) != parent
    ensures Contracts(Effective(parent, row.quad, env.Rails()), parent, env.cfg.maxDrift)
    ensures row.quad.Some? ==> row.quad.value.anchor == parent
  {
  }

  lemma {:induction false} MoveAgentKeeps(env: Env, s: State, id: AgentId, parentObs: Settings, row: AgentRow, e: Evidence)
    requires env.Ok() && Inv(env, s) && WasRead(s, parentObs)
    ensures Inv(env, MoveAgent(env, s, id, parentObs, row, e))
  {
    var s' := MoveAgent(env, s, id, parentObs, row, e);
    if s' != s {
      AgentAnchored(env, s, id, parentObs, row, e);
      SameTenant(env, s.settings, s'.settings);
    }
  }

  lemma {:induction false} SameTenant(env: Env, a: Settings, b: Settings)
    requires a.quad == b.quad
    ensures env.TenantPair(a) == env.TenantPair(b) && (TenantOk(env, a) <==> TenantOk(env, b))
  {
  }

  lemma {:induction false} ClearAgentKeeps(env: Env, s: State, id: AgentId, parentObs: Settings, row: AgentRow, trigger: Trigger)
    requires env.Ok() && Inv(env, s)
    ensures Inv(env, ClearAgent(env, s, id, parentObs, row, trigger))
  {
    SameTenant(env, s.settings, ClearAgent(env, s, id, parentObs, row, trigger).settings);
  }

  lemma {:induction false} NextKeeps(env: Env, s: State, step: Step)
    requires env.Ok() && Inv(env, s)
    ensures Inv(env, Next(env, s, step))
  {
    match step
    case TenantMove(obs, e) => MoveTenantKeeps(env, s, obs, e);
    case TenantRebase(obs) => RebaseKeeps(env, s, obs);
    case TenantRevert => ClearKeeps(env, s);
    case Toggle(enabled) => SameTenant(env, s.settings, Next(env, s, step).settings);
    case AgentAdded(id) =>
    case AgentMove(id, parentObs, row, e) =>
      if WasRead(s, parentObs) {
        MoveAgentKeeps(env, s, id, parentObs, row, e);
      }
    case AgentClear(id, parentObs, row, trigger) => ClearAgentKeeps(env, s, id, parentObs, row, trigger);
  }

  // ---- every run ----

  lemma {:induction false} RunKeeps(env: Env, enabled: bool, steps: seq<Step>)
    requires env.Ok()
    ensures Inv(env, Run(env, Start(enabled), steps))
  {
    if steps != [] {
      RunKeeps(env, enabled, steps[..|steps| - 1]);
      NextKeeps(env, Run(env, Start(enabled), steps[..|steps| - 1]), steps[|steps| - 1]);
    }
  }

  /** Whatever pairs are stored at the two levels, however they got there, the pair that decides a request only contracts
      from the instance defaults, drifts at most the cap from them even across two levels, and is the instance pair or a
      gap-admissible one; an agent's pair that does not qualify leaves the tenant's level to decide. */
  lemma {:induction false} EffectivePairSound(env: Env, tenant: Option<Quad>, agent: Option<Quad>)
    requires env.Ok()
    ensures var t := Effective(env.instance, tenant, env.Rails());
            var r := Resolve(env.instance, tenant, agent, env.Rails());
            && Contracts(r.0, env.instance, env.cfg.maxDrift)
            && (r.0 == env.instance || GapAdmissible(r.0.Gap(), env.Rails()))
            && (r.1.FromAgent? <==> agent.Some? && ApplyPair(t, agent, env.Rails()).Some?
                                    && Contracts(agent.value.pair, env.instance, env.cfg.maxDrift))
            && (if r.1.FromAgent? then r.0 == agent.value.pair else r.0 == t)
  {
  }

  /** What runs add: every pair they store is sound where it is stored - the tenant's on the instance pair, each agent's on
      its own anchor, within the cap of the instance defaults, even once the tenant has moved on and left it stale. So an
      agent's pair decides exactly when its anchor is the tenant's effective pair, and the global bound never steps in. */
  lemma {:induction false} StoredPairsSound(env: Env, enabled: bool, steps: seq<Step>)
    requires env.Ok()
    ensures var s := Run(env, Start(enabled), steps);
            && TenantOk(env, s.settings)
            && forall id :: id in s.agents && s.agents[id].quad.Some? ==>
                 var q := s.agents[id].quad.value;
                 && AgentQuadOk(env, q)
                 && (Resolve(env.instance, s.settings.quad, Some(q), env.Rails()).1.FromAgent? <==> q.anchor == env.TenantPair(s.settings))
  {
    RunKeeps(env, enabled, steps);
    var s := Run(env, Start(enabled), steps);
    TenantPairIs(env, s.settings);
    forall id | id in s.agents && s.agents[id].quad.Some?
      ensures AgentQuadOk(env, s.agents[id].quad.value)
      ensures Resolve(env.instance, s.settings.quad, s.agents[id].quad, env.Rails()).1.FromAgent?
              <==> s.agents[id].quad.value.anchor == env.TenantPair(s.settings)
    {
      AnchorDecides(env, s.settings.quad, s.agents[id].quad.value);
    }
  }

  lemma {:induction false} AnchorDecides(env: Env, tenant: Option<Quad>, q: Quad)
    requires AgentQuadOk(env, q)
    ensures Resolve(env.instance, tenant, Some(q), env.Rails()).1.FromAgent? <==> q.anchor == Effective(env.instance, tenant, env.Rails())
  {
  }

  /** In every run a move that commits, at either scope, neither goes stale nor halts the scope it was applied to. */
  lemma {:induction false} MovesNeverHalt(env: Env, enabled: bool, steps: seq<Step>, step: Step)
    requires env.Ok() && (step.TenantMove? || step.AgentMove?)
    ensures var s := Run(env, Start(enabled), steps);
            var s' := Next(env, s, step);
            && (step.TenantMove? && s' != s ==>
                  !IsStale(env.instance, s'.settings.quad, env.Rails()) && !Halted(env.instance, env.TenantPair(s'.settings), env.Rails()))
            && (step.AgentMove? && s' != s ==>
                  && step.id in s'.agents && s'.agents[step.id].quad.Some?
                  && s'.agents[step.id].quad.value.anchor == env.TenantPair(s'.settings)
                  && Resolve(env.instance, s'.settings.quad, s'.agents[step.id].quad, env.Rails()) == (s'.agents[step.id].quad.value.pair, FromAgent)
                  && !Halted(env.TenantPair(s'.settings), s'.agents[step.id].quad.value.pair, env.Rails()))
  {
    RunKeeps(env, enabled, steps);
    var s := Run(env, Start(enabled), steps);
    if step.TenantMove? {
      MoveTenantKeeps(env, s, step.obs, step.evidence);
    } else if WasRead(s, step.parentObs) && Next(env, s, step) != s {
      AgentAnchored(env, s, step.id, step.parentObs, step.row, step.evidence);
      SameTenant(env, s.settings, Next(env, s, step).settings);
    }
  }

  /** Replaying the tenant's audit events from the instance pair gives the pair it holds or inherits, at every state a run
      reaches, and the epoch counts the events. */
  lemma {:induction false} AuditReplays(env: Env, enabled: bool, steps: seq<Step>)
    requires env.Ok()
    ensures var s := Run(env, Start(enabled), steps);
            && Replay(env.instance, s.log) == Some(if s.settings.quad.Some? then s.settings.quad.value.pair else env.instance)
            && s.settings.epoch == |s.log|
  {
    RunKeeps(env, enabled, steps);
    TenantPairIs(env, Run(env, Start(enabled), steps).settings);
  }

  /** Between two clears the calibrator records at most 2 * floor(maxDrift / step) events. */
  lemma {:induction false} EventsBetweenClears(env: Env, enabled: bool, steps: seq<Step>)
    requires env.Ok()
    ensures SinceClear(Run(env, Start(enabled), steps).log) <= 2 * (env.cfg.maxDrift / env.cfg.step)
  {
    RunKeeps(env, enabled, steps);
    var s := Run(env, Start(enabled), steps);
    TenantPairIs(env, s.settings);
    AtMost(Since(s.log, High), env.cfg.step, env.cfg.maxDrift);
    AtMost(Since(s.log, Low), env.cfg.step, env.cfg.maxDrift);
  }

  lemma {:induction false} Exceeds(n: nat, step: int, cap: int)
    requires step > 0 && cap >= 0 && n > cap / step
    ensures n * step > cap
  {
    var q := cap / step;
    assert cap == step * q + cap % step;
    Distribute(n - q - 1, q + 1, step);
    Distribute(q, 1, step);
    assert (n - q - 1) * step >= 0;
  }

  lemma {:induction false} AtMost(n: nat, step: int, cap: int)
    requires step > 0 && cap >= 0 && n * step <= cap
    ensures n <= cap / step
  {
    if n > cap / step {
      Exceeds(n, step, cap);
    }
  }

  // ---- which moves commit ----

  /** A tenant's move commits exactly if calibration is still enabled, the row is still the one the sweep listed, its pair
      is neither stale nor halted, and the evidence decides on a move; it then stores the target on the instance pair, and
      nothing of the tenant changes otherwise. */
  lemma {:induction false} TenantMovesIff(env: Env, s: State, obs: Settings, e: Evidence)
    ensures var pair := if obs.quad.Some? then obs.quad.value.pair else env.instance;
            var anchor := if obs.quad.Some? then obs.quad.value.anchor else env.instance;
            var d := Decision(MoveInputs(env.instance, pair, anchor, e.highEdge, e.lowEdge, e.coolHigh, e.coolLow, env.cfg, RailsOf(env.cfg), None));
            if s.settings.enabled && s.settings.quad == obs.quad && s.settings.epoch == obs.epoch
               && !IsStale(env.instance, obs.quad, RailsOf(env.cfg)) && !Halted(env.instance, pair, RailsOf(env.cfg)) && d.Move? then
              MoveTenant(env, s, obs, e)
              == s.(settings := Settings(true, Some(Quad(d.target, env.instance)), obs.epoch + |d.events|, s.settings.generation),
                    log := s.log + d.events, past := s.past[obs.epoch + |d.events| := Some(Quad(d.target, env.instance))])
            else MoveTenant(env, s, obs, e) == s
  {
  }

  /** An agent's move commits exactly if its row is still the one listed, the tenant's pair, epoch and generation are still
      those of the parent the sweep read, the parent is not halted, its own pair - if it has one - applies and is not halted
      under it, and the evidence decides on a move; it then stores the target on the parent's pair. */
  lemma {:induction false} AgentMovesIff(env: Env, s: State, id: AgentId, parentObs: Settings, obs: AgentRow, e: Evidence)
    ensures var parent := Effective(env.instance, parentObs.quad, RailsOf(env.cfg));
            var pair := if obs.quad.Some? then obs.quad.value.pair else parent;
            var anchor := if obs.quad.Some? then obs.quad.value.anchor else parent;
            var d := Decision(MoveInputs(parent, pair, anchor, e.highEdge, e.lowEdge, e.coolHigh, e.coolLow, env.cfg, RailsOf(env.cfg), Some(env.instance)));
            if id in s.agents && s.agents[id] == obs && PairOf(s.settings.quad) == PairOf(parentObs.quad)
               && s.settings.epoch == parentObs.epoch && s.settings.generation == parentObs.generation
               && !Halted(env.instance, parent, RailsOf(env.cfg)) && (obs.quad.Some? ==> ApplyPair(parent, obs.quad, RailsOf(env.cfg)).Some? && pair != parent)
               && !Halted(parent, pair, RailsOf(env.cfg)) && d.Move? then
              && MoveAgent(env, s, id, parentObs, obs, e).settings
                 == s.settings.(generation := s.settings.generation + (if obs.quad.None? then 1 else 0))
              && MoveAgent(env, s, id, parentObs, obs, e).agents == s.agents[id := AgentRow(Some(Quad(d.target, parent)), obs.epoch + 1)]
              && MoveAgent(env, s, id, parentObs, obs, e).log == s.log && MoveAgent(env, s, id, parentObs, obs, e).past == s.past
            else MoveAgent(env, s, id, parentObs, obs, e) == s
  {
  }

  /** A rebase commits exactly if the listed pair is stale and still the tenant's, epoch included - enabled or not; it then
      clears the pair with one event. */
  lemma {:induction false} RebasesIff(env: Env, s: State, obs: Settings)
    requires obs.quad.Some?
    ensures var event := CalEvent(Rebase, obs.quad.value.pair, env.instance, env.instance, None);
            RebaseTenant(env, s, obs)
            == if IsStale(env.instance, obs.quad, RailsOf(env.cfg)) && s.settings.quad == obs.quad && s.settings.epoch == obs.epoch then
                 s.(settings := s.settings.(quad := None, epoch := obs.epoch + 1), log := s.log + [event], past := s.past[obs.epoch + 1 := None])
               else s
  {
  }

  // ---- reverts ----

  /** The tenant's revert always wins. The agent's, although meant to, is compare-and-set against the row it read: it
      clears the pair if and only if that row is still current, and otherwise silently does nothing. */
  lemma {:induction false} RevertClearsIff(env: Env, s: State, id: AgentId, parentObs: Settings, row: AgentRow)
    requires id in s.agents && s.agents[id].quad.Some? && row.quad.Some?
    ensures ClearTenant(env, s).settings.quad.None?
    ensures var after := ClearAgent(env, s, id, parentObs, row, Revert);
            && id in after.agents
            && (after.agents[id].quad.None? <==> s.agents[id] == row)
            && (s.agents[id] != row ==> after == s)
  {
  }

  const ENV := Env(Pair(8000, 2000), Config(500, 3000, 50))
  const FAILING := Evidence(EdgeStats(100, 100), EdgeStats(100, 100), false, false)
  const READ := Settings(true, None, 0, 0)

  /** What an agent's move on failing evidence writes. */
  lemma {:induction false} MovesOnce(s: State, obs: Settings, row: AgentRow, high: int)
    requires s.settings == obs && obs.quad.None? && "a" in s.agents && s.agents["a"] == row && PastOk(s)
    requires row.quad == (if high == 8000 then None else Some(Quad(Pair(high, 2000), Pair(8000, 2000)))) && 7000 <= high <= 8000
    ensures var t := Next(ENV, s, AgentMove("a", obs, row, FAILING));
            && "a" in t.agents && t.agents["a"] == AgentRow(Some(Quad(Pair(high - 500, 2000), Pair(8000, 2000))), row.epoch + 1)
            && t.settings == obs.(generation := obs.generation + (if high == 8000 then 1 else 0)) && t.past == s.past
  {
    var p := AgentInputs(ENV, Pair(8000, 2000), row, FAILING);
    assert p.eff == Pair(high, 2000);
    assert HighEligible(p) && !LowEligible(p) && Chosen(p) == {High};
    assert High in {High};
    assert TargetOf(p) == Pair(high - 500, 2000);
  }

  /** The state after a first move, which the user's revert reads. */
  const FIRST := [AgentAdded("a"), AgentMove("a", READ, AgentRow(None, 0), FAILING)]
  const MOVED_ROW := AgentRow(Some(Quad(Pair(7500, 2000), Pair(8000, 2000))), 1)
  const AGAIN := READ.(generation := 1)

  lemma {:induction false} FirstMove()
    ensures var s := Run(ENV, Start(true), FIRST); s.settings == AGAIN && PastOk(s) && "a" in s.agents && s.agents["a"] == MOVED_ROW
  {
    var s0 := Start(true);
    var s1 := Next(ENV, s0, FIRST[0]);
    RunTwo(ENV, s0, FIRST[0], FIRST[1]);
    MovesOnce(s1, READ, AgentRow(None, 0), 8000);
  }

  /** A reachable run in which the revert is lost: it reads the agent's row, the calibrator moves the agent once more, and
      the revert's write then matches nothing and leaves the pair. */
  lemma {:induction false} RevertLost()
    ensures ENV.Ok()
    ensures var read := Run(ENV, Start(true), FIRST);
            var moved := Next(ENV, read, AgentMove("a", AGAIN, MOVED_ROW, FAILING));
            var after := Next(ENV, moved, AgentClear("a", AGAIN, MOVED_ROW, Revert));
            && "a" in read.agents && read.agents["a"] == MOVED_ROW
            && after == moved && "a" in after.agents && after.agents["a"].quad == Some(Quad(Pair(7000, 2000), Pair(8000, 2000)))
  {
    FirstMove();
    MovesOnce(Run(ENV, Start(true), FIRST), AGAIN, MOVED_ROW, 7500);
  }

  // ---- the store and the sweep ----

  /** Hygiene retires an agent's pair that no longer applies, or whose agent is alive and yet gives no evidence. */
  predicate Retires(env: Env, parentObs: Settings, row: AgentRow, starved: bool) {
    row.quad.Some? && (Effective(env.TenantPair(parentObs), row.quad, env.Rails()) == env.TenantPair(parentObs) || starved)
  }

  /** The steps of the agents' hygiene over the rows it listed. */
  function HygieneSteps(env: Env, parentObs: Settings, held: seq<(AgentId, AgentRow, bool)>): seq<Step> {
    if held == [] then []
    else
      var front, last := HygieneSteps(env, parentObs, held[..|held| - 1]), held[|held| - 1];
      if Retires(env, parentObs, last.1, last.2) then front + [AgentClear(last.0, parentObs, last.1, Rebase)] else front
  }

  lemma {:induction false} RunSnoc(env: Env, s: State, steps: seq<Step>, step: Step)
    ensures Run(env, s, steps + [step]) == Next(env, Run(env, s, steps), step)
  {
    assert (steps + [step])[..|steps|] == steps;
  }

  /** The tenant's settings row, its agents' rows and the audit rows, as the transactions change them. `past` is only
      bookkeeping for the proofs. */
  class CalibrationStore {
    var settings: Settings
    var agents: map<AgentId, AgentRow>
    var log: seq<CalEvent>
    var agentLog: seq<(AgentId, CalEvent)>
    ghost var past: map<nat, Option<Quad>>

    ghost function View(): State
      reads this
    {
      State(settings, agents, log, agentLog, past)
    }

    constructor (enabled: bool)
      ensures View() == Start(enabled)
    {
      settings, agents, log, agentLog := Settings(enabled, None, 0, 0), map[], [], [];
      past := map[0 := None];
    }

    /** One transaction: re-read, compare, write, one audit row per event. */
    method SetCalibrated(quad: Option<Quad>, x: Expected, events: seq<CalEvent>) returns (ok: bool)
      modifies this
      ensures View() == SetTenant(old(View()), quad, x, events)
      ensures ok <==> old(settings).epoch == x.epoch && old(settings).quad == x.quad
                      && (x.enabled.Some? ==> old(settings).enabled == x.enabled.value)
                      && (x.generation.Some? ==> old(settings).generation == x.generation.value)
      ensures settings == if ok then old(settings).(quad := quad, epoch := old(settings).epoch + |events|) else old(settings)
      ensures log == (if ok then old(log) + events else old(log)) && agents == old(agents) && agentLog == old(agentLog)
    {
      if settings.epoch != x.epoch {
        return false;
      }
      if x.generation.Some? && settings.generation != x.generation.value {
        return false;
      }
      if x.enabled.Some? && settings.enabled != x.enabled.value {
        return false;
      }
      if settings.quad != x.quad {
        return false;
      }
      settings := settings.(quad := quad, epoch := settings.epoch + |events|);
      past := past[settings.epoch := quad];
      var i := 0;
      while i < |events|
        invariant 0 <= i <= |events|
        invariant log == old(log) + events[..i]
        invariant settings == old(settings).(quad := quad, epoch := old(settings).epoch + |events|)
        invariant agents == old(agents) && agentLog == old(agentLog) && past == old(past)[settings.epoch := quad]
      {
        log := log + [events[i]];
        i := i + 1;
      }
      assert events[..i] == events;
      ok := true;
    }

    method ClearCalibrated(env: Env) returns (ok: bool)
      modifies this
      ensures ok == old(settings).quad.Some? && View() == ClearTenant(env, old(View()))
      ensures settings == if ok then old(settings).(quad := None, epoch := old(settings).epoch + 1) else old(settings)
      ensures log == (if ok then old(log) + [CalEvent(Revert, old(settings).quad.value.pair, env.instance, env.instance, None)] else old(log))
      ensures agents == old(agents) && agentLog == old(agentLog)
    {
      if settings.quad.None? {
        return false;
      }
      log := log + [RevertEvent(env, settings)];
      settings := settings.(quad := None, epoch := settings.epoch + 1);
      past := past[settings.epoch := None];
      ok := true;
    }

    /** One transaction over the settings row and the agent's row. */
    method SetAgentCalibrated(id: AgentId, quad: Option<Quad>, x: AgentRow, pin: Option<Pin>, events: seq<CalEvent>) returns (ok: bool)
      modifies this
      ensures View() == SetAgent(old(View()), id, quad, x, pin, events)
      ensures ok <==> id in old(agents) && old(agents)[id] == x
                      && (pin.Some? ==> PairOf(old(settings).quad) == pin.value.pair && old(settings).epoch == pin.value.epoch
                                        && old(settings).generation == pin.value.generation)
      ensures agents == if ok then old(agents)[id := AgentRow(quad, x.epoch + 1)] else old(agents)
      ensures settings == old(settings).(generation := old(settings).generation + (if ok && x.quad.Some? != quad.Some? then 1 else 0))
      ensures log == old(log) && |agentLog| == |old(agentLog)| + (if ok then |events| else 0) && agentLog[..|old(agentLog)|] == old(agentLog)
      ensures ok ==> forall i :: 0 <= i < |events| ==> agentLog[|old(agentLog)| + i] == (id, events[i])
    {
      if pin.Some? {
        if PairOf(settings.quad) != pin.value.pair || settings.epoch != pin.value.epoch || settings.generation != pin.value.generation {
          return false;
        }
      }
      if id !in agents || agents[id] != x {
        return false;
      }
      agents := agents[id := AgentRow(quad, agents[id].epoch + 1)];
      if x.quad.Some? != quad.Some? {
        settings := settings.(generation := settings.generation + 1);
      }
      agentLog := agentLog + Tagged(id, events);
      ok := true;
    }

    /** Pass B: one tenant's move. `obs` is the row the sweep listed, however old by now. */
    method CalibrateTenant(env: Env, obs: Settings, e: Evidence) returns (moved: bool)
      modifies this
      ensures View() == MoveTenant(env, old(View()), obs, e)
    {
      if IsStale(env.instance, obs.quad, env.Rails()) {
        return false;
      }
      if Halted(env.instance, env.TenantPair(obs), env.Rails()) {
        return false;
      }
      var d := DecideMove(TenantInputs(env, obs, e));
      DecisionUnique(TenantInputs(env, obs, e), d);
      if d.Noop? {
        return false;
      }
      moved := SetCalibrated(Some(Quad(d.target, env.instance)), Expecting(obs, Some(true)), d.events);
    }

    /** Pass A: retire a stale pair, whether or not calibration is enabled. */
    method RebaseStale(env: Env, obs: Settings) returns (ok: bool)
      modifies this
      ensures View() == RebaseTenant(env, old(View()), obs)
    {
      if !IsStale(env.instance, obs.quad, env.Rails()) {
        return false;
      }
      ok := SetCalibrated(None, Expecting(obs, None), [RebaseEvent(env, obs)]);
    }

    /** Pass C: one agent's move, under the parent the sweep read. */
    method CalibrateAgent(env: Env, id: AgentId, parentObs: Settings, row: AgentRow, e: Evidence) returns (moved: bool)
      modifies this
      ensures View() == MoveAgent(env, old(View()), id, parentObs, row, e)
    {
      var parent := env.TenantPair(parentObs);
      if Halted(env.instance, parent, env.Rails()) {
        return false;
      }
      var own := Effective(parent, row.quad, env.Rails());
      if row.quad.Some? && own == parent {
        return false;
      }
      if Halted(parent, own, env.Rails()) {
        return false;
      }
      var d := DecideMove(AgentInputs(env, parent, row, e));
      DecisionUnique(AgentInputs(env, parent, row, e), d);
      if d.Noop? {
        return false;
      }
      var pin := Pin(PairOf(parentObs.quad), parentObs.epoch, parentObs.generation);
      moved := SetAgentCalibrated(id, Some(Quad(d.target, parent)), row, Some(pin), d.events);
    }

    /** Pass C over the agents the sweep listed: the parent is read once, after the tenant's own move. */
    method CalibrateAgents(env: Env, listed: seq<(AgentId, AgentRow, Evidence)>, parentObs: Settings) returns (moves: nat)
      requires WasRead(View(), parentObs)
      modifies this
      ensures View() == Run(env, old(View()), AgentSteps(parentObs, listed)) && moves <= |listed|
    {
      ghost var start := View();
      moves := 0;
      var i := 0;
      while i < |listed|
        invariant 0 <= i <= |listed| && moves <= i
        invariant View() == Run(env, start, AgentSteps(parentObs, listed[..i])) && WasRead(View(), parentObs)
      {
        AgentMore(env, start, parentObs, listed, i);
        var moved := CalibrateAgent(env, listed[i].0, parentObs, listed[i].1, listed[i].2);
        moves := if moved then moves + 1 else moves;
        i := i + 1;
      }
      assert listed[..i] == listed;
    }

    /** One agent's hygiene. */
    method RetireAgent(env: Env, id: AgentId, parentObs: Settings, row: AgentRow, starved: bool) returns (ok: bool)
      modifies this
      ensures View() == if Retires(env, parentObs, row, starved) then Next(env, old(View()), AgentClear(id, parentObs, row, Rebase)) else old(View())
      ensures var parent := Effective(env.instance, parentObs.quad, RailsOf(env.cfg));
              ok <==> row.quad.Some? && (starved || ApplyPair(parent, row.quad, RailsOf(env.cfg)).None? || row.quad.value.pair == parent)
                      && id in old(agents) && old(agents)[id] == row
      ensures agents == if ok then old(agents)[id := AgentRow(None, row.epoch + 1)] else old(agents)
    {
      var parent := env.TenantPair(parentObs);
      if row.quad.None? || (Effective(parent, row.quad, env.Rails()) != parent && !starved) {
        return false;
      }
      ok := SetAgentCalibrated(id, None, row, None, [CalEvent(Rebase, row.quad.value.pair, parent, parent, None)]);
    }

    /** Pass A2: agents' hygiene under the parent it read, with no pin on that parent. */
    method HygieneAgents(env: Env, held: seq<(AgentId, AgentRow, bool)>, parentObs: Settings) returns (cleared: nat)
      modifies this
      ensures View() == Run(env, old(View()), HygieneSteps(env, parentObs, held)) && cleared <= |held|
    {
      ghost var start := View();
      cleared := 0;
      var i := 0;
      while i < |held|
        invariant 0 <= i <= |held| && cleared <= i
        invariant View() == Run(env, start, HygieneSteps(env, parentObs, held[..i]))
      {
        HygieneMore(env, start, parentObs, held, i);
        var ok := RetireAgent(env, held[i].0, parentObs, held[i].1, held[i].2);
        cleared := if ok then cleared + 1 else cleared;
        i := i + 1;
      }
      assert held[..i] == held;
    }

    /** The two hygiene passes. */
    method Hygiene(env: Env, stored: Settings, held: seq<(AgentId, AgentRow, bool)>, parentRead: bool) returns (ghost steps: seq<Step>)
      requires env.Ok() && Inv(env, View())
      modifies this
      ensures View() == Run(env, old(View()), steps)
      ensures steps == [TenantRebase(stored)] + HygieneSteps(env, HygieneParent(old(settings), parentRead), held)
    {
      ghost var start := View();
      var rebased := RebaseStale(env, stored);
      RebaseKeeps(env, start, stored);
      var parent := HygieneParent(settings, parentRead);
      var cleared := HygieneAgents(env, held, parent);
      RunSnoc(env, start, [], TenantRebase(stored));
      RunAppend(env, start, [TenantRebase(stored)], HygieneSteps(env, parent, held));
      steps := [TenantRebase(stored)] + HygieneSteps(env, parent, held);
    }

    /** One occurrence for one tenant: its hygiene and its agents', the tenant's move, then its agents' moves under the pair
        it settled on. `parentRead`: hygiene could read the tenant's row, else it takes the instance pair for parent;
        `reread`: the agents' pass could read it again, else it goes by the row the sweep listed. */
    method Occurrence(env: Env, stored: Settings, held: seq<(AgentId, AgentRow, bool)>, parentRead: bool, listedTenant: Settings, e: Evidence,
                      reread: bool, listed: seq<(AgentId, AgentRow, Evidence)>) returns (ghost steps: seq<Step>)
      requires env.Ok() && Inv(env, View()) && (reread || WasRead(View(), listedTenant))
      modifies this
      ensures View() == Run(env, old(View()), steps) && Inv(env, View())
      ensures var parent := HygieneParent(old(settings), parentRead);
              var swept := [TenantRebase(stored)] + HygieneSteps(env, parent, held) + [TenantMove(listedTenant, e)];
              steps == swept + AgentSteps(if reread then Run(env, old(View()), swept).settings else listedTenant, listed)
    {
      ghost var start := View();
      ghost var first := Hygiene(env, stored, held, parentRead);
      var moved := CalibrateTenant(env, listedTenant, e);
      RunSnoc(env, start, first, TenantMove(listedTenant, e));
      ghost var swept := first + [TenantMove(listedTenant, e)];
      ParentRead(env, start, swept, listedTenant, reread);
      var parent := if reread then settings else listedTenant;
      ghost var rest := AgentSteps(parent, listed);
      var moves := CalibrateAgents(env, listed, parent);
      RunAppend(env, start, swept, rest);
      steps := swept + rest;
      RunInv(env, start, steps);
    }
  }

  /** The tenant's row as hygiene takes it: without it, the instance pair stands in. */
  function HygieneParent(s: Settings, parentRead: bool): Settings { if parentRead then s else s.(quad := None) }

  lemma {:induction false} HygieneMore(env: Env, s: State, parentObs: Settings, held: seq<(AgentId, AgentRow, bool)>, i: nat)
    requires i < |held|
    ensures var before := Run(env, s, HygieneSteps(env, parentObs, held[..i]));
            Run(env, s, HygieneSteps(env, parentObs, held[..i + 1]))
            == if Retires(env, parentObs, held[i].1, held[i].2) then Next(env, before, AgentClear(held[i].0, parentObs, held[i].1, Rebase)) else before
  {
    assert held[..i + 1][..i] == held[..i];
    RunSnoc(env, s, HygieneSteps(env, parentObs, held[..i]), AgentClear(held[i].0, parentObs, held[i].1, Rebase));
  }

  /** What the tenant's row is now, and what it was once, it was read as. */
  lemma {:induction false} ParentRead(env: Env, s: State, steps: seq<Step>, listed: Settings, reread: bool)
    requires env.Ok() && Inv(env, s) && (reread || WasRead(s, listed))
    ensures var now := Run(env, s, steps); WasRead(now, if reread then now.settings else listed)
  {
    RunInv(env, s, steps);
    if !reread {
      StillRead(env, s, steps, listed);
    }
  }

  lemma {:induction false} StillRead(env: Env, s: State, steps: seq<Step>, obs: Settings)
    requires env.Ok() && Inv(env, s) && WasRead(s, obs)
    ensures WasRead(Run(env, s, steps), obs)
  {
    if steps != [] {
      StillRead(env, s, steps[..|steps| - 1], obs);
      RunInv(env, s, steps[..|steps| - 1]);
      ReadStays(env, Run(env, s, steps[..|steps| - 1]), steps[|steps| - 1], obs);
    }
  }

  lemma {:induction false} ReadStays(env: Env, s: State, step: Step, obs: Settings)
    requires env.Ok() && Inv(env, s) && WasRead(s, obs)
    ensures WasRead(Next(env, s, step), obs)
  {
    match step
    case TenantMove(listed, e) => DecisionDecides(TenantInputs(env, listed, e));
    case TenantRebase(listed) => RebaseKeeps(env, s, listed);
    case _ =>
  }

  /** The steps of the agents' pass over the rows it listed. */
  function AgentSteps(parentObs: Settings, listed: seq<(AgentId, AgentRow, Evidence)>): seq<Step> {
    if listed == [] then []
    else
      var last := listed[|listed| - 1];
      AgentSteps(parentObs, listed[..|listed| - 1]) + [AgentMove(last.0, parentObs, last.1, last.2)]
  }

  lemma {:induction false} AgentMore(env: Env, s: State, parentObs: Settings, listed: seq<(AgentId, AgentRow, Evidence)>, i: nat)
    requires i < |listed| && WasRead(Run(env, s, AgentSteps(parentObs, listed[..i])), parentObs)
    ensures var next := Run(env, s, AgentSteps(parentObs, listed[..i + 1]));
            && next == MoveAgent(env, Run(env, s, AgentSteps(parentObs, listed[..i])), listed[i].0, parentObs, listed[i].1, listed[i].2)
            && WasRead(next, parentObs)
  {
    assert listed[..i + 1][..i] == listed[..i];
    RunSnoc(env, s, AgentSteps(parentObs, listed[..i]), AgentMove(listed[i].0, parentObs, listed[i].1, listed[i].2));
  }

  lemma {:induction false} RunTwo(env: Env, s: State, a: Step, b: Step)
    ensures Run(env, s, [a, b]) == Next(env, Next(env, s, a), b)
  {
    assert [a, b][..1] == [a] && [a][..0] == [];
    assert Run(env, s, [a]) == Next(env, s, a);
  }

  lemma {:induction false} RunAppend(env: Env, s: State, a: seq<Step>, b: seq<Step>)
    ensures Run(env, s, a + b) == Run(env, Run(env, s, a), b)
  {
    if b == [] {
      assert a + b == a;
    } else {
      assert (a + b)[..|a + b| - 1] == a + b[..|b| - 1];
      RunAppend(env, s, a, b[..|b| - 1]);
    }
  }

  lemma {:induction false} RunInv(env: Env, s: State, steps: seq<Step>)
    requires env.Ok() && Inv(env, s)
    ensures Inv(env, Run(env, s, steps))
  {
    if steps != [] {
      RunInv(env, s, steps[..|steps| - 1]);
      NextKeeps(env, Run(env, s, steps[..|steps| - 1]), steps[|steps| - 1]);
    }
  }
}
