/** The rules of threshold calibration: when a stored pair applies, when a scope is halted, and which bounded move the
    evidence earns. Thresholds, steps and rates are whole ten-thousandths. */
module Calibration {
  import opened Options

  datatype Pair = Pair(high: int, low: int) {
    function Gap(): int { high - low }
  }

  /** A stored pair with the pair of the level above it was derived from. */
  datatype Quad = Quad(pair: Pair, anchor: Pair)

  datatype Rails = Rails(maxDrift: int, minGap: int)

  datatype Config = Config(step: int, maxDrift: int, minEdgeSamples: nat)

  const UNIT: int := 10000
  const EDGE_WIDTH: int := 500
  const MIN_GAP: int := 1000
  const RATE_HIGH: int := 6500
  const RATE_LOW: int := 1500
  const MIN_EDGE_SAMPLES_FLOOR: nat := 50

  /** What boot accepts. */
  predicate ConfigOk(cfg: Config) {
    0 < cfg.step <= 2000 && cfg.step <= cfg.maxDrift <= 3000 && cfg.minEdgeSamples >= MIN_EDGE_SAMPLES_FLOOR
  }

  function RailsOf(cfg: Config): Rails { Rails(cfg.maxDrift, MIN_GAP) }

  /** Wide enough to be both admissible and not halting: the two edge zones must not even touch. */
  predicate GapAdmissible(gap: int, rails: Rails) { gap >= rails.minGap && gap > 2 * EDGE_WIDTH }

  /** The pair, if it is usable on top of `base`. */
  function ApplyPair(base: Pair, stored: Option<Quad>, rails: Rails): Option<Pair> {
    if stored.None? then None
    else
      var Quad(p, a) := stored.value;
      if p.high < 0 || p.high > UNIT || p.low < 0 || p.low > UNIT || p.low >= p.high then None
      else if a != base then None
      else if p.high > a.high || p.low < a.low then None
      else if a.high - p.high > rails.maxDrift || p.low - a.low > rails.maxDrift then None
      else if !GapAdmissible(p.Gap(), rails) then None
      else Some(p)
  }

  function Effective(base: Pair, stored: Option<Quad>, rails: Rails): Pair { ApplyPair(base, stored, rails).GetOr(base) }

  datatype ScopeTag = FromInstance | FromTenant | FromAgent

  /** The three-level chain: an unusable agent pair falls back to the tenant's, never past it. */
  function Resolve(instance: Pair, tenant: Option<Quad>, agent: Option<Quad>, rails: Rails): (Pair, ScopeTag) {
    var t := Effective(instance, tenant, rails);
    var below := if ApplyPair(instance, tenant, rails).None? then FromInstance else FromTenant;
    var own := ApplyPair(t, agent, rails);
    if own.None? then (t, below)
    else if instance.high - own.value.high > rails.maxDrift || own.value.low - instance.low > rails.maxDrift then (t, below)
    else (own.value, FromAgent)
  }

  predicate Halted(instance: Pair, effective: Pair, rails: Rails) {
    !GapAdmissible(instance.Gap(), rails) || !GapAdmissible(effective.Gap(), rails)
  }

  /** A stored pair the current configuration leaves inert. */
  predicate IsStale(base: Pair, stored: Option<Quad>, rails: Rails) {
    stored.Some? && Effective(base, stored, rails) != stored.value.pair
  }

  // ---- the decision ----

  datatype Edge = High | Low

  datatype EdgeStats = EdgeStats(samples: nat, failures: nat)

  datatype Trigger = Calibrator | Rebase | Revert

  datatype CalEvent = CalEvent(trigger: Trigger, before: Pair, after: Pair, anchor: Pair, edge: Option<Edge>)

  datatype MoveInputs = MoveInputs(
    base: Pair, eff: Pair, anchor: Pair, highEdge: EdgeStats, lowEdge: EdgeStats,
    coolHigh: bool, coolLow: bool, cfg: Config, rails: Rails, globalBound: Option<Pair>)

  datatype Outcome = Noop | Move(target: Pair, events: seq<CalEvent>)

  /** Enough evidence that the high edge fails, room for one step, no cooldown. */
  predicate HighEligible(p: MoveInputs) {
    && p.highEdge.samples >= p.cfg.minEdgeSamples
    && p.highEdge.failures * UNIT >= RATE_HIGH * p.highEdge.samples
    && p.eff.high - p.cfg.step >= p.anchor.high - p.cfg.maxDrift
    && p.eff.high - p.cfg.step < p.eff.high && !p.coolHigh
  }

  predicate LowEligible(p: MoveInputs) {
    && p.lowEdge.samples >= p.cfg.minEdgeSamples
    && p.lowEdge.failures * UNIT <= RATE_LOW * p.lowEdge.samples
    && p.eff.low + p.cfg.step <= p.anchor.low + p.cfg.maxDrift
    && p.eff.low + p.cfg.step > p.eff.low && !p.coolLow
  }

  function Stepped(p: Pair, edge: Edge, step: int): Pair {
    if edge.High? then p.(high := p.high - step) else p.(low := p.low + step)
  }

  /** The exact deviation |failures / samples - bound|, as a fraction over ten-thousandths. */
  datatype Strength = Strength(num: nat, den: nat)

  function Abs(x: int): nat { if x < 0 then -x else x }

  function StrengthOf(s: EdgeStats, rate: int): Strength { Strength(Abs(s.failures * UNIT - rate * s.samples), s.samples * UNIT) }

  /** At least as strong, by cross-multiplication. */
  predicate AtLeast(a: Strength, b: Strength) { b.num * a.den <= a.num * b.den }

  predicate HighWins(p: MoveInputs) { AtLeast(StrengthOf(p.highEdge, RATE_HIGH), StrengthOf(p.lowEdge, RATE_LOW)) }

  /** The edges a move takes, before the global bound. */
  function Chosen(p: MoveInputs): set<Edge> {
    var h, l := HighEligible(p), LowEligible(p);
    if h && l && GapAdmissible(p.eff.Gap() - 2 * p.cfg.step, p.rails) then {High, Low}
    else if !GapAdmissible(p.eff.Gap() - p.cfg.step, p.rails) then {}
    else if h && l then (if HighWins(p) then {High} else {Low})
    else if h then {High}
    else if l then {Low}
    else {}
  }

  function TargetOf(p: MoveInputs): Pair {
    Pair(p.eff.high - (if High in Chosen(p) then p.cfg.step else 0), p.eff.low + (if Low in Chosen(p) then p.cfg.step else 0))
  }

  predicate WithinGlobal(p: MoveInputs, target: Pair) {
    p.globalBound.Some?
    ==> p.globalBound.value.high - target.high <= p.cfg.maxDrift && target.low - p.globalBound.value.low <= p.cfg.maxDrift
  }

  /** One event per edge, high first, each taking up where the last left off. */
  predicate Chains(events: seq<CalEvent>, from: Pair, target: Pair, p: MoveInputs) {
    && 1 <= |events| <= 2 && events[0].before == from && events[|events| - 1].after == target
    && (|events| == 2 ==> events[0].after == events[1].before && events[0].edge == Some(High) && events[1].edge == Some(Low))
    && (forall i :: 0 <= i < |events| ==> OneStep(events[i], p))
  }

  predicate OneStep(e: CalEvent, p: MoveInputs) {
    e.trigger.Calibrator? && e.anchor == p.base && e.edge.Some? && e.after == Stepped(e.before, e.edge.value, p.cfg.step)
  }

  /** What a decision must be: the chosen edges moved by one step each, or nothing. */
  ghost predicate Decides(p: MoveInputs, d: Outcome) {
    if Chosen(p) == {} || !WithinGlobal(p, TargetOf(p)) then d.Noop?
    else d.Move? && d.target == TargetOf(p) && Chains(d.events, p.eff, d.target, p) && |d.events| == |Chosen(p)|
         && (forall e :: e in Chosen(p) <==> exists i :: 0 <= i < |d.events| && d.events[i].edge == Some(e))
  }

  datatype Candidate = Candidate(edge: Edge, strength: Strength)

  predicate HasEdge(list: seq<Candidate>, e: Edge) { exists i :: 0 <= i < |list| && list[i].edge == e }

  function FinalPair(p: MoveInputs, list: seq<Candidate>): Pair {
    Pair(p.eff.high - (if HasEdge(list, High) then p.cfg.step else 0), p.eff.low + (if HasEdge(list, Low) then p.cfg.step else 0))
  }

  method Candidates(p: MoveInputs) returns (list: seq<Candidate>)
    ensures list == (if HighEligible(p) then [Candidate(High, StrengthOf(p.highEdge, RATE_HIGH))] else [])
                    + (if LowEligible(p) then [Candidate(Low, StrengthOf(p.lowEdge, RATE_LOW))] else [])
  {
    list := [];
    if HighEligible(p) {
      list := list + [Candidate(High, StrengthOf(p.highEdge, RATE_HIGH))];
    }
    if LowEligible(p) {
      list := list + [Candidate(Low, StrengthOf(p.lowEdge, RATE_LOW))];
    }
  }

  /** The candidates that survive the gap rail: both, else the stronger one (the high edge on a tie), else none. */
  method Survivors(p: MoveInputs) returns (applied: seq<Candidate>)
    ensures forall e :: e in Chosen(p) <==> HasEdge(applied, e)
    ensures applied == [] || (|applied| == 1 && Chosen(p) == {applied[0].edge})
            || (|applied| == 2 && applied[0].edge.High? && applied[1].edge.Low? && Chosen(p) == {High, Low})
  {
    applied := Candidates(p);
    if applied == [] {
      NoEdges();
      return;
    }
    EdgesOf(applied);
    if !GapAdmissible(FinalPair(p, applied).Gap(), p.rails) && |applied| == 2 {
      var a, b := applied[0].strength, applied[1].strength;
      applied := if b.num * a.den <= a.num * b.den then [applied[0]] else [applied[1]];
      EdgesOf(applied);
    }
    if !GapAdmissible(FinalPair(p, applied).Gap(), p.rails) {
      NoEdges();
      applied := [];
    }
  }

  lemma {:induction false} NoEdges()
    ensures forall e :: !HasEdge([], e)
  {
  }

  lemma {:induction false} EdgesOf(list: seq<Candidate>)
    ensures |list| == 1 ==> forall e :: HasEdge(list, e) <==> e == list[0].edge
    ensures |list| == 2 ==> forall e :: HasEdge(list, e) <==> e == list[0].edge || e == list[1].edge
  {
    forall e
      ensures |list| == 1 ==> (HasEdge(list, e) <==> e == list[0].edge)
      ensures |list| == 2 ==> (HasEdge(list, e) <==> e == list[0].edge || e == list[1].edge)
    {
      if |list| >= 1 && list[0].edge == e {
        assert HasEdge(list, e);
      }
      if |list| == 2 && list[1].edge == e {
        assert HasEdge(list, e);
      }
    }
  }

  method DecideMove(p: MoveInputs) returns (d: Outcome)
    ensures Decides(p, d)
  {
    var applied := Survivors(p);
    if applied == [] {
      assert forall e :: e in Chosen(p) <==> HasEdge(applied, e);
      return Noop;
    }
    var target := FinalPair(p, applied);
    if p.globalBound.Some?
       && (p.globalBound.value.high - target.high > p.cfg.maxDrift || target.low - p.globalBound.value.low > p.cfg.maxDrift) {
      return Noop;
    }
    var cursor := p.eff;
    var events: seq<CalEvent> := [];
    var i := 0;
    while i < |applied|
      invariant 0 <= i == |events| <= |applied|
      invariant cursor == if i == 0 then p.eff else events[i - 1].after
      invariant forall k :: 0 <= k < i ==> OneStep(events[k], p) && events[k].edge == Some(applied[k].edge)
      invariant i >= 1 ==> events[0].before == p.eff
      invariant i == 2 ==> events[0].after == events[1].before
    {
      var next := Stepped(cursor, applied[i].edge, p.cfg.step);
      events := events + [CalEvent(Calibrator, cursor, next, p.base, Some(applied[i].edge))];
      cursor := next;
      i := i + 1;
    }
    d := Move(target, events);
  }

  /** The events of a move, as a function of its inputs. */
  function EventsOf(p: MoveInputs): seq<CalEvent> {
    var h, l := Stepped(p.eff, High, p.cfg.step), Stepped(p.eff, Low, p.cfg.step);
    if High in Chosen(p) && Low in Chosen(p) then
      [CalEvent(Calibrator, p.eff, h, p.base, Some(High)), CalEvent(Calibrator, h, Stepped(h, Low, p.cfg.step), p.base, Some(Low))]
    else if High in Chosen(p) then [CalEvent(Calibrator, p.eff, h, p.base, Some(High))]
    else [CalEvent(Calibrator, p.eff, l, p.base, Some(Low))]
  }

  function Decision(p: MoveInputs): Outcome {
    if Chosen(p) == {} || !WithinGlobal(p, TargetOf(p)) then Noop else Move(TargetOf(p), EventsOf(p))
  }

  /** The contract of a decision leaves nothing open. */
  lemma {:induction false} DecisionUnique(p: MoveInputs, d: Outcome)
    ensures Decides(p, d) <==> d == Decision(p)
  {
    assert High in {High, Low} && Low in {High, Low} && High !in {Low} && Low !in {High};
    if Decides(p, Decision(p)) && d == Decision(p) {
    } else if Decides(p, d) && d.Move? {
      OnlyEvents(p, d);
    } else if d == Decision(p) && d.Move? {
      DecisionDecides(p);
    }
  }

  lemma {:induction false} DecisionDecides(p: MoveInputs)
    ensures Decides(p, Decision(p))
  {
    assert High in {High, Low} && Low in {High, Low} && High !in {Low} && Low !in {High};
    var d := Decision(p);
    if d.Move? {
      forall e
        ensures e in Chosen(p) <==> exists i :: 0 <= i < |d.events| && d.events[i].edge == Some(e)
      {
        if e in Chosen(p) {
          var i := if |d.events| == 2 && e.Low? then 1 else 0;
          assert d.events[i].edge == Some(e);
        }
      }
    }
  }

  lemma {:induction false} OnlyEvents(p: MoveInputs, d: Outcome)
    requires Decides(p, d) && d.Move?
    ensures d.events == EventsOf(p)
  {
    assert High in {High, Low} && Low in {High, Low} && High !in {Low} && Low !in {High};
    assert d.events[0].edge.value in Chosen(p);
  }

  // ---- what the choice means ----

  function AbsReal(x: real): real { if x < 0.0 then -x else x }

  /** |failures / samples - bound|. */
  function Deviation(s: EdgeStats, rate: int): real
    requires s.samples > 0
  {
    AbsReal(s.failures as real / s.samples as real - rate as real / UNIT as real)
  }

  function Quotient(s: Strength): real
    requires s.den > 0
  {
    s.num as real / s.den as real
  }

  lemma {:induction false} AbsOver(x: real, d: real)
    requires d > 0.0
    ensures AbsReal(x) / d == AbsReal(x / d)
  {
    if x < 0.0 {
      assert -x / d == -(x / d);
      assert x / d <= 0.0;
    } else {
      assert x / d >= 0.0;
    }
  }

  lemma {:induction false} Split(f: real, s: real, r: real)
    requires s > 0.0
    ensures (f * 10000.0 - r * s) / (s * 10000.0) == f / s - r / 10000.0
  {
    var q := f / s;
    assert f == q * s;
    assert f * 10000.0 - r * s == (q - r / 10000.0) * (s * 10000.0);
  }

  /** The stored fraction is the exact deviation. */
  lemma {:induction false} StrengthIsDeviation(s: EdgeStats, rate: int)
    requires s.samples > 0
    ensures Quotient(StrengthOf(s, rate)) == Deviation(s, rate)
  {
    var f, n, r := s.failures as real, s.samples as real, rate as real;
    var x := s.failures * UNIT - rate * s.samples;
    assert x as real == f * 10000.0 - r * n;
    assert Abs(x) as real == AbsReal(x as real);
    AbsOver(f * 10000.0 - r * n, n * 10000.0);
    Split(f, n, r);
  }

  lemma {:induction false} CrossMultiplied(a: Strength, b: Strength)
    requires a.den > 0 && b.den > 0
    ensures AtLeast(a, b) <==> Quotient(a) >= Quotient(b)
  {
    var x, y, p, q := a.num as real, b.num as real, a.den as real, b.den as real;
    assert Quotient(a) * p == x && Quotient(b) * q == y;
    assert (y * p <= x * q) <==> (b.num * a.den <= a.num * b.den);
    assert x * q == Quotient(a) * (p * q) && y * p == Quotient(b) * (p * q);
  }

  function Rate(s: EdgeStats): real
    requires s.samples > 0
  {
    s.failures as real / s.samples as real
  }

  /** An edge earns a step: enough samples, a failure rate of at least 0.65 at the high edge or at most 0.15 at the low
      one, a step that stays within the drift cap of the anchor, and no cooldown. */
  predicate Earns(p: MoveInputs, e: Edge)
    requires p.cfg.minEdgeSamples > 0
  {
    match e
    case High =>
      && p.highEdge.samples >= p.cfg.minEdgeSamples && Rate(p.highEdge) >= 0.65
      && p.anchor.high - (p.eff.high - p.cfg.step) <= p.cfg.maxDrift && p.cfg.step > 0 && !p.coolHigh
    case Low =>
      && p.lowEdge.samples >= p.cfg.minEdgeSamples && Rate(p.lowEdge) <= 0.15
      && (p.eff.low + p.cfg.step) - p.anchor.low <= p.cfg.maxDrift && p.cfg.step > 0 && !p.coolLow
  }

  lemma {:induction false} RateIff(s: EdgeStats, bound: int)
    requires s.samples > 0
    ensures s.failures * 10000 >= bound * s.samples <==> Rate(s) >= bound as real / 10000.0
    ensures s.failures * 10000 <= bound * s.samples <==> Rate(s) <= bound as real / 10000.0
  {
    var f, n, b, q := s.failures as real, s.samples as real, bound as real / 10000.0, Rate(s);
    assert q * n == f;
    assert (s.failures * 10000) as real == f * 10000.0 && (bound * s.samples) as real == b * n * 10000.0;
    Compared(q, b, n);
  }

  lemma {:induction false} Compared(x: real, y: real, n: real)
    requires n > 0.0
    ensures x >= y <==> x * n >= y * n
    ensures x <= y <==> x * n <= y * n
  {
    assert (x - y) * n == x * n - y * n;
    if x > y {
      assert (x - y) * n > 0.0;
    } else if x < y {
      assert (y - x) * n > 0.0;
    }
  }

  /** The integer tests of the two edges are those quotients. */
  lemma {:induction false} EligibleIff(p: MoveInputs)
    requires p.cfg.minEdgeSamples > 0
    ensures HighEligible(p) <==> Earns(p, High)
    ensures LowEligible(p) <==> Earns(p, Low)
  {
    if p.highEdge.samples > 0 {
      RateIff(p.highEdge, 6500);
    }
    if p.lowEdge.samples > 0 {
      RateIff(p.lowEdge, 1500);
    }
  }

  /** A gap two edge zones of 500 leave open, and no narrower than the rail. */
  predicate Leaves(gap: int, rails: Rails) { gap >= rails.minGap && gap > 1000 }

  /** How far the rate is past its bound: 0.65 at the high edge, 0.15 at the low one. */
  function Beyond(p: MoveInputs, e: Edge): real
    requires if e.High? then p.highEdge.samples > 0 else p.lowEdge.samples > 0
  {
    if e.High? then AbsReal(Rate(p.highEdge) - 0.65) else AbsReal(Rate(p.lowEdge) - 0.15)
  }

  /** Both edges move exactly when both earn it and the joint gap is left open; else the one further past its bound (the
      high edge on a tie) moves, exactly when the one-step gap is; nothing moves only if no edge earns it or no one-step gap
      is left open. */
  lemma {:induction false} ChoiceIs(p: MoveInputs)
    requires p.cfg.minEdgeSamples > 0
    ensures Chosen(p) == {High, Low} <==> Earns(p, High) && Earns(p, Low) && Leaves(p.eff.high - p.eff.low - 2 * p.cfg.step, p.rails)
    ensures Chosen(p) == {} <==> (!Earns(p, High) && !Earns(p, Low)) || !Leaves(p.eff.high - p.eff.low - p.cfg.step, p.rails)
    ensures Chosen(p) == {High} || Chosen(p) == {Low} ==> forall e :: e in Chosen(p) ==> Earns(p, e)
    ensures (Chosen(p) == {High} || Chosen(p) == {Low}) && Earns(p, High) && Earns(p, Low)
            ==> (Chosen(p) == {High} <==> Beyond(p, High) >= Beyond(p, Low))
  {
    assert High in {High, Low} && Low in {High, Low} && High !in {Low} && Low !in {High};
    EligibleIff(p);
    if HighEligible(p) && LowEligible(p) {
      StrengthIsDeviation(p.highEdge, RATE_HIGH);
      StrengthIsDeviation(p.lowEdge, RATE_LOW);
      CrossMultiplied(StrengthOf(p.highEdge, RATE_HIGH), StrengthOf(p.lowEdge, RATE_LOW));
    }
  }

  /** What a decision is, for any inputs: nothing, exactly if no edge is chosen or the target would leave the global
      bound's drift cap; else the chosen edges moved by one step each, inwards. */
  lemma {:induction false} DecisionIs(p: MoveInputs, d: Outcome)
    requires Decides(p, d)
    ensures var high := if High in Chosen(p) then p.eff.high - p.cfg.step else p.eff.high;
            var low := if Low in Chosen(p) then p.eff.low + p.cfg.step else p.eff.low;
            var outside := p.globalBound.Some? && (p.globalBound.value.high - high > p.cfg.maxDrift || low - p.globalBound.value.low > p.cfg.maxDrift);
            && (d.Noop? <==> Chosen(p) == {} || outside)
            && (d.Move? ==> d.target == Pair(high, low))
  {
  }

  // ---- when a stored pair applies ----

  /** A stored pair is usable on top of a base exactly if it is an ordered pair on the scale, was derived from that very
      base, only contracts it, by at most the drift cap at either end, and leaves its gap open; and then it is what decides. */
  lemma {:induction false} AppliesIff(base: Pair, q: Quad, rails: Rails)
    ensures ApplyPair(base, Some(q), rails).Some?
            <==> && 0 <= q.pair.low < q.pair.high <= 10000 && q.anchor == base
                 && base.low <= q.pair.low && q.pair.high <= base.high
                 && base.high - q.pair.high <= rails.maxDrift && q.pair.low - base.low <= rails.maxDrift
                 && Leaves(q.pair.high - q.pair.low, rails)
    ensures ApplyPair(base, Some(q), rails).Some? ==> ApplyPair(base, Some(q), rails).value == q.pair
    ensures Effective(base, Some(q), rails) == (if ApplyPair(base, Some(q), rails).Some? then q.pair else base)
    ensures Effective(base, None, rails) == base
  {
  }

  /** A pair is stale exactly if it does not apply, and is not the base itself; a scope is halted exactly if the gap of
      the instance or its own is not left open. */
  lemma {:induction false} StaleHaltedIff(instance: Pair, base: Pair, q: Quad, rails: Rails)
    ensures IsStale(base, Some(q), rails) <==> ApplyPair(base, Some(q), rails).None? && q.pair != base
    ensures !IsStale(base, None, rails)
    ensures Halted(instance, base, rails) <==> !Leaves(instance.high - instance.low, rails) || !Leaves(base.high - base.low, rails)
  {
  }

  // ---- what a move keeps ----

  /** A pair inside its anchor, within the drift cap, on the scale. */
  predicate Contracts(p: Pair, base: Pair, maxDrift: int) {
    base.low <= p.low < p.high <= base.high && base.high - p.high <= maxDrift && p.low - base.low <= maxDrift
  }

  predicate OnScale(p: Pair) { 0 <= p.low < p.high <= UNIT }

  /** A move from a usable pair leaves a usable one: on top of the same base it applies as it stands, so it is neither
      stale nor does it halt its own scope; and a global bound it was given holds of it. */
  lemma {:induction false} MoveKeeps(p: MoveInputs, d: Outcome)
    requires Decides(p, d) && d.Move? && p.rails == RailsOf(p.cfg) && p.anchor == p.base && OnScale(p.base)
    requires Contracts(p.eff, p.base, p.cfg.maxDrift)
    ensures Contracts(d.target, p.base, p.cfg.maxDrift) && GapAdmissible(d.target.Gap(), p.rails)
    ensures ApplyPair(p.base, Some(Quad(d.target, p.base)), p.rails) == Some(d.target)
    ensures !IsStale(p.base, Some(Quad(d.target, p.base)), p.rails)
    ensures GapAdmissible(p.base.Gap(), p.rails) ==> !Halted(p.base, d.target, p.rails)
    ensures p.globalBound.Some? ==> p.globalBound.value.high - d.target.high <= p.cfg.maxDrift && d.target.low - p.globalBound.value.low <= p.cfg.maxDrift
  {
    assert High in {High, Low} && Low in {High, Low} && High !in {Low} && Low !in {High};
  }
}
