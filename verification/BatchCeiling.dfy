/** The reserved ceiling of a batch, and what settling it can cost at most. */
module BatchCeiling {
  import opened Options
  import opened ItemTotals
  import opened Rounding
  import opened BatchSettlement

  /** A JSON number used as an output cap. */
  datatype Cap = NotFinite | Tokens(n: int)

  datatype CeilingItem = CeilingItem(customId: CustomId, chars: int, maxOutput: Option<Cap>)

  datatype BatchRate = BatchRate(input: Price, output: Price)

  datatype Reason = UnknownRate | NoOutputCap

  datatype Ceiling = Bounded(micros: nat, estimatedInputTokens: nat) | Unbounded(reason: Reason, estimatedInputTokens: nat)

  /** Four characters a token, rounded up; nonsensical lengths count as zero. */
  function EstimateInputTokens(chars: int): (tokens: nat)
    ensures chars <= 4 * tokens && (tokens > 0 ==> 4 * (tokens - 1) < chars)
  {
    ((if chars < 0 then 0 else chars) + 3) / 4
  }

  /** An item's own cap, else the model's; `None` when there is none to rely on. */
  function CapOf(i: CeilingItem, catalog: Option<Cap>): Option<nat> {
    var cap := if i.maxOutput.Some? then i.maxOutput else catalog;
    if cap.None? || cap.value.NotFinite? || cap.value.n <= 0 then None else Some(cap.value.n)
  }

  /** An item is capped by its own maximum where it has one, else by the catalogue's; either counts only if it is finite and
      positive. */
  lemma {:induction false} CapIs(i: CeilingItem, catalog: Option<Cap>, n: nat)
    ensures CapOf(i, catalog) == Some(n)
            <==> n > 0 && ((i.maxOutput == Some(Tokens(n))) || (i.maxOutput.None? && catalog == Some(Tokens(n))))
  {
  }

  function SumEstimates(items: seq<CeilingItem>): nat {
    if items == [] then 0 else SumEstimates(items[..|items| - 1]) + EstimateInputTokens(items[|items| - 1].chars)
  }

  function SumCaps(items: seq<CeilingItem>, catalog: Option<Cap>): nat {
    if items == [] then 0 else SumCaps(items[..|items| - 1], catalog) + CapOf(items[|items| - 1], catalog).GetOr(0)
  }

  predicate Uncapped(items: seq<CeilingItem>, catalog: Option<Cap>) {
    exists i :: 0 <= i < |items| && CapOf(items[i], catalog).None?
  }

  function Bound(input: nat, output: nat, rate: BatchRate): real { input as real * rate.input + output as real * rate.output }

  /** Which ceiling a submission gets: an unknown rate is reported before a missing cap, and a bounded one is the
      least whole number of micro-dollars that covers every estimate and every cap. */
  ghost predicate IsCeiling(c: Ceiling, items: seq<CeilingItem>, rate: Option<BatchRate>, catalog: Option<Cap>) {
    && c.estimatedInputTokens == SumEstimates(items)
    && (rate.None? <==> c.Unbounded? && c.reason.UnknownRate?)
    && (rate.Some? && Uncapped(items, catalog) <==> c.Unbounded? && c.reason.NoOutputCap?)
    && (c.Bounded? ==>
          c.micros as real - 1.0 < Bound(SumEstimates(items), SumCaps(items, catalog), rate.value) <= c.micros as real)
  }

  method ComputeCeiling(items: seq<CeilingItem>, rate: Option<BatchRate>, catalog: Option<Cap>) returns (c: Ceiling)
    ensures IsCeiling(c, items, rate, catalog)
  {
    var inputTokens, outputTokens, uncapped := 0, 0, false;
    var n := 0;
    while n < |items|
      invariant 0 <= n <= |items|
      invariant inputTokens == SumEstimates(items[..n])
      invariant outputTokens == SumCaps(items[..n], catalog)
      invariant uncapped <==> exists i :: 0 <= i < n && CapOf(items[i], catalog).None?
    {
      assert items[..n + 1][..n] == items[..n];
      inputTokens := inputTokens + EstimateInputTokens(items[n].chars);
      var cap := CapOf(items[n], catalog);
      if cap.None? {
        uncapped := true;
      } else {
        outputTokens := outputTokens + cap.value;
      }
      n := n + 1;
    }
    assert items[..n] == items;
    if rate.None? {
      return Unbounded(UnknownRate, inputTokens);
    }
    if uncapped {
      return Unbounded(NoOutputCap, inputTokens);
    }
    return Bounded(WholeMicros(inputTokens, outputTokens, rate.value), inputTokens);
  }

  /** USD per million tokens times tokens is micro-dollars; rounded up. */
  function WholeMicros(input: nat, output: nat, rate: BatchRate): (micros: nat)
    ensures micros as real - 1.0 < Bound(input, output, rate) <= micros as real
  {
    WorthNonNegative(input, rate.input);
    WorthNonNegative(output, rate.output);
    CeilBounds(Bound(input, output, rate));
    Ceil(Bound(input, output, rate))
  }

  lemma {:induction false} WorthNonNegative(n: nat, p: Price)
    ensures n as real * p >= 0.0
  {
  }

  // ---- what settling costs ----

  predicate DistinctIds(items: seq<CeilingItem>) {
    forall a, b :: 0 <= a < b < |items| ==> items[a].customId != items[b].customId
  }

  // What an item is charged for is read off the stream: the first outcome that names it.

  function FirstOf(stream: seq<Outcome>, c: CustomId): Option<Outcome> {
    if stream == [] then None
    else
      var first, last := FirstOf(stream[..|stream| - 1], c), stream[|stream| - 1];
      if first.Some? || last.customId != c then first else Some(last)
  }

  lemma {:induction false} FirstOfIs(job: BatchJob, stream: seq<Outcome>, c: CustomId)
    ensures FirstOf(stream, c).Some? <==> c in FirstRows(job, stream)
    ensures FirstOf(stream, c).Some? ==> FirstRows(job, stream)[c] == RowFor(job, FirstOf(stream, c).value)
  {
    if stream != [] {
      FirstOfIs(job, stream[..|stream| - 1], c);
    }
  }

  lemma {:induction false} FirstOfAt(stream: seq<Outcome>, i: nat)
    requires IsFirst(stream, i)
    ensures FirstOf(stream, stream[i].customId) == Some(stream[i])
  {
    var front := stream[..|stream| - 1];
    if i < |front| {
      assert IsFirst(front, i) && front[i] == stream[i];
      FirstOfAt(front, i);
    } else {
      NotYet(front, stream[i].customId);
    }
  }

  lemma {:induction false} NotYet(stream: seq<Outcome>, c: CustomId)
    requires forall k :: 0 <= k < |stream| ==> stream[k].customId != c
    ensures FirstOf(stream, c).None?
  {
    if stream != [] {
      NotYet(stream[..|stream| - 1], c);
    }
  }

  /** The tokens an outcome is charged for at the batch rates, and what its cached tokens are worth at theirs. */
  datatype Charged = Charged(input: nat, output: nat, cached: real)

  const NOTHING := Charged(0, 0, 0.0)

  /** Reported usage is charged as reported, and not at all where its cached tokens have no rate; any other outcome is
      charged the even share. */
  function ChargeOf(job: BatchJob, o: Outcome): (ch: Charged)
    ensures ch.cached >= 0.0
  {
    if !(o.Success? && o.usage.Some?) then Charged(PerItemInput(job), 0, 0.0)
    else
      var u := o.usage.value;
      if Free(job) then Charged(u.input, u.output, 0.0)
      else if Unrated(job, u) then NOTHING
      else Charged(u.input, u.output, CachedWorth(job, u.cacheRead.GetOr(0), u.cacheWrite.GetOr(0)))
  }

  function CachedWorth(job: BatchJob, read: nat, write: nat): (worth: real)
    ensures worth >= 0.0
  {
    WorthNonNegative(read, job.cacheReadPrice.GetOr(0.0));
    WorthNonNegative(write, job.cacheWritePrice.GetOr(0.0));
    At(read, job.cacheReadPrice.GetOr(0.0)) + At(write, job.cacheWritePrice.GetOr(0.0))
  }

  function ItemCharge(job: BatchJob, stream: seq<Outcome>, c: CustomId): Charged {
    if FirstOf(stream, c).Some? then ChargeOf(job, FirstOf(stream, c).value) else NOTHING
  }

  /** The input and output tokens charged for a batch, and the worth of its cached ones. */
  function Billed(items: seq<CeilingItem>, job: BatchJob, stream: seq<Outcome>): nat {
    if items == [] then 0 else Billed(items[..|items| - 1], job, stream) + ItemCharge(job, stream, items[|items| - 1].customId).input
  }

  function Produced(items: seq<CeilingItem>, job: BatchJob, stream: seq<Outcome>): nat {
    if items == [] then 0 else Produced(items[..|items| - 1], job, stream) + ItemCharge(job, stream, items[|items| - 1].customId).output
  }

  function Cached(items: seq<CeilingItem>, job: BatchJob, stream: seq<Outcome>): real {
    if items == [] then 0.0 else Cached(items[..|items| - 1], job, stream) + ItemCharge(job, stream, items[|items| - 1].customId).cached
  }

  predicate Near(cost: nat, worth: real, slack: real) { worth - slack <= cost as real <= worth + slack }

  function WorthOf(ch: Charged, rate: BatchRate): real { Bound(ch.input, ch.output, rate) + ch.cached }

  function RateOf(s: Snapshot): BatchRate { BatchRate(s.input, s.output) }

  /** One row costs what its outcome is charged for, to the nearest micro-dollar. */
  lemma {:induction false} RowCost(job: BatchJob, o: Outcome)
    requires SnapshotOf(job).Some?
    ensures Near(Micros(RowFor(job, o).cost), WorthOf(ChargeOf(job, o), RateOf(SnapshotOf(job).value)), 0.5)
  {
    var r, rate := RowFor(job, o), RateOf(SnapshotOf(job).value);
    Priced(job, r.usage);
    if r.cost.Some? {
      RoundNearest(r.cost.value * 1000000.0);
      if Free(job) {
        NothingAtNoRate(r.usage.input, r.usage.output);
      } else if !(o.Success? && o.usage.Some?) {
        NothingCached(job);
      }
    } else {
      NothingAtNoRate(0, 0);
      assert Bound(0, 0, rate) == 0.0;
    }
  }

  lemma {:induction false} NothingAtNoRate(input: nat, output: nat)
    ensures Bound(input, output, BatchRate(0.0, 0.0)) == 0.0
  {
  }

  lemma {:induction false} NothingCached(job: BatchJob)
    ensures At(0, job.cacheReadPrice.GetOr(0.0)) == 0.0 && At(0, job.cacheWritePrice.GetOr(0.0)) == 0.0
  {
  }

  lemma {:induction false} MoreOutput(out: nat, cap: nat, p: Price)
    requires out <= cap
    ensures out as real * p <= cap as real * p
  {
  }

  predicate Known(m: map<CustomId, LedgerRow>, items: seq<CeilingItem>) {
    forall c :: c in m ==> exists i :: 0 <= i < |items| && items[i].customId == c
  }

  /** The worth of the items that have a row. */
  function Worth(items: seq<CeilingItem>, m: map<CustomId, LedgerRow>, w: CustomId -> real): real {
    if items == [] then 0.0
    else
      var c := items[|items| - 1].customId;
      Worth(items[..|items| - 1], m, w) + (if c in m then w(c) else 0.0)
  }

  lemma {:induction false} SameWorth(items: seq<CeilingItem>, m: map<CustomId, LedgerRow>, n: map<CustomId, LedgerRow>, w: CustomId -> real)
    requires forall i :: 0 <= i < |items| ==> (items[i].customId in m <==> items[i].customId in n)
    ensures Worth(items, m, w) == Worth(items, n, w)
  {
    if items != [] {
      SameWorth(items[..|items| - 1], m, n, w);
    }
  }

  lemma {:induction false} LastTotals(m: map<CustomId, LedgerRow>, c: CustomId)
    requires c in m
    ensures TotalsOf(Summaries(m)).cost == TotalsOf(Summaries(m - {c})).cost + Micros(m[c].cost) && |m| == |m - {c}| + 1
  {
    assert Summaries(m - {c}) == Summaries(m) - {c};
    TotalsWithout(Summaries(m), c);
    assert m == (m - {c})[c := m[c]];
  }

  /** Every row costs what its item is worth, to the nearest micro-dollar. */
  ghost predicate AllFair(m: map<CustomId, LedgerRow>, w: CustomId -> real) { forall c :: c in m ==> Near(Micros(m[c].cost), w(c), 0.5) }

  function Half(n: nat): real { n as real / 2.0 }

  lemma {:induction false} HalfStep(n: nat)
    ensures Half(n + 1) == Half(n) + 0.5
  {
  }

  /** The rows cost the items' worth, give or take half a micro-dollar each. */
  ghost predicate Covered(items: seq<CeilingItem>, m: map<CustomId, LedgerRow>, w: CustomId -> real) {
    Near(TotalsOf(Summaries(m)).cost, Worth(items, m, w), Half(|m|))
  }

  lemma {:induction false} WithoutLast(items: seq<CeilingItem>, m: map<CustomId, LedgerRow>, w: CustomId -> real)
    requires items != [] && DistinctIds(items) && Known(m, items) && AllFair(m, w)
    ensures var front, rest := items[..|items| - 1], m - {items[|items| - 1].customId};
            DistinctIds(front) && Known(rest, front) && AllFair(rest, w) && Worth(front, rest, w) == Worth(front, m, w)
  {
    var front, last := items[..|items| - 1], items[|items| - 1];
    assert forall i :: 0 <= i < |front| ==> front[i] == items[i] && items[i].customId != last.customId;
    SameWorth(front, m, m - {last.customId}, w);
  }

  lemma {:induction false} LastPresent(items: seq<CeilingItem>, m: map<CustomId, LedgerRow>, rest: map<CustomId, LedgerRow>, w: CustomId -> real)
    requires items != [] && items[|items| - 1].customId in m && rest == m - {items[|items| - 1].customId}
    requires AllFair(m, w) && Covered(items[..|items| - 1], rest, w) && Worth(items[..|items| - 1], rest, w) == Worth(items[..|items| - 1], m, w)
    ensures Covered(items, m, w)
  {
    LastTotals(m, items[|items| - 1].customId);
    HalfStep(|rest|);
  }

  lemma {:induction false} NoneKnown(m: map<CustomId, LedgerRow>, w: CustomId -> real)
    requires Known(m, [])
    ensures Covered([], m, w)
  {
    assert m == map[] && Summaries(m) == map[];
  }

  lemma {:induction false} LastAbsent(items: seq<CeilingItem>, m: map<CustomId, LedgerRow>, w: CustomId -> real)
    requires items != [] && items[|items| - 1].customId !in m && Covered(items[..|items| - 1], m, w)
    ensures Covered(items, m, w)
  {
  }

  lemma {:induction false} FairCovers(items: seq<CeilingItem>, m: map<CustomId, LedgerRow>, w: CustomId -> real)
    requires DistinctIds(items) && Known(m, items) && AllFair(m, w)
    ensures Covered(items, m, w)
    decreases |items|
  {
    if items == [] {
      NoneKnown(m, w);
    } else {
      var front, c := items[..|items| - 1], items[|items| - 1].customId;
      WithoutLast(items, m, w);
      FairCovers(front, m - {c}, w);
      if c in m {
        LastPresent(items, m, m - {c}, w);
      } else {
        assert m - {c} == m;
        LastAbsent(items, m, w);
      }
    }
  }

  lemma {:induction false} BoundPlus(i: nat, o: nat, i2: nat, o2: nat, rate: BatchRate)
    ensures Bound(i + i2, o + o2, rate) == Bound(i, o, rate) + Bound(i2, o2, rate)
  {
  }

  /** The items' worth is the worth of all tokens charged. */
  lemma {:induction false} WorthIs(items: seq<CeilingItem>, job: BatchJob, stream: seq<Outcome>, rate: BatchRate, w: CustomId -> real)
    requires forall c :: w(c) == WorthOf(ItemCharge(job, stream, c), rate)
    ensures Worth(items, FirstRows(job, stream), w) == WorthOf(Charged(Billed(items, job, stream), Produced(items, job, stream), Cached(items, job, stream)), rate)
  {
    if items != [] {
      var front, c := items[..|items| - 1], items[|items| - 1].customId;
      var ch := ItemCharge(job, stream, c);
      WorthIs(front, job, stream, rate, w);
      BoundPlus(Billed(front, job, stream), Produced(front, job, stream), ch.input, ch.output, rate);
      FirstOfIs(job, stream, c);
      assert c !in FirstRows(job, stream) ==> WorthOf(ch, rate) == 0.0;
    } else {
      assert Bound(0, 0, rate) == 0.0;
    }
  }

  // ---- settled against reserved ----

  /** The job was created for these items, and its results are theirs. */
  ghost predicate Prices(job: BatchJob, items: seq<CeilingItem>, stream: seq<Outcome>) {
    && SnapshotOf(job).Some? && DistinctIds(items)
    && job.itemCount == |items| && job.estimatedInputTokens == SumEstimates(items)
    && Known(FirstRows(job, stream), items)
  }

  /** Besides, no item outran its output cap. */
  ghost predicate Settles(job: BatchJob, items: seq<CeilingItem>, stream: seq<Outcome>, catalog: Option<Cap>) {
    && Prices(job, items, stream)
    && (forall i :: 0 <= i < |items| ==> ItemCharge(job, stream, items[i].customId).output <= CapOf(items[i], catalog).GetOr(0))
  }

  ghost function SettledCost(job: BatchJob, stream: seq<Outcome>): nat { TotalsOf(Summaries(FirstRows(job, stream))).cost }

  /** What the tokens of each item's first outcome are worth: at the batch rates, and the cached ones at theirs. */
  function SettledWorth(job: BatchJob, items: seq<CeilingItem>, stream: seq<Outcome>): real
    requires SnapshotOf(job).Some?
  {
    Bound(Billed(items, job, stream), Produced(items, job, stream), RateOf(SnapshotOf(job).value)) + Cached(items, job, stream)
  }

  /** What the ceiling was computed for: every estimate and every cap. */
  function ReservedWorth(job: BatchJob, items: seq<CeilingItem>, catalog: Option<Cap>): real
    requires SnapshotOf(job).Some?
  {
    Bound(SumEstimates(items), SumCaps(items, catalog), RateOf(SnapshotOf(job).value))
  }

  /** The settled cost is what the tokens of each item's first outcome are worth, give or take half a micro-dollar per
      settled item. */
  lemma {:induction false} SettledNear(job: BatchJob, items: seq<CeilingItem>, stream: seq<Outcome>)
    requires Prices(job, items, stream)
    ensures Near(SettledCost(job, stream), SettledWorth(job, items, stream), Half(|FirstRows(job, stream)|))
  {
    var m, rate := FirstRows(job, stream), RateOf(SnapshotOf(job).value);
    var w := c => WorthOf(ItemCharge(job, stream, c), rate);
    forall c | c in m
      ensures Near(Micros(m[c].cost), w(c), 0.5)
    {
      FirstOfIs(job, stream, c);
      RowCost(job, FirstOf(stream, c).value);
    }
    FairCovers(items, m, w);
    WorthIs(items, job, stream, rate, w);
  }

  /** When a batch settles above its ceiling by more than rounding. It does so only if the charged tokens are worth more
      than the estimates and caps the ceiling was computed for, and it does once they are worth more than the ceiling
      and the rounding of both sides - whatever outran: the input of an item without usage, the output of one that ignored
      its cap, or cached tokens, which no ceiling covers. */
  lemma {:induction false} OverCeilingWhen(job: BatchJob, items: seq<CeilingItem>, stream: seq<Outcome>, catalog: Option<Cap>, c: Ceiling)
    requires Prices(job, items, stream)
    requires c.Bounded? && IsCeiling(c, items, Some(RateOf(SnapshotOf(job).value)), catalog)
    ensures var cost, half := SettledCost(job, stream) as real, Half(|FirstRows(job, stream)|);
            && (cost > c.micros as real + half ==> SettledWorth(job, items, stream) > ReservedWorth(job, items, catalog))
            && (SettledWorth(job, items, stream) >= ReservedWorth(job, items, catalog) + 1.0 + 2.0 * half ==> cost > c.micros as real + half)
  {
    SettledNear(job, items, stream);
  }

  lemma {:induction false} ProducedWithin(items: seq<CeilingItem>, job: BatchJob, stream: seq<Outcome>, catalog: Option<Cap>)
    requires forall i :: 0 <= i < |items| ==> ItemCharge(job, stream, items[i].customId).output <= CapOf(items[i], catalog).GetOr(0)
    ensures Produced(items, job, stream) <= SumCaps(items, catalog)
  {
    if items != [] {
      ProducedWithin(items[..|items| - 1], job, stream, catalog);
    }
  }

  lemma {:induction false} MoreTokens(a: nat, b: nat, out: nat, caps: nat, rate: BatchRate)
    requires a <= b && out <= caps
    ensures Bound(a, out, rate) <= Bound(b, caps, rate)
  {
    MoreOutput(a, b, rate.input);
    MoreOutput(out, caps, rate.output);
  }

  /** The settled cost of the rows exceeds the ceiling by at most the worth of `over` input tokens, of the cached tokens,
      and rounding. */
  ghost predicate Exceeds(cost: nat, c: Ceiling, over: nat, cached: real, rate: BatchRate, rows: nat)
    requires c.Bounded?
  {
    cost as real <= c.micros as real + Bound(over, 0, rate) + cached + Half(rows)
  }

  /** In general the settled cost exceeds the ceiling by no more than the input charged beyond the estimate, at the batch
      rate, the cached tokens at theirs, and half a micro-dollar per settled item. */
  lemma {:induction false} SettledExcess(job: BatchJob, items: seq<CeilingItem>, stream: seq<Outcome>, catalog: Option<Cap>, c: Ceiling, over: nat)
    requires Settles(job, items, stream, catalog)
    requires c.Bounded? && IsCeiling(c, items, Some(RateOf(SnapshotOf(job).value)), catalog)
    requires Billed(items, job, stream) <= SumEstimates(items) + over
    ensures Exceeds(SettledCost(job, stream), c, over, Cached(items, job, stream), RateOf(SnapshotOf(job).value), |FirstRows(job, stream)|)
  {
    var rate, caps := RateOf(SnapshotOf(job).value), SumCaps(items, catalog);
    SettledNear(job, items, stream);
    ProducedWithin(items, job, stream, catalog);
    MoreTokens(Billed(items, job, stream), SumEstimates(items) + over, Produced(items, job, stream), caps, rate);
    BoundPlus(SumEstimates(items), caps, over, 0, rate);
  }

  lemma {:induction false} BilledWithin(items: seq<CeilingItem>, job: BatchJob, stream: seq<Outcome>)
    requires forall i :: 0 <= i < |items| ==> ItemCharge(job, stream, items[i].customId).input <= EstimateInputTokens(items[i].chars)
    ensures Billed(items, job, stream) <= SumEstimates(items)
  {
    if items != [] {
      BilledWithin(items[..|items| - 1], job, stream);
    }
  }

  /** When no item is charged more input than its estimate, only cached tokens and rounding can exceed the ceiling. */
  lemma {:induction false} SettledWithinCeiling(job: BatchJob, items: seq<CeilingItem>, stream: seq<Outcome>, catalog: Option<Cap>, c: Ceiling)
    requires Settles(job, items, stream, catalog)
    requires c.Bounded? && IsCeiling(c, items, Some(RateOf(SnapshotOf(job).value)), catalog)
    requires forall i :: 0 <= i < |items| ==> ItemCharge(job, stream, items[i].customId).input <= EstimateInputTokens(items[i].chars)
    ensures Exceeds(SettledCost(job, stream), c, 0, Cached(items, job, stream), RateOf(SnapshotOf(job).value), |FirstRows(job, stream)|)
  {
    BilledWithin(items, job, stream);
    SettledExcess(job, items, stream, catalog, c, 0);
  }

  lemma {:induction false} EvenCharge(job: BatchJob, stream: seq<Outcome>, c: CustomId)
    requires forall i :: 0 <= i < |stream| ==> !Reported(stream[i])
    ensures ItemCharge(job, stream, c).input <= PerItemInput(job) && ItemCharge(job, stream, c).cached == 0.0
  {
    FirstIn(stream, c);
  }

  lemma {:induction false} FirstIn(stream: seq<Outcome>, c: CustomId)
    ensures FirstOf(stream, c).Some? ==> exists i :: 0 <= i < |stream| && stream[i] == FirstOf(stream, c).value
  {
    if stream != [] {
      var front := stream[..|stream| - 1];
      FirstIn(front, c);
      assert forall i :: 0 <= i < |front| ==> front[i] == stream[i];
      assert FirstOf(stream, c) == FirstOf(front, c) || FirstOf(stream, c) == Some(stream[|front|]);
    }
  }

  lemma {:induction false} EvenBilled(items: seq<CeilingItem>, job: BatchJob, stream: seq<Outcome>)
    requires forall i :: 0 <= i < |stream| ==> !Reported(stream[i])
    ensures Billed(items, job, stream) <= |items| * PerItemInput(job) && Cached(items, job, stream) == 0.0
  {
    if items != [] {
      EvenBilled(items[..|items| - 1], job, stream);
      EvenCharge(job, stream, items[|items| - 1].customId);
      assert |items| * PerItemInput(job) == (|items| - 1) * PerItemInput(job) + PerItemInput(job);
    }
  }

  lemma {:induction false} ShareOver(job: BatchJob)
    requires job.itemCount > 0
    ensures job.itemCount * PerItemInput(job) <= job.estimatedInputTokens + job.itemCount - 1
  {
  }

  /** When no item reports usage, the even split of the estimate adds at most one token per item but one. */
  lemma {:induction false} UnreportedWithinCeiling(job: BatchJob, items: seq<CeilingItem>, stream: seq<Outcome>, catalog: Option<Cap>, c: Ceiling)
    requires Settles(job, items, stream, catalog) && items != []
    requires c.Bounded? && IsCeiling(c, items, Some(RateOf(SnapshotOf(job).value)), catalog)
    requires forall i :: 0 <= i < |stream| ==> !Reported(stream[i])
    ensures Exceeds(SettledCost(job, stream), c, |items| - 1, 0.0, RateOf(SnapshotOf(job).value), |FirstRows(job, stream)|)
  {
    EvenBilled(items, job, stream);
    ShareOver(job);
    SettledExcess(job, items, stream, catalog, c, |items| - 1);
  }

  // ---- a mixed batch can exceed its ceiling ----

  const SMALL := CeilingItem("a", 4, Some(Tokens(1)))
  const LARGE := CeilingItem("b", 400000, Some(Tokens(1)))
  const MIXED_JOB := BatchJob("job", 2, 100001, Some(1.0), Some(0.0), None, None)
  const MIXED: seq<Outcome> := [Success("a", None), Success("b", Some(Usage(100000, 1, None, None, false)))]

  lemma {:induction false} MixedRows()
    ensures FirstRows(MIXED_JOB, MIXED)
            == map["a" := RowFor(MIXED_JOB, MIXED[0]), "b" := RowFor(MIXED_JOB, MIXED[1])]
  {
    var one := MIXED[..1];
    assert |MIXED| == 2 && |one| == 1 && one[..0] == [] && FirstRows(MIXED_JOB, one[..0]) == map[];
    assert FirstRows(MIXED_JOB, one) == map["a" := RowFor(MIXED_JOB, MIXED[0])];
    assert "a"[0] != "b"[0];
    assert MIXED[..|MIXED| - 1] == one;
  }

  lemma {:induction false} MixedCosts()
    ensures PerItemInput(MIXED_JOB) == 50001
    ensures Micros(RowFor(MIXED_JOB, MIXED[0]).cost) == 50001 && Micros(RowFor(MIXED_JOB, MIXED[1]).cost) == 100000
  {
    assert PerItemInput(MIXED_JOB) == 50001;
  }

  lemma {:induction false} MixedCost()
    ensures SettledCost(MIXED_JOB, MIXED) == 150001
  {
    MixedRows();
    MixedCosts();
    var m := FirstRows(MIXED_JOB, MIXED);
    assert "a"[0] != "b"[0];
    LastTotals(m, "b");
    LastTotals(m - {"b"}, "a");
    assert Summaries(m - {"b"} - {"a"}) == map[];
  }

  /** An item without usage is billed the even share even when its own estimate is far smaller: with one such item
      beside a large one that uses exactly its estimate, 150001 micro-dollars settle against a ceiling of 100001. */
  lemma {:induction false} MixedExceedsCeiling(c: Ceiling)
    requires IsCeiling(c, [SMALL, LARGE], Some(RateOf(SnapshotOf(MIXED_JOB).value)), None)
    ensures c == Bounded(100001, 100001) && SettledCost(MIXED_JOB, MIXED) == 150001
  {
    var items := [SMALL, LARGE];
    assert items[..1] == [SMALL] && [SMALL][..0] == [];
    assert SumEstimates([SMALL]) == 1 && SumEstimates(items) == SumEstimates(items[..1]) + EstimateInputTokens(400000);
    assert SumCaps([SMALL], None) == 1 && SumCaps(items, None) == 2;
    assert Bound(100001, 2, RateOf(SnapshotOf(MIXED_JOB).value)) == 100001.0;
    assert !Uncapped(items, None);
    assert EstimateInputTokens(400000) == 100000 && c.estimatedInputTokens == 100001;
    assert c.Bounded?;
    assert c.micros as real - 1.0 < 100001.0 <= c.micros as real;
    MixedCost();
  }
}
