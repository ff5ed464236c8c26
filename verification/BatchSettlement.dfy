/** Durable, chunked settlement: every distinct result item becomes one ledger row, whatever the chunking,
    the crashes and the replays. */
module BatchSettlement {
  import opened Options
  import opened ItemTotals
  import opened Rounding
  import BatchProtocol

  /** Rows per insert. Every contract below holds for any size. */
  const CHUNK_SIZE: nat := 250

  type Price = r: real | r >= 0.0 witness 0.0

  datatype Snapshot = Snapshot(input: Price, output: Price, cacheRead: Option<Price>, cacheWrite: Option<Price>)

  datatype BatchJob = BatchJob(
    id: string,
    itemCount: nat,
    estimatedInputTokens: nat,
    inputPrice: Option<Price>,
    outputPrice: Option<Price>,
    cacheReadPrice: Option<Price>,
    cacheWritePrice: Option<Price>)

  datatype Usage = Usage(input: nat, output: nat, cacheRead: Option<nat>, cacheWrite: Option<nat>, estimated: bool)

  /** One item of the upstream's result stream. A response may come without usage. */
  datatype Outcome = Success(customId: CustomId, usage: Option<Usage>) | Failure(customId: CustomId, kind: string)

  /** `cost` in USD; `None` when no price is known. */
  datatype LedgerRow = LedgerRow(ok: bool, usage: Usage, cost: Option<real>)

  /** The ledger's row id. The source hashes the pair; the hash is taken to be injective. */
  datatype RowId = RowId(job: string, item: CustomId)

  type Rows = map<RowId, LedgerRow>

  // ---- one item ----

  function SnapshotOf(job: BatchJob): Option<Snapshot> {
    if job.inputPrice.None? || job.outputPrice.None? then None
    else Some(Snapshot(job.inputPrice.value, job.outputPrice.value, job.cacheReadPrice, job.cacheWritePrice))
  }

  const MILLION := 1000000.0

  /** What that many tokens cost in USD, at a price per million. */
  function Charge(tokens: nat, p: Price): (usd: real)
    ensures usd >= 0.0
  {
    tokens as real / MILLION * p
  }

  /** Null when unpriced: no snapshot, or cached tokens without a cache rate. Free is 0 whatever the tokens. */
  function ComputeCost(u: Usage, price: Option<Snapshot>): (cost: Option<real>)
    ensures cost.Some? ==> cost.value >= 0.0
  {
    if price.None? then None
    else
      var p := price.value;
      var read, write := u.cacheRead.GetOr(0), u.cacheWrite.GetOr(0);
      if p.input == 0.0 && p.output == 0.0 then Some(0.0)
      else if read > 0 && p.cacheRead.None? then None
      else if write > 0 && p.cacheWrite.None? then None
      else
        Some(Charge(u.input, p.input) + Charge(u.output, p.output)
             + Charge(read, p.cacheRead.GetOr(0.0)) + Charge(write, p.cacheWrite.GetOr(0.0)))
  }

  /** The job's aggregate estimate, divided evenly: what an item without reported usage is billed for. */
  function PerItemInput(job: BatchJob): nat {
    if job.itemCount > 0 then CeilDiv(job.estimatedInputTokens, job.itemCount) else 0
  }

  predicate Reported(o: Outcome) { o.Success? && o.usage.Some? }

  function UsageOf(o: Outcome, perItemInput: nat): Usage {
    if Reported(o) then o.usage.value.(estimated := false) else Usage(perItemInput, 0, None, None, true)
  }

  function RowFor(job: BatchJob, o: Outcome): LedgerRow {
    var u := UsageOf(o, PerItemInput(job));
    LedgerRow(o.Success?, u, ComputeCost(u, SnapshotOf(job)))
  }

  function Micros(cost: Option<real>): nat {
    if cost.Some? && cost.value >= 0.0 then
      RoundNearest(cost.value * MILLION);
      Round(cost.value * MILLION)
    else 0
  }

  function Summary(r: LedgerRow): ItemRow { ItemRow(r.ok, Micros(r.cost)) }

  // ---- a whole stream ----

  /** One row per distinct `custom_id`: the first outcome seen for it. */
  function FirstRows(job: BatchJob, stream: seq<Outcome>): map<CustomId, LedgerRow> {
    if stream == [] then map[]
    else
      var m, o := FirstRows(job, stream[..|stream| - 1]), stream[|stream| - 1];
      if o.customId in m then m else m[o.customId := RowFor(job, o)]
  }

  function Summaries(m: map<CustomId, LedgerRow>): map<CustomId, ItemRow> {
    map c | c in m :: Summary(m[c])
  }

  /** The rows an uninterrupted settlement of the stream inserts, under their ids. */
  function StreamRows(job: BatchJob, stream: seq<Outcome>): Rows { Keyed(job.id, FirstRows(job, stream)) }

  function Keyed(job: string, m: map<CustomId, LedgerRow>): Rows { map c | c in m :: RowId(job, c) := m[c] }

  /** The ledger after the missing rows of `m` are inserted; a row already there stays as it is. */
  function Merged(rows: Rows, m: Rows): Rows { m + rows }

  /** How many rows an insertion lands. */
  function Landed(rows: Rows, m: Rows): nat { |m.Keys - rows.Keys| }

  /** Each row is the outcome of the item's first occurrence, and nothing else is in the map. */
  lemma {:induction false} FirstRowsAre(job: BatchJob, stream: seq<Outcome>, c: CustomId)
    ensures c in FirstRows(job, stream) <==> exists i :: 0 <= i < |stream| && stream[i].customId == c
    ensures forall i :: 0 <= i < |stream| && stream[i].customId == c && (forall k :: 0 <= k < i ==> stream[k].customId != c)
              ==> FirstRows(job, stream)[c] == RowFor(job, stream[i])
  {
    if stream != [] {
      var front := stream[..|stream| - 1];
      FirstRowsAre(job, front, c);
      assert forall i :: 0 <= i < |front| ==> stream[i] == front[i];
    }
  }

  /** The outcome is the first one of its item. */
  predicate IsFirst(stream: seq<Outcome>, i: nat) { i < |stream| && forall k :: 0 <= k < i ==> stream[k].customId != stream[i].customId }

  /** The least whole number of tokens that, billed once per item, covers the job's estimate. */
  predicate EvenShare(job: BatchJob, share: nat) {
    if job.itemCount == 0 then share == 0
    else job.itemCount * share >= job.estimatedInputTokens && forall less: nat :: less < share ==> job.itemCount * less < job.estimatedInputTokens
  }

  lemma {:induction false} PerItemIsEven(job: BatchJob)
    ensures EvenShare(job, PerItemInput(job))
  {
    if job.itemCount > 0 {
      var share := PerItemInput(job);
      forall less: nat | less < share
        ensures job.itemCount * less < job.estimatedInputTokens
      {
        assert job.itemCount * less <= job.itemCount * (share - 1) == job.itemCount * share - job.itemCount;
      }
    }
  }

  /** What is recorded of an item: a success with reported usage carries exactly the reported input, output and cache
      tokens; any other outcome the even share of the job's estimate, no output, no cache, and the mark that it is an
      estimate. */
  lemma {:induction false} UsageRecorded(job: BatchJob, stream: seq<Outcome>, i: nat)
    requires IsFirst(stream, i)
    ensures stream[i].customId in FirstRows(job, stream)
    ensures var o, r := stream[i], FirstRows(job, stream)[stream[i].customId];
            && (r.ok <==> o.Success?)
            && (if o.Success? && o.usage.Some? then
                  r.usage == Usage(o.usage.value.input, o.usage.value.output, o.usage.value.cacheRead, o.usage.value.cacheWrite, false)
                else EvenShare(job, r.usage.input) && r.usage == Usage(r.usage.input, 0, None, None, true))
  {
    FirstRowsAre(job, stream, stream[i].customId);
    PerItemIsEven(job);
  }

  /** The job's input and output are free. */
  predicate Free(job: BatchJob) { job.inputPrice == Some(0.0) && job.outputPrice == Some(0.0) }

  /** Cached tokens for which the job has no rate. */
  predicate Unrated(job: BatchJob, u: Usage) {
    (u.cacheRead.GetOr(0) > 0 && job.cacheReadPrice.None?) || (u.cacheWrite.GetOr(0) > 0 && job.cacheWritePrice.None?)
  }

  /** Tokens at a price per million are micro-dollars. */
  function At(tokens: nat, p: Price): real { tokens as real * p }

  lemma {:induction false} ChargeIs(tokens: nat, p: Price)
    ensures Charge(tokens, p) * 1000000.0 == At(tokens, p)
  {
  }

  /** What a recorded usage costs: unknown without both rates of the job, or with cached tokens that have none; zero where
      both are free; else every kind of token at its own rate of the job's snapshot. */
  lemma {:induction false} CostRecorded(job: BatchJob, stream: seq<Outcome>, i: nat)
    requires IsFirst(stream, i)
    ensures stream[i].customId in FirstRows(job, stream)
    ensures var r := FirstRows(job, stream)[stream[i].customId];
            && (r.cost.None? <==> job.inputPrice.None? || job.outputPrice.None? || (!Free(job) && Unrated(job, r.usage)))
            && (r.cost.Some? && Free(job) ==> r.cost.value == 0.0)
            && (r.cost.Some? && !Free(job) ==>
                  r.cost.value * 1000000.0
                  == At(r.usage.input, job.inputPrice.value) + At(r.usage.output, job.outputPrice.value)
                     + At(r.usage.cacheRead.GetOr(0), job.cacheReadPrice.GetOr(0.0)) + At(r.usage.cacheWrite.GetOr(0), job.cacheWritePrice.GetOr(0.0)))
  {
    FirstRowsAre(job, stream, stream[i].customId);
    Priced(job, FirstRows(job, stream)[stream[i].customId].usage);
  }

  lemma {:induction false} Priced(job: BatchJob, u: Usage)
    ensures var cost := ComputeCost(u, SnapshotOf(job));
            && (cost.None? <==> job.inputPrice.None? || job.outputPrice.None? || (!Free(job) && Unrated(job, u)))
            && (cost.Some? && Free(job) ==> cost.value == 0.0)
            && (cost.Some? && !Free(job) ==>
                  cost.value * 1000000.0
                  == At(u.input, job.inputPrice.value) + At(u.output, job.outputPrice.value)
                     + At(u.cacheRead.GetOr(0), job.cacheReadPrice.GetOr(0.0)) + At(u.cacheWrite.GetOr(0), job.cacheWritePrice.GetOr(0.0)))
  {
    if job.inputPrice.Some? && job.outputPrice.Some? {
      ChargeIs(u.input, job.inputPrice.value);
      ChargeIs(u.output, job.outputPrice.value);
      ChargeIs(u.cacheRead.GetOr(0), job.cacheReadPrice.GetOr(0.0));
      ChargeIs(u.cacheWrite.GetOr(0), job.cacheWritePrice.GetOr(0.0));
    }
  }

  lemma {:induction false} PrefixRows(job: BatchJob, stream: seq<Outcome>, n: nat)
    requires n <= |stream|
    ensures Within(FirstRows(job, stream[..n]), FirstRows(job, stream))
  {
    if n < |stream| {
      PrefixRows(job, stream[..|stream| - 1], n);
      assert stream[..|stream| - 1][..n] == stream[..n];
    } else {
      assert stream[..n] == stream;
    }
  }

  predicate Within<K, V(==)>(a: map<K, V>, b: map<K, V>) { forall c :: c in a ==> c in b && a[c] == b[c] }

  predicate Agree(a: Rows, b: Rows) { forall c :: c in a && c in b ==> a[c] == b[c] }

  /** Inserting twice is inserting the union once: nothing is lost. */
  lemma {:induction false} MergeTwice(rows: Rows, a: Rows, b: Rows)
    requires Agree(a, b)
    ensures Merged(Merged(rows, a), b) == Merged(rows, a + b)
  {
  }

  lemma {:induction false} CountTwice(r: set<RowId>, a: set<RowId>, b: set<RowId>)
    ensures |a - r| + |b - (a + r)| == |(a + b) - r|
  {
    var first, second := a - r, b - (a + r);
    assert first !! second;
    assert (a + b) - r == first + second;
  }

  /** Nothing lands twice either. */
  lemma {:induction false} LandedTwice(rows: Rows, a: Rows, b: Rows)
    ensures Landed(rows, a) + Landed(Merged(rows, a), b) == Landed(rows, a + b)
  {
    assert Merged(rows, a).Keys == a.Keys + rows.Keys;
    assert (a + b).Keys == a.Keys + b.Keys;
    CountTwice(rows.Keys, a.Keys, b.Keys);
  }

  // ---- the ledger ----

  class RequestLog {
    var rows: Rows

    constructor ()
      ensures rows == map[]
    {
      rows := map[];
    }

    /** Insert with `ON CONFLICT DO NOTHING`, reporting the ids that landed. Of two rows with one id the first lands. */
    method InsertManyReturning(chunk: seq<(RowId, LedgerRow)>) returns (landed: set<RowId>)
      modifies this
      ensures rows == Merged(old(rows), ChunkRows(chunk))
      ensures landed == ChunkRows(chunk).Keys - old(rows.Keys)
      ensures forall id :: id in old(rows) ==> id in rows && rows[id] == old(rows)[id]
      ensures forall id :: id in rows && id !in old(rows) ==> exists i: nat :: FirstIn(chunk, i, id) && rows[id] == chunk[i].1
      ensures forall i :: 0 <= i < |chunk| ==> chunk[i].0 in rows
    {
      landed := {};
      var i := 0;
      while i < |chunk|
        invariant 0 <= i <= |chunk|
        invariant rows == Merged(old(rows), ChunkRows(chunk[..i]))
        invariant landed == ChunkRows(chunk[..i]).Keys - old(rows.Keys)
      {
        var id := chunk[i].0;
        assert chunk[..i + 1][..i] == chunk[..i];
        if id !in rows {
          rows := rows[id := chunk[i].1];
          landed := landed + {id};
        }
        i := i + 1;
      }
      assert chunk[..i] == chunk;
      ChunkRowsAre(chunk);
    }
  }

  /** Entry `i` is the first of the chunk with that id. */
  predicate FirstIn(chunk: seq<(RowId, LedgerRow)>, i: nat, id: RowId) {
    i < |chunk| && chunk[i].0 == id && forall k :: 0 <= k < i ==> chunk[k].0 != id
  }

  lemma {:induction false} ChunkRowsAre(chunk: seq<(RowId, LedgerRow)>)
    ensures forall i :: 0 <= i < |chunk| ==> chunk[i].0 in ChunkRows(chunk)
    ensures forall id :: id in ChunkRows(chunk) ==> exists i: nat :: FirstIn(chunk, i, id) && ChunkRows(chunk)[id] == chunk[i].1
  {
    if chunk != [] {
      var front, last := chunk[..|chunk| - 1], chunk[|chunk| - 1];
      ChunkRowsAre(front);
      assert forall i: nat, id :: FirstIn(front, i, id) ==> FirstIn(chunk, i, id) && front[i] == chunk[i];
      if last.0 !in ChunkRows(front) {
        assert FirstIn(chunk, |front|, last.0);
      }
      forall i | 0 <= i < |chunk|
        ensures chunk[i].0 in ChunkRows(chunk)
      {
        assert i < |front| ==> chunk[i] == front[i];
      }
    }
  }

  /** One row per distinct id: the first one given for it. */
  function ChunkRows(chunk: seq<(RowId, LedgerRow)>): Rows {
    if chunk == [] then map[]
    else
      var m, last := ChunkRows(chunk[..|chunk| - 1]), chunk[|chunk| - 1];
      if last.0 in m then m else m[last.0 := last.1]
  }

  // ---- settling ----

  datatype SettlementOutcome = SettlementOutcome(seen: nat, completed: nat, failed: nat, settledCostMicros: nat, inserted: nat)

  /** What a run that reached the end of the stream reports. */
  ghost predicate Reports(out: SettlementOutcome, before: Rows, job: BatchJob, stream: seq<Outcome>) {
    var m := FirstRows(job, stream);
    && out.seen == |m|
    && Totals(out.completed, out.failed, out.settledCostMicros) == TotalsOf(Summaries(m))
    && out.inserted == Landed(before, StreamRows(job, stream))
  }

  /** A buffer of rows read since the last flush, which stored `stored`. */
  ghost predicate Pends(all: Rows, stored: Rows, pending: seq<(RowId, LedgerRow)>) {
    stored.Keys !! ChunkRows(pending).Keys && all == stored + ChunkRows(pending)
  }

  /** The counters and the buffer agree with the distinct rows of what was read so far. */
  ghost predicate Buffered(job: BatchJob, read: seq<Outcome>, stored: Rows, pending: seq<(RowId, LedgerRow)>, seen: set<CustomId>, t: Totals) {
    && Pends(StreamRows(job, read), stored, pending)
    && seen == FirstRows(job, read).Keys
    && t == TotalsOf(Summaries(FirstRows(job, read)))
  }

  /** The ledger holds the rows of the stream's first `at` outcomes, and `inserted` of them landed. */
  ghost predicate Confirmed(before: Rows, now: Rows, stored: Rows, inserted: nat) {
    now == Merged(before, stored) && inserted == Landed(before, stored)
  }

  lemma {:induction false} FirstRowsStep(job: BatchJob, stream: seq<Outcome>, i: nat)
    requires i < |stream|
    ensures var m, o := FirstRows(job, stream[..i]), stream[i];
            && FirstRows(job, stream[..i + 1]) == (if o.customId in m then m else m[o.customId := RowFor(job, o)])
            && (o.customId !in m ==>
                  && RowId(job.id, o.customId) !in Keyed(job.id, m)
                  && StreamRows(job, stream[..i + 1]) == Keyed(job.id, m)[RowId(job.id, o.customId) := RowFor(job, o)])
  {
    assert stream[..i + 1][..i] == stream[..i];
  }

  lemma {:induction false} PendsMore(all: Rows, stored: Rows, pending: seq<(RowId, LedgerRow)>, id: RowId, row: LedgerRow)
    requires Pends(all, stored, pending) && id !in all
    ensures Pends(all[id := row], stored, pending + [(id, row)])
  {
    var more := pending + [(id, row)];
    assert more[..|pending|] == pending;
  }

  /** Flushing the buffer brings the ledger up to date. */
  lemma {:induction false} FlushMerges(before: Rows, all: Rows, stored: Rows, pending: seq<(RowId, LedgerRow)>)
    requires Pends(all, stored, pending)
    ensures Merged(Merged(before, stored), ChunkRows(pending)) == Merged(before, all)
    ensures Pends(all, all, [])
  {
    MergeTwice(before, stored, ChunkRows(pending));
  }

  lemma {:induction false} FlushLands(before: Rows, all: Rows, stored: Rows, pending: seq<(RowId, LedgerRow)>)
    requires Pends(all, stored, pending)
    ensures Landed(before, stored) + Landed(Merged(before, stored), ChunkRows(pending)) == Landed(before, all)
  {
    LandedTwice(before, stored, ChunkRows(pending));
  }

  lemma {:induction false} SummariesWith(m: map<CustomId, LedgerRow>, c: CustomId, r: LedgerRow)
    requires c !in m
    ensures TotalsOf(Summaries(m[c := r])) == Plus(TotalsOf(Summaries(m)), Summary(r))
  {
    assert Summaries(m[c := r]) == Summaries(m)[c := Summary(r)];
    TotalsWith(Summaries(m), c, Summary(r));
  }

  lemma {:induction false} ReadNew(job: BatchJob, stream: seq<Outcome>, i: nat, stored: Rows, pending: seq<(RowId, LedgerRow)>, seen: set<CustomId>, t: Totals)
    requires i < |stream| && Buffered(job, stream[..i], stored, pending, seen, t) && stream[i].customId !in seen
    ensures var c, row := stream[i].customId, RowFor(job, stream[i]);
            Buffered(job, stream[..i + 1], stored, pending + [(RowId(job.id, c), row)], seen + {c}, Plus(t, Summary(row)))
  {
    var c, row := stream[i].customId, RowFor(job, stream[i]);
    FirstRowsStep(job, stream, i);
    SummariesWith(FirstRows(job, stream[..i]), c, row);
    PendsMore(StreamRows(job, stream[..i]), stored, pending, RowId(job.id, c), row);
  }

  lemma {:induction false} ReadRepeat(job: BatchJob, stream: seq<Outcome>, i: nat, stored: Rows, pending: seq<(RowId, LedgerRow)>, seen: set<CustomId>, t: Totals)
    requires i < |stream| && Buffered(job, stream[..i], stored, pending, seen, t) && stream[i].customId in seen
    ensures Buffered(job, stream[..i + 1], stored, pending, seen, t)
  {
    FirstRowsStep(job, stream, i);
  }

  lemma {:induction false} NothingRead(job: BatchJob, rows: Rows)
    ensures Buffered(job, [], StreamRows(job, []), [], {}, ZERO) && Confirmed(rows, rows, StreamRows(job, []), 0)
  {
  }

  lemma {:induction false} AllRead(before: Rows, now: Rows, inserted: nat, job: BatchJob, stream: seq<Outcome>, seen: set<CustomId>, t: Totals)
    requires Confirmed(before, now, StreamRows(job, stream), inserted) && Buffered(job, stream, StreamRows(job, stream), [], seen, t)
    ensures now == Merged(before, StreamRows(job, stream))
    ensures Reports(SettlementOutcome(|seen|, t.completed, t.failed, t.cost, inserted), before, job, stream)
  {
  }

  /** Where a settlement stands: `read` outcomes consumed, the ledger confirmed up to the first `reached` of them. */
  ghost predicate Midway(before: Rows, now: Rows, job: BatchJob, stream: seq<Outcome>, reached: nat, read: nat,
                         inserted: nat, pending: seq<(RowId, LedgerRow)>, seen: set<CustomId>, t: Totals) {
    && reached <= read <= |stream|
    && Confirmed(before, now, StreamRows(job, stream[..reached]), inserted)
    && Buffered(job, stream[..read], StreamRows(job, stream[..reached]), pending, seen, t)
  }

  /** Reads one outcome: a repeated `custom_id` is skipped, another one counted and buffered. */
  method Read(job: BatchJob, o: Outcome, seen: set<CustomId>, t: Totals, pending: seq<(RowId, LedgerRow)>,
              ghost before: Rows, ghost now: Rows, ghost stream: seq<Outcome>, ghost reached: nat, ghost i: nat, ghost inserted: nat)
      returns (seen': set<CustomId>, t': Totals, pending': seq<(RowId, LedgerRow)>)
    requires i < |stream| && o == stream[i] && Midway(before, now, job, stream, reached, i, inserted, pending, seen, t)
    ensures Midway(before, now, job, stream, reached, i + 1, inserted, pending', seen', t')
  {
    if o.customId in seen {
      ReadRepeat(job, stream, i, StreamRows(job, stream[..reached]), pending, seen, t);
      return seen, t, pending;
    }
    ReadNew(job, stream, i, StreamRows(job, stream[..reached]), pending, seen, t);
    var row := RowFor(job, o);
    return seen + {o.customId}, Plus(t, Summary(row)), pending + [(RowId(job.id, o.customId), row)];
  }

  /** Inserting the buffer confirms everything read. */
  lemma {:induction false} FlushConfirms(before: Rows, now: Rows, job: BatchJob, stream: seq<Outcome>, reached: nat, read: nat,
                      inserted: nat, pending: seq<(RowId, LedgerRow)>, seen: set<CustomId>, t: Totals)
    requires Midway(before, now, job, stream, reached, read, inserted, pending, seen, t)
    ensures Midway(before, Merged(now, ChunkRows(pending)), job, stream, read, read, inserted + Landed(now, ChunkRows(pending)), [], seen, t)
  {
    var stored, all := StreamRows(job, stream[..reached]), StreamRows(job, stream[..read]);
    FlushMerges(before, all, stored, pending);
    FlushLands(before, all, stored, pending);
  }

  /** One confirmed insert of the buffered rows; an empty buffer inserts nothing. */
  method Flush(log: RequestLog, pending: seq<(RowId, LedgerRow)>, inserted: nat) returns (total: nat)
    modifies log
    ensures log.rows == Merged(old(log.rows), ChunkRows(pending))
    ensures total == inserted + Landed(old(log.rows), ChunkRows(pending))
  {
    if pending == [] {
      return inserted;
    }
    var ids := log.InsertManyReturning(pending);
    total := inserted + |ids|;
  }

  /** A flush of everything read so far. */
  method Confirm(log: RequestLog, pending: seq<(RowId, LedgerRow)>, inserted: nat, ghost job: BatchJob,
                 ghost before: Rows, ghost stream: seq<Outcome>, ghost reached: nat, ghost i: nat, ghost seen: set<CustomId>, ghost t: Totals)
      returns (total: nat)
    requires Midway(before, log.rows, job, stream, reached, i, inserted, pending, seen, t)
    modifies log
    ensures Midway(before, log.rows, job, stream, i, i, total, [], seen, t)
  {
    FlushConfirms(before, log.rows, job, stream, reached, i, inserted, pending, seen, t);
    total := Flush(log, pending, inserted);
  }

  lemma {:induction false} Begun(job: BatchJob, rows: Rows, stream: seq<Outcome>)
    ensures Midway(rows, rows, job, stream, 0, 0, 0, [], {}, ZERO)
  {
    NothingRead(job, rows);
    assert stream[..0] == [];
  }

  lemma {:induction false} Ended(before: Rows, now: Rows, job: BatchJob, stream: seq<Outcome>, inserted: nat, seen: set<CustomId>, t: Totals)
    requires Midway(before, now, job, stream, |stream|, |stream|, inserted, [], seen, t)
    ensures now == Merged(before, StreamRows(job, stream))
    ensures Reports(SettlementOutcome(|seen|, t.completed, t.failed, t.cost, inserted), before, job, stream)
  {
    assert stream[..|stream|] == stream;
    AllRead(before, now, inserted, job, stream, seen, t);
  }

  lemma {:induction false} Died(before: Rows, now: Rows, job: BatchJob, stream: seq<Outcome>, reached: nat, read: nat,
             inserted: nat, pending: seq<(RowId, LedgerRow)>, seen: set<CustomId>, t: Totals)
    requires Midway(before, now, job, stream, reached, read, inserted, pending, seen, t)
    ensures reached <= |stream| && now == Merged(before, StreamRows(job, stream[..reached]))
  {
  }

  /** The stream throws after that many outcomes instead of going on or ending; `gone`: to say that the upstream no longer
      has the results. */
  datatype Break = Break(at: nat, gone: bool)

  /** Consumes the stream once, in chunks. `dies` is the number of inserts that succeed before the process dies, `breaks`
      where the stream throws (`None`: it does not). Unless it reaches the end the ledger then holds exactly what a prefix
      of the stream, `reached` long, inserts: what was read after the last insert is lost. */
  method Settle(log: RequestLog, job: BatchJob, stream: seq<Outcome>, chunkSize: nat, dies: Option<nat>, breaks: Option<Break>)
      returns (out: Option<SettlementOutcome>, gone: bool, ghost reached: nat)
    requires chunkSize >= 1
    modifies log
    ensures dies.None? && breaks.None? ==> out.Some?
    ensures gone ==> out.None? && breaks.Some? && breaks.value.gone
    ensures out.None? && !gone ==> dies.Some? || (breaks.Some? && !breaks.value.gone)
    ensures out.Some? ==> (breaks.Some? ==> breaks.value.at > |stream|)
    ensures out.Some? ==> log.rows == Merged(old(log.rows), StreamRows(job, stream)) && Reports(out.value, old(log.rows), job, stream)
    ensures out.None? ==> reached <= |stream| && log.rows == Merged(old(log.rows), StreamRows(job, stream[..reached]))
  {
    var seen: set<CustomId> := {};
    var t, inserted, flushes, died := ZERO, 0, 0, false;
    var pending: seq<(RowId, LedgerRow)> := [];
    var i := 0;
    reached := 0;
    Begun(job, log.rows, stream);
    while i < |stream| && !died && !Breaks(breaks, i)
      invariant 0 <= i <= |stream|
      invariant Midway(old(log.rows), log.rows, job, stream, reached, i, inserted, pending, seen, t)
      invariant died ==> dies.Some?
      invariant breaks.Some? && !died ==> i <= breaks.value.at
      decreases |stream| - i
    {
      seen, t, pending := Read(job, stream[i], seen, t, pending, old(log.rows), log.rows, stream, reached, i, inserted);
      i := i + 1;
      if |pending| >= chunkSize {
        died := dies == Some(flushes);
        if !died {
          inserted := Confirm(log, pending, inserted, job, old(log.rows), stream, reached, i, seen, t);
          flushes, pending, reached := flushes + 1, [], i;
        }
      }
    }
    var broke := !died && Breaks(breaks, i);
    gone := broke && breaks.value.gone;
    if died || broke || (pending != [] && dies == Some(flushes)) {
      Died(old(log.rows), log.rows, job, stream, reached, i, inserted, pending, seen, t);
      out := None;
    } else {
      inserted := Confirm(log, pending, inserted, job, old(log.rows), stream, reached, i, seen, t);
      Ended(old(log.rows), log.rows, job, stream, inserted, seen, t);
      out := Some(SettlementOutcome(|seen|, t.completed, t.failed, t.cost, inserted));
    }
  }

  predicate Breaks(breaks: Option<Break>, i: nat) { breaks.Some? && breaks.value.at == i }

  // ---- crashes and replays ----

  /** A settlement that died: its own result stream, and how many of its outcomes it got as far as inserting. */
  datatype Attempt = Attempt(stream: seq<Outcome>, cut: nat)

  /** Whatever an attempt read first for an item, the stream of the run that completes has first too. */
  predicate Repeats(job: BatchJob, stream: seq<Outcome>, attempts: seq<Attempt>) {
    forall i :: 0 <= i < |attempts| ==> RepeatedBy(job, stream, attempts[i])
  }

  predicate RepeatedBy(job: BatchJob, stream: seq<Outcome>, a: Attempt) {
    a.cut <= |a.stream| && Within(FirstRows(job, a.stream), FirstRows(job, stream))
  }

  /** The rows one attempt got as far as inserting. */
  function ReachedBy(job: BatchJob, a: Attempt): Rows
    requires a.cut <= |a.stream|
  {
    StreamRows(job, a.stream[..a.cut])
  }

  /** The ledger after a sequence of attempts. */
  function Attempts(rows: Rows, job: BatchJob, stream: seq<Outcome>, attempts: seq<Attempt>): Rows
    requires Repeats(job, stream, attempts)
  {
    if attempts == [] then rows
    else Merged(Attempts(rows, job, stream, attempts[..|attempts| - 1]), ReachedBy(job, attempts[|attempts| - 1]))
  }

  /** The rows all those attempts landed, counted by what each reported. */
  function LandedBy(rows: Rows, job: BatchJob, stream: seq<Outcome>, attempts: seq<Attempt>): nat
    requires Repeats(job, stream, attempts)
  {
    if attempts == [] then 0
    else
      var front, last := attempts[..|attempts| - 1], attempts[|attempts| - 1];
      LandedBy(rows, job, stream, front) + Landed(Attempts(rows, job, stream, front), ReachedBy(job, last))
  }

  /** The rows some attempt got as far as inserting. */
  function Reached(job: BatchJob, stream: seq<Outcome>, attempts: seq<Attempt>): Rows
    requires Repeats(job, stream, attempts)
  {
    if attempts == [] then map[]
    else Reached(job, stream, attempts[..|attempts| - 1]) + ReachedBy(job, attempts[|attempts| - 1])
  }

  lemma {:induction false} AttemptWithin(job: BatchJob, stream: seq<Outcome>, a: Attempt)
    requires RepeatedBy(job, stream, a)
    ensures Within(ReachedBy(job, a), StreamRows(job, stream))
  {
    PrefixRows(job, a.stream, a.cut);
  }

  lemma {:induction false} ReachedWithin(job: BatchJob, stream: seq<Outcome>, attempts: seq<Attempt>)
    requires Repeats(job, stream, attempts)
    ensures Within(Reached(job, stream, attempts), StreamRows(job, stream))
  {
    if attempts != [] {
      ReachedWithin(job, stream, attempts[..|attempts| - 1]);
      AttemptWithin(job, stream, attempts[|attempts| - 1]);
    }
  }

  lemma {:induction false} AttemptsMerge(rows: Rows, job: BatchJob, stream: seq<Outcome>, attempts: seq<Attempt>)
    requires Repeats(job, stream, attempts)
    ensures Attempts(rows, job, stream, attempts) == Merged(rows, Reached(job, stream, attempts))
  {
    if attempts != [] {
      var front, last := attempts[..|attempts| - 1], attempts[|attempts| - 1];
      AttemptsMerge(rows, job, stream, front);
      ReachedWithin(job, stream, front);
      AttemptWithin(job, stream, last);
      MergeTwice(rows, Reached(job, stream, front), ReachedBy(job, last));
    }
  }

  lemma {:induction false} AttemptsLand(rows: Rows, job: BatchJob, stream: seq<Outcome>, attempts: seq<Attempt>)
    requires Repeats(job, stream, attempts)
    ensures LandedBy(rows, job, stream, attempts) == Landed(rows, Reached(job, stream, attempts))
  {
    if attempts != [] {
      var front, last := attempts[..|attempts| - 1], attempts[|attempts| - 1];
      AttemptsLand(rows, job, stream, front);
      AttemptsMerge(rows, job, stream, front);
      LandedTwice(rows, Reached(job, stream, front), ReachedBy(job, last));
    }
  }

  lemma {:induction false} MergeWithin(rows: Rows, m: Rows, all: Rows)
    requires Within(m, all)
    ensures Merged(Merged(rows, m), all) == Merged(rows, all)
  {
  }

  lemma {:induction false} LandWithin(rows: Rows, m: Rows, all: Rows)
    requires Within(m, all)
    ensures Landed(rows, m) + Landed(Merged(rows, m), all) == Landed(rows, all)
  {
    LandedTwice(rows, m, all);
    PlusWithin(m, all);
  }

  lemma {:induction false} PlusWithin(m: Rows, all: Rows)
    requires Within(m, all)
    ensures m + all == all
  {
  }

  lemma {:induction false} LandAgain(rows: Rows, all: Rows)
    ensures Landed(Merged(rows, all), all) == 0
  {
    assert all.Keys - Merged(rows, all).Keys == {};
  }

  /** After any number of crashed attempts, each on its own result stream, a run that completes leaves exactly the
      ledger one uninterrupted run would have left, and each new row was reported as landed exactly once over all of
      them - provided the upstream repeats the first outcome of every item it has shown. */
  lemma {:induction false} ReplaySettlesOnce(rows: Rows, job: BatchJob, stream: seq<Outcome>, attempts: seq<Attempt>)
    requires Repeats(job, stream, attempts)
    ensures var crashed, all := Attempts(rows, job, stream, attempts), StreamRows(job, stream);
            && Merged(crashed, all) == Merged(rows, all)
            && LandedBy(rows, job, stream, attempts) + Landed(crashed, all) == Landed(rows, all)
            && Landed(Merged(crashed, all), all) == 0
  {
    var m, all := Reached(job, stream, attempts), StreamRows(job, stream);
    ReachedWithin(job, stream, attempts);
    AttemptsMerge(rows, job, stream, attempts);
    AttemptsLand(rows, job, stream, attempts);
    MergeWithin(rows, m, all);
    LandWithin(rows, m, all);
    LandAgain(Merged(rows, m), all);
  }

  // ---- the protocol's view ----

  /** One job's part of the ledger, as the protocol sees it. */
  function JobLedger(rows: Rows, job: string): map<CustomId, ItemRow> {
    map id | id in rows && id.job == job :: id.item := Summary(rows[id])
  }

  lemma {:induction false} LedgerAt(rows: Rows, job: string, c: CustomId)
    ensures c in JobLedger(rows, job) <==> RowId(job, c) in rows
    ensures c in JobLedger(rows, job) ==> JobLedger(rows, job)[c] == Summary(rows[RowId(job, c)])
  {
    if RowId(job, c) in rows {
      assert RowId(job, c).item == c;
    }
  }

  /** An insert of any prefix's rows is a flush step of the protocol's settling task, and moves no other job. */
  lemma {:induction false} FlushIsStep(rows: Rows, job: BatchJob, stream: seq<Outcome>, n: nat, other: string)
    requires n <= |stream|
    ensures var p, results := FirstRows(job, stream[..n]), Summaries(FirstRows(job, stream));
            JobLedger(Merged(rows, StreamRows(job, stream[..n])), job.id)
            == BatchProtocol.InsertOnce(JobLedger(rows, job.id), BatchProtocol.Restrict(results, p.Keys))
    ensures other != job.id ==> JobLedger(Merged(rows, StreamRows(job, stream[..n])), other) == JobLedger(rows, other)
  {
    PrefixRows(job, stream, n);
    var p := FirstRows(job, stream[..n]);
    assert BatchProtocol.Restrict(Summaries(FirstRows(job, stream)), p.Keys) == Summaries(p);
    MergedLedger(rows, job.id, p);
    if other != job.id {
      OtherLedger(rows, job.id, p, other);
    }
  }

  lemma {:induction false} MergedLedger(rows: Rows, job: string, p: map<CustomId, LedgerRow>)
    ensures JobLedger(Merged(rows, Keyed(job, p)), job) == Summaries(p) + JobLedger(rows, job)
  {
    var a, b := JobLedger(Merged(rows, Keyed(job, p)), job), Summaries(p) + JobLedger(rows, job);
    forall c
      ensures c in a <==> c in b
      ensures c in a ==> a[c] == b[c]
    {
      LedgerAt(rows, job, c);
      LedgerAt(Merged(rows, Keyed(job, p)), job, c);
    }
  }

  lemma {:induction false} OtherLedger(rows: Rows, job: string, p: map<CustomId, LedgerRow>, other: string)
    requires other != job
    ensures JobLedger(Merged(rows, Keyed(job, p)), other) == JobLedger(rows, other)
  {
    var a, b := JobLedger(Merged(rows, Keyed(job, p)), other), JobLedger(rows, other);
    forall c
      ensures c in a <==> c in b
      ensures c in a ==> a[c] == b[c]
    {
      LedgerAt(rows, other, c);
      LedgerAt(Merged(rows, Keyed(job, p)), other, c);
    }
  }
}
