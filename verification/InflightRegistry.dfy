/** The in-flight registry: four scripts over an entry, a settled marker and an index, arriving in any order and late.
    Times are server milliseconds; a key lives through its expiry millisecond. */
module InflightRegistry {
  import opened Options

  type Tag = string
  type RequestId = string

  datatype RequestKey = RequestKey(tag: Tag, id: RequestId)

  datatype Entry = Entry(json: string, expireAt: int)

  /** What is stored for one request; an expired key is as good as absent. */
  datatype Slot = Slot(entry: Option<Entry>, marker: Option<int>)

  const EMPTY := Slot(None, None)

  predicate EntryLive(s: Slot, now: int) { s.entry.Some? && now <= s.entry.value.expireAt }

  predicate MarkerLive(s: Slot, now: int) { s.marker.Some? && now <= s.marker.value }

  datatype Command = Mark(cutoff: int, json: string) | Renew | Relabel(json: string) | Clear(cutoff: int)

  // ---- the scripts, on one request ----

  /** Whether the script reports success. */
  predicate Accepted(s: Slot, c: Command, now: int) {
    match c
    case Mark(cutoff, _) => !MarkerLive(s, now) && now <= cutoff
    case Renew => !MarkerLive(s, now) && EntryLive(s, now)
    case Relabel(_) => !MarkerLive(s, now) && EntryLive(s, now)
    case Clear(_) => true
  }

  function Apply(s: Slot, c: Command, leaseMs: nat, now: int): Slot {
    if !Accepted(s, c, now) then s
    else
      match c
      case Mark(_, json) => s.(entry := Some(Entry(json, now + leaseMs)))
      case Renew => s.(entry := Some(s.entry.value.(expireAt := now + leaseMs)))
      case Relabel(json) => s.(entry := Some(s.entry.value.(json := json)))
      case Clear(cutoff) => Slot(None, if cutoff - now > 0 then Some(cutoff) else s.marker)
  }

  // ---- arrivals over time ----

  datatype Arrival = Arrival(at: int, command: Command)

  /** Server time does not run backwards. */
  predicate Ordered(from: int, run: seq<Arrival>) {
    run == [] || (run[|run| - 1].at >= LastAt(from, run[..|run| - 1]) && Ordered(from, run[..|run| - 1]))
  }

  function After(s: Slot, run: seq<Arrival>, leaseMs: nat): Slot {
    if run == [] then s
    else Apply(After(s, run[..|run| - 1], leaseMs), run[|run| - 1].command, leaseMs, run[|run| - 1].at)
  }

  function LastAt(from: int, run: seq<Arrival>): int { if run == [] then from else run[|run| - 1].at }

  /** Every mark and clear of one request carries the same admission cutoff. */
  predicate OneCutoff(run: seq<Arrival>, cutoff: int) {
    forall i :: 0 <= i < |run| ==>
      (run[i].command.Mark? ==> run[i].command.cutoff == cutoff) && (run[i].command.Clear? ==> run[i].command.cutoff == cutoff)
  }

  /** Settled: no entry, and any later mark is refused - by the marker up to the cutoff, by the clock after it. */
  predicate Settled(s: Slot, cutoff: int, now: int) { s.entry.None? && (s.marker == Some(cutoff) || now > cutoff) }

  lemma {:induction false} StaysSettled(s: Slot, run: seq<Arrival>, cutoff: int, leaseMs: nat, from: int)
    requires Settled(s, cutoff, from) && Ordered(from, run) && OneCutoff(run, cutoff)
    ensures Settled(After(s, run, leaseMs), cutoff, LastAt(from, run)) && from <= LastAt(from, run)
  {
    if run != [] {
      StaysSettled(s, run[..|run| - 1], cutoff, leaseMs, from);
    }
  }

  /** No resurrection: after a CLEAR that runs at any other millisecond than the cutoff itself, no later arrival of any MARK,
      RENEW, RELABEL or CLEAR of that request, in any number and order, makes its entry exist again. */
  lemma {:induction false} NoResurrection(s: Slot, run: seq<Arrival>, cutoff: int, leaseMs: nat, clearedAt: int)
    requires clearedAt != cutoff && Ordered(clearedAt, run) && OneCutoff(run, cutoff)
    ensures After(Apply(s, Clear(cutoff), leaseMs, clearedAt), run, leaseMs).entry.None?
  {
    StaysSettled(Apply(s, Clear(cutoff), leaseMs, clearedAt), run, cutoff, leaseMs, clearedAt);
  }

  lemma {:induction false} MarkInTheSameMillisecond(cutoff: int, json: string, leaseMs: nat)
    ensures Resurrects(EMPTY, [Arrival(cutoff, Mark(cutoff, json))], cutoff, leaseMs, cutoff)
  {
    var mark := Arrival(cutoff, Mark(cutoff, json));
    var cleared := Apply(EMPTY, Clear(cutoff), leaseMs, cutoff);
    assert cleared == EMPTY && [mark][..0] == [];
    assert After(cleared, [], leaseMs) == EMPTY;
    assert LastAt(cutoff, []) == cutoff && Ordered(cutoff, []);
    assert After(cleared, [mark], leaseMs) == Apply(EMPTY, mark.command, leaseMs, cutoff);
  }

  /** That condition is exact: a CLEAR at the cutoff millisecond leaves no marker, and a MARK in the same millisecond is
      still admitted; a later one is not. */
  lemma {:induction false} ResurrectionIff(cutoff: int, clearedAt: int, json: string, leaseMs: nat)
    ensures (exists run :: Resurrects(EMPTY, run, cutoff, leaseMs, clearedAt)) <==> clearedAt == cutoff
  {
    if clearedAt == cutoff {
      MarkInTheSameMillisecond(cutoff, json, leaseMs);
    } else {
      forall run
        ensures !Resurrects(EMPTY, run, cutoff, leaseMs, clearedAt)
      {
        if Ordered(clearedAt, run) && OneCutoff(run, cutoff) {
          NoResurrection(EMPTY, run, cutoff, leaseMs, clearedAt);
        }
      }
    }
  }

  predicate Resurrects(s: Slot, run: seq<Arrival>, cutoff: int, leaseMs: nat, clearedAt: int) {
    Ordered(clearedAt, run) && OneCutoff(run, cutoff) && After(Apply(s, Clear(cutoff), leaseMs, clearedAt), run, leaseMs).entry.Some?
  }

  /** Even at the cutoff, a MARK in a strictly later millisecond resurrects nothing. */
  lemma {:induction false} LaterMarksRefused(s: Slot, run: seq<Arrival>, cutoff: int, leaseMs: nat)
    requires Ordered(cutoff, run) && OneCutoff(run, cutoff)
    requires forall i :: 0 <= i < |run| && run[i].command.Mark? ==> run[i].at > cutoff
    ensures After(Apply(s, Clear(cutoff), leaseMs, cutoff), run, leaseMs).entry.None?
  {
    if run != [] {
      LaterMarksRefused(s, run[..|run| - 1], cutoff, leaseMs);
    }
  }

  // ---- leases ----

  /** When the last MARK or RENEW that was accepted ran. */
  function LastRefresh(s: Slot, run: seq<Arrival>, leaseMs: nat): Option<int> {
    if run == [] then None
    else
      var front, last := run[..|run| - 1], run[|run| - 1];
      if (last.command.Mark? || last.command.Renew?) && Accepted(After(s, front, leaseMs), last.command, last.at) then Some(last.at)
      else LastRefresh(s, front, leaseMs)
  }

  /** Without a CLEAR an entry is gone once the lease has passed since the last accepted MARK or RENEW, however often it was
      relabelled: its expiry is that instant plus the lease. */
  lemma {:induction false} LeaseRuns(run: seq<Arrival>, leaseMs: nat)
    ensures var s := After(EMPTY, run, leaseMs);
            s.entry.Some? ==> LastRefresh(EMPTY, run, leaseMs).Some? && s.entry.value.expireAt == LastRefresh(EMPTY, run, leaseMs).value + leaseMs
  {
    if run != [] {
      LeaseRuns(run[..|run| - 1], leaseMs);
    }
  }

  lemma {:induction false} GoneAfterLease(run: seq<Arrival>, leaseMs: nat, now: int)
    requires LastRefresh(EMPTY, run, leaseMs).None? || now > LastRefresh(EMPTY, run, leaseMs).value + leaseMs
    ensures !EntryLive(After(EMPTY, run, leaseMs), now)
  {
    LeaseRuns(run, leaseMs);
  }

  // ---- what is accepted ----

  /** A CLEAR that ran before the cutoff. */
  predicate ClearedEarly(run: seq<Arrival>, cutoff: int) { exists i :: 0 <= i < |run| && run[i].command.Clear? && run[i].at < cutoff }

  /** A MARK that came in time, with no early CLEAR before it and no CLEAR after it. */
  predicate Stands(run: seq<Arrival>, i: nat, cutoff: int) {
    && i < |run| && run[i].command.Mark? && run[i].at <= cutoff && !ClearedEarly(run[..i], cutoff)
    && forall k :: i < k < |run| ==> !run[k].command.Clear?
  }

  ghost predicate Marked(run: seq<Arrival>, cutoff: int) { exists i: nat :: Stands(run, i, cutoff) }

  lemma {:induction false} OneMore(run: seq<Arrival>, cutoff: int)
    requires run != []
    ensures var front, last := run[..|run| - 1], run[|run| - 1];
            && (ClearedEarly(run, cutoff) <==> ClearedEarly(front, cutoff) || (last.command.Clear? && last.at < cutoff))
            && (Marked(run, cutoff) <==> (Marked(front, cutoff) && !last.command.Clear?)
                                         || (last.command.Mark? && last.at <= cutoff && !ClearedEarly(front, cutoff)))
  {
    var front, last := run[..|run| - 1], run[|run| - 1];
    if i: nat :| Stands(front, i, cutoff) && !last.command.Clear? {
      assert run[..i] == front[..i];
      assert Stands(run, i, cutoff);
    }
    if last.command.Mark? && last.at <= cutoff && !ClearedEarly(front, cutoff) {
      assert Stands(run, |front|, cutoff);
    }
    if i: nat :| Stands(run, i, cutoff) && i < |front| {
      assert run[..i] == front[..i];
      assert run[|front|] == last;
      assert Stands(front, i, cutoff);
    }
    if i :| 0 <= i < |run| && run[i].command.Clear? && run[i].at < cutoff && i < |front| {
      assert front[i] == run[i];
    }
    if i :| 0 <= i < |front| && front[i].command.Clear? && front[i].at < cutoff {
      assert front[i] == run[i];
    }
  }

  /** What is stored for a request, told from its arrivals alone: a marker exactly if some CLEAR ran before the cutoff,
      and an entry exactly if a MARK stands. */
  lemma {:induction false} StoredIff(run: seq<Arrival>, cutoff: int, leaseMs: nat, from: int)
    requires Ordered(from, run) && OneCutoff(run, cutoff)
    ensures var s := After(EMPTY, run, leaseMs);
            && s.marker == (if ClearedEarly(run, cutoff) then Some(cutoff) else None)
            && (s.entry.Some? <==> Marked(run, cutoff))
            && (Marked(run, cutoff) ==> !ClearedEarly(run, cutoff))
    decreases |run|
  {
    if run != [] {
      var front := run[..|run| - 1];
      StoredIff(front, cutoff, leaseMs, from);
      OneMore(run, cutoff);
      Earlier(from, run, cutoff);
    }
  }

  /** Past the cutoff there is nothing a marker would have to refuse. */
  lemma {:induction false} Earlier(from: int, run: seq<Arrival>, cutoff: int)
    requires run != [] && Ordered(from, run)
    ensures LastAt(from, run[..|run| - 1]) <= run[|run| - 1].at
  {
  }

  /** A MARK is accepted exactly up to the cutoff and unless a CLEAR ran before the cutoff; a RENEW or RELABEL exactly if a
      MARK stands and the lease since the last accepted MARK or RENEW has not run out. */
  lemma {:induction false} AcceptedIff(run: seq<Arrival>, cutoff: int, json: string, leaseMs: nat, from: int, now: int)
    requires Ordered(from, run) && OneCutoff(run, cutoff)
    ensures var s, last := After(EMPTY, run, leaseMs), LastRefresh(EMPTY, run, leaseMs);
            && (Accepted(s, Mark(cutoff, json), now) <==> now <= cutoff && !ClearedEarly(run, cutoff))
            && (Accepted(s, Renew, now) <==> Marked(run, cutoff) && last.Some? && now <= last.value + leaseMs)
            && (Accepted(s, Relabel(json), now) <==> Marked(run, cutoff) && last.Some? && now <= last.value + leaseMs)
  {
    StoredIff(run, cutoff, leaseMs, from);
    LeaseRuns(run, leaseMs);
  }

  /** The labels of the last MARK or RELABEL that was accepted. */
  function LastLabels(run: seq<Arrival>, leaseMs: nat): string {
    if run == [] then ""
    else
      var front, last := run[..|run| - 1], run[|run| - 1];
      if (last.command.Mark? || last.command.Relabel?) && Accepted(After(EMPTY, front, leaseMs), last.command, last.at) then last.command.json
      else LastLabels(front, leaseMs)
  }

  /** An entry carries the labels that were accepted last. */
  lemma {:induction false} LabelsAre(run: seq<Arrival>, leaseMs: nat)
    ensures var s := After(EMPTY, run, leaseMs); s.entry.Some? ==> s.entry.value.json == LastLabels(run, leaseMs)
  {
    if run != [] {
      LabelsAre(run[..|run| - 1], leaseMs);
    }
  }

  // ---- the store ----

  datatype Index = Index(members: map<RequestId, int>, expireAt: int)

  /** The registry's keys, as the scripts change them. */
  class RegistryStore {
    const leaseMs: nat
    const indexTtlMs: nat
    var slots: map<RequestKey, Slot>
    var index: map<Tag, Index>

    constructor (leaseMs: nat, indexTtlMs: nat)
      ensures this.leaseMs == leaseMs && this.indexTtlMs == indexTtlMs && slots == map[] && index == map[]
    {
      this.leaseMs, this.indexTtlMs, slots, index := leaseMs, indexTtlMs, map[], map[];
    }

    function SlotOf(k: RequestKey): Slot
      reads this
    {
      if k in slots then slots[k] else EMPTY
    }

    function Members(tag: Tag, now: int): map<RequestId, int>
      reads this
    {
      if tag in index && now <= index[tag].expireAt then index[tag].members else map[]
    }

    method RunMark(k: RequestKey, cutoff: int, json: string, startedAt: int, now: int) returns (ok: bool)
      modifies this
      ensures ok == Accepted(old(SlotOf(k)), Mark(cutoff, json), now)
      ensures slots == if ok then old(slots)[k := Apply(old(SlotOf(k)), Mark(cutoff, json), leaseMs, now)] else old(slots)
      ensures index == if ok then old(index)[k.tag := Index(old(Members(k.tag, now))[k.id := startedAt], now + indexTtlMs)] else old(index)
    {
      if MarkerLive(SlotOf(k), now) {
        return false;
      }
      if now > cutoff {
        return false;
      }
      slots := slots[k := SlotOf(k).(entry := Some(Entry(json, now + leaseMs)))];
      index := index[k.tag := Index(Members(k.tag, now)[k.id := startedAt], now + indexTtlMs)];
      ok := true;
    }

    method RunRenew(k: RequestKey, now: int) returns (ok: bool)
      modifies this`slots
      ensures ok == Accepted(old(SlotOf(k)), Renew, now)
      ensures slots == if ok then old(slots)[k := Apply(old(SlotOf(k)), Renew, leaseMs, now)] else old(slots)
    {
      var s := SlotOf(k);
      if MarkerLive(s, now) || !EntryLive(s, now) {
        return false;
      }
      slots := slots[k := s.(entry := Some(s.entry.value.(expireAt := now + leaseMs)))];
      ok := true;
    }

    method RunRelabel(k: RequestKey, json: string, now: int) returns (ok: bool)
      modifies this`slots
      ensures ok == Accepted(old(SlotOf(k)), Relabel(json), now)
      ensures slots == if ok then old(slots)[k := Apply(old(SlotOf(k)), Relabel(json), leaseMs, now)] else old(slots)
    {
      var s := SlotOf(k);
      if MarkerLive(s, now) || !EntryLive(s, now) {
        return false;
      }
      slots := slots[k := s.(entry := Some(s.entry.value.(json := json)))];
      ok := true;
    }

    method RunClear(k: RequestKey, cutoff: int, now: int)
      modifies this
      ensures slots == old(slots)[k := Apply(old(SlotOf(k)), Clear(cutoff), leaseMs, now)]
      ensures index == if k.tag in old(index) then old(index)[k.tag := old(index[k.tag]).(members := old(index[k.tag]).members - {k.id})] else old(index)
    {
      var marker := SlotOf(k).marker;
      var ttl := cutoff - now;
      if ttl > 0 {
        marker := Some(now + ttl);
      }
      slots := slots[k := Slot(None, marker)];
      if k.tag in index {
        index := index[k.tag := index[k.tag].(members := index[k.tag].members - {k.id})];
      }
    }
  }

  // ---- the lease handle ----

  /** What one request has sent, in order: a MARK, then renewals and relabels, then - once settled - one CLEAR. */
  ghost predicate Sent(fired: seq<Command>, cutoff: int, closed: bool) {
    && |fired| >= 1 && fired[0].Mark? && fired[0].cutoff == cutoff
    && (closed ==> |fired| >= 2 && fired[|fired| - 1] == Clear(cutoff))
    && (forall i :: 1 <= i < (if closed then |fired| - 1 else |fired|) ==> fired[i].Renew? || fired[i].Relabel?)
  }

  /** The handle `mark` returns. Commands are fired and never awaited; `fired` records them. */
  class InflightLease {
    const cutoff: int
    var closed: bool
    ghost var fired: seq<Command>

    ghost predicate Valid()
      reads this
    {
      Sent(fired, cutoff, closed)
    }

    constructor (startedAt: int, admissionLifetimeMs: nat, skewMs: nat, json: string)
      ensures Valid() && !closed && cutoff == startedAt + admissionLifetimeMs + skewMs && fired == [Mark(cutoff, json)]
    {
      cutoff, closed := startedAt + admissionLifetimeMs + skewMs, false;
      fired := [Mark(startedAt + admissionLifetimeMs + skewMs, json)];
    }

    /** The renewal timer. */
    method Tick()
      requires Valid()
      modifies this
      ensures Valid() && closed == old(closed) && fired == (if old(closed) then old(fired) else old(fired) + [Renew])
    {
      if closed {
        return;
      }
      fired := fired + [Renew];
    }

    method SetLabels(json: string)
      requires Valid()
      modifies this
      ensures Valid() && closed == old(closed) && fired == (if old(closed) then old(fired) else old(fired) + [Relabel(json)])
    {
      if closed {
        return;
      }
      fired := fired + [Relabel(json)];
    }

    /** Idempotent: the first call closes and clears, later ones do nothing. */
    method Settle()
      requires Valid()
      modifies this
      ensures Valid() && closed && fired == (if old(closed) then old(fired) else old(fired) + [Clear(cutoff)])
    {
      if closed {
        return;
      }
      closed := true;
      fired := fired + [Clear(cutoff)];
    }
  }

  /** Arrivals of what one handle sent, each command any number of times, in any order, at non-decreasing times. */
  predicate FromHandle(run: seq<Arrival>, fired: seq<Command>) { forall i :: 0 <= i < |run| ==> run[i].command in fired }

  /** Whatever a handle sent and however the network reorders it, the entry does not exist from the arrival of the CLEAR on,
      unless that arrival is in the cutoff millisecond itself. */
  lemma {:induction false} HandleNeverResurrects(before: seq<Arrival>, later: seq<Arrival>, fired: seq<Command>, cutoff: int, leaseMs: nat, clearedAt: int)
    requires Sent(fired, cutoff, true) && FromHandle(before, fired) && FromHandle(later, fired)
    requires clearedAt != cutoff && Ordered(clearedAt, later)
    ensures After(Apply(After(EMPTY, before, leaseMs), Clear(cutoff), leaseMs, clearedAt), later, leaseMs).entry.None?
  {
    forall i | 0 <= i < |later|
      ensures (later[i].command.Mark? ==> later[i].command.cutoff == cutoff) && (later[i].command.Clear? ==> later[i].command.cutoff == cutoff)
    {
      assert later[i].command in fired;
    }
    NoResurrection(After(EMPTY, before, leaseMs), later, cutoff, leaseMs, clearedAt);
  }
}
