/** One dashboard event stream: a bounded queue in front of a socket, collapsed to a `resync` when it overflows. */
module SseConnection {
  /** A frame: the directive to start over, or the `index`-th event enqueued while the connection was open. */
  datatype Frame = Resync | Item(index: nat, snapshot: bool)

  /** What one socket write reported. */
  datatype Outcome = Flowing | Backpressure | Throws

  // ---- what may follow what ----

  /** Events follow each other without a gap, and only a snapshot - or another resync - follows a resync. */
  predicate Follows(a: Frame, b: Frame) {
    match (a, b)
    case (Item(i, _), Item(k, _)) => k == i + 1
    case (Resync, Item(_, snapshot)) => snapshot
    case (_, Resync) => true
  }

  predicate Stream(frames: seq<Frame>) {
    && (forall i :: 0 <= i < |frames| - 1 ==> Follows(frames[i], frames[i + 1]))
    && (forall i, k :: 0 <= i < k < |frames| && frames[i].Item? && frames[k].Item? ==> frames[i].index < frames[k].index)
  }

  function Max1(n: nat): nat { if n == 0 then 1 else n }

  lemma {:induction false} StreamPrefix(frames: seq<Frame>, n: nat)
    requires Stream(frames) && n <= |frames|
    ensures Stream(frames[..n])
  {
  }

  lemma {:induction false} StreamAppend(frames: seq<Frame>, f: Frame)
    requires Stream(frames) && (frames != [] ==> Follows(frames[|frames| - 1], f))
    requires f.Item? ==> forall i :: 0 <= i < |frames| && frames[i].Item? ==> frames[i].index < f.index
    ensures Stream(frames + [f])
  {
  }

  // ---- the connection, as values ----

  /** `enqueued` numbers the events offered while open; `written` is what the socket was given. */
  datatype State = State(queue: seq<Frame>, draining: bool, closed: bool, overflowed: bool, ended: bool, written: seq<Frame>, enqueued: nat)

  const START := State([], false, false, false, false, [], 0)

  /** The queue after an event: pushed, dropped while a resync is pending, or everything collapsed to one resync. */
  function Pushed(s: State, snapshot: bool, limit: nat): State {
    var n := s.(enqueued := s.enqueued + 1);
    if s.overflowed && !snapshot then n
    else if |s.queue| >= limit then n.(queue := [Resync], overflowed := true)
    else n.(queue := s.queue + [Item(s.enqueued, snapshot)], overflowed := false)
  }

  function Closed(s: State): State { if s.closed then s else s.(closed := true, queue := [], ended := true) }

  /** One write of the frame at the head of the queue. An ended socket swallows it; a write that throws closes. */
  function WriteOne(s: State, outcome: Outcome): State
    requires s.queue != []
  {
    var rest := s.(queue := s.queue[1..]);
    if s.ended then rest else if outcome.Throws? then Closed(rest) else rest.(written := s.written + [s.queue[0]])
  }

  /** Whether the loop goes on after that write. */
  predicate GoesOn(s: State, outcome: Outcome) { s.ended || !outcome.Backpressure? }

  /** The drain loop, fed with the socket's answers; where they run out it waits. */
  function Drained(s: State, outcomes: seq<Outcome>): State
    decreases |outcomes|
  {
    if s.queue == [] || s.closed then s.(draining := false)
    else if outcomes == [] then s.(draining := true)
    else
      var next := WriteOne(s, outcomes[0]);
      if GoesOn(s, outcomes[0]) then Drained(next, outcomes[1..]) else next.(draining := true)
  }

  datatype Event = Enqueue(snapshot: bool, outcomes: seq<Outcome>) | Resume(outcomes: seq<Outcome>) | Close | PeerGone

  function Step(s: State, ev: Event, limit: nat): State {
    match ev
    case Enqueue(snapshot, outcomes) =>
      if s.closed then s
      else
        var p := Pushed(s, snapshot, limit);
        if p.draining then p else Drained(p, outcomes)
    case Resume(outcomes) => if s.draining then Drained(s, outcomes) else s
    case Close => Closed(s)
    case PeerGone => s.(ended := true)
  }

  function Run(s: State, evs: seq<Event>, limit: nat): State {
    if evs == [] then s else Step(Run(s, evs[..|evs| - 1], limit), evs[|evs| - 1], limit)
  }

  // ---- the invariant ----

  predicate Bounded(frames: seq<Frame>, n: nat) { forall i :: 0 <= i < |frames| && frames[i].Item? ==> frames[i].index < n }

  /** A stream that ends in the latest event, or in the resync that stands for it. */
  predicate UpToDate(frames: seq<Frame>, overflowed: bool, enqueued: nat) {
    if overflowed then frames != [] && frames[|frames| - 1].Resync?
    else if frames == [] then enqueued == 0
    else frames[|frames| - 1].Item? && frames[|frames| - 1].index == enqueued - 1
  }

  predicate Inv(s: State, limit: nat) {
    && |s.queue| <= Max1(limit) && Stream(s.written) && Bounded(s.written + s.queue, s.enqueued)
    && (s.closed ==> s.queue == [] && s.ended)
    && (!s.ended ==> Stream(s.written + s.queue) && UpToDate(s.written + s.queue, s.overflowed, s.enqueued))
  }

  lemma {:induction false} CollapseKeeps(s: State, limit: nat)
    requires Inv(s, limit) && |s.queue| >= limit
    ensures Inv(s.(queue := [Resync], overflowed := true, enqueued := s.enqueued + 1), limit) || s.closed
  {
    StreamAppend(s.written, Resync);
    assert Bounded(s.written, s.enqueued) by {
      assert forall i :: 0 <= i < |s.written| ==> (s.written + s.queue)[i] == s.written[i];
    }
  }

  lemma {:induction false} AppendKeeps(s: State, snapshot: bool, limit: nat)
    requires Inv(s, limit) && |s.queue| < limit && (s.overflowed ==> snapshot)
    ensures Inv(s.(queue := s.queue + [Item(s.enqueued, snapshot)], overflowed := false, enqueued := s.enqueued + 1), limit) || s.closed
  {
    var f := Item(s.enqueued, snapshot);
    if !s.ended {
      StreamAppend(s.written + s.queue, f);
    }
    assert s.written + (s.queue + [f]) == (s.written + s.queue) + [f];
  }

  lemma {:induction false} PushKeeps(s: State, snapshot: bool, limit: nat)
    requires Inv(s, limit) && !s.closed
    ensures Inv(Pushed(s, snapshot, limit), limit)
  {
    if s.overflowed && !snapshot {
    } else if |s.queue| >= limit {
      CollapseKeeps(s, limit);
    } else {
      AppendKeeps(s, snapshot, limit);
    }
  }

  lemma {:induction false} ClosedKeeps(s: State, limit: nat)
    requires Inv(s, limit)
    ensures Inv(Closed(s), limit) && Closed(s).written == s.written
  {
    assert forall i :: 0 <= i < |s.written| ==> (s.written + s.queue)[i] == s.written[i];
    assert s.written + [] == s.written;
  }

  /** A frame that is taken off but not written: only an ended socket does that. */
  lemma {:induction false} SwallowKeeps(s: State, limit: nat)
    requires Inv(s, limit) && s.queue != []
    ensures Inv(s.(queue := s.queue[1..], ended := true), limit) || s.closed
  {
    var all, rest := s.written + s.queue, s.written + s.queue[1..];
    forall i | 0 <= i < |rest| && rest[i].Item?
      ensures rest[i].index < s.enqueued
    {
      assert rest[i] == if i < |s.written| then all[i] else all[i + 1];
    }
  }

  lemma {:induction false} WriteKeeps(s: State, outcome: Outcome, limit: nat)
    requires Inv(s, limit) && s.queue != [] && !s.closed
    ensures Inv(WriteOne(s, outcome), limit) && s.written <= WriteOne(s, outcome).written
  {
    if s.ended {
      SwallowKeeps(s, limit);
    } else if outcome.Throws? {
      SwallowKeeps(s, limit);
      ClosedKeeps(s.(queue := s.queue[1..], ended := true), limit);
    } else {
      var w := s.written + [s.queue[0]];
      assert w + s.queue[1..] == s.written + s.queue;
      StreamPrefix(s.written + s.queue, |w|);
      assert (s.written + s.queue)[..|w|] == w;
    }
  }

  lemma {:induction false} DrainKeeps(s: State, outcomes: seq<Outcome>, limit: nat)
    requires Inv(s, limit)
    ensures Inv(Drained(s, outcomes), limit) && s.written <= Drained(s, outcomes).written
    ensures s.closed ==> Drained(s, outcomes).written == s.written && Drained(s, outcomes).closed
    decreases |outcomes|
  {
    if s.queue != [] && !s.closed && outcomes != [] {
      WriteKeeps(s, outcomes[0], limit);
      if GoesOn(s, outcomes[0]) {
        DrainKeeps(WriteOne(s, outcomes[0]), outcomes[1..], limit);
      }
    }
  }

  lemma {:induction false} StepKeeps(s: State, ev: Event, limit: nat)
    requires Inv(s, limit)
    ensures Inv(Step(s, ev, limit), limit) && s.written <= Step(s, ev, limit).written
    ensures s.closed ==> Step(s, ev, limit).written == s.written && Step(s, ev, limit).closed
  {
    match ev
    case Enqueue(snapshot, outcomes) =>
      if !s.closed {
        PushKeeps(s, snapshot, limit);
        DrainKeeps(Pushed(s, snapshot, limit), outcomes, limit);
      }
    case Resume(outcomes) => DrainKeeps(s, outcomes, limit);
    case Close => ClosedKeeps(s, limit);
    case PeerGone =>
  }

  // ---- every run ----

  lemma {:induction false} RunKeeps(evs: seq<Event>, limit: nat)
    ensures Inv(Run(START, evs, limit), limit)
  {
    if evs != [] {
      RunKeeps(evs[..|evs| - 1], limit);
      StepKeeps(Run(START, evs[..|evs| - 1], limit), evs[|evs| - 1], limit);
    }
  }

  /** For any interleaving of events and socket answers: the queue never exceeds its limit; what was written is contiguous
      runs of the events in order, separated by resyncs, and a run after a resync begins with a snapshot. */
  lemma {:induction false} WrittenIsStream(evs: seq<Event>, limit: nat)
    ensures var s := Run(START, evs, limit);
            && |s.queue| <= Max1(limit)
            && (forall i :: 0 <= i < |s.written| - 1 ==> Follows(s.written[i], s.written[i + 1]))
            && (forall i, k :: 0 <= i < k < |s.written| && s.written[i].Item? && s.written[k].Item? ==> s.written[i].index < s.written[k].index)
  {
    RunKeeps(evs, limit);
  }

  /** Nothing is written after a close. */
  lemma {:induction false} NothingAfterClose(evs: seq<Event>, later: seq<Event>, limit: nat)
    ensures var s := Step(Run(START, evs, limit), Close, limit);
            Run(s, later, limit).written == s.written && Run(s, later, limit).closed && Inv(Run(s, later, limit), limit)
  {
    var s := Step(Run(START, evs, limit), Close, limit);
    if later == [] {
      RunKeeps(evs, limit);
      StepKeeps(Run(START, evs, limit), Close, limit);
    } else {
      NothingAfterClose(evs, later[..|later| - 1], limit);
      StepKeeps(Run(s, later[..|later| - 1], limit), later[|later| - 1], limit);
    }
  }

  // ---- nothing is held back ----

  /** An open connection queues an event exactly if there is room for it and no resync stands for it; a full queue collapses
      to one resync, and while that is unanswered everything but a snapshot is dropped. */
  lemma {:induction false} QueuedIff(s: State, snapshot: bool, limit: nat)
    ensures var q := Pushed(s, snapshot, limit).queue;
            && (q == s.queue + [Item(s.enqueued, snapshot)] <==> (snapshot || !s.overflowed) && |s.queue| < limit)
            && ((snapshot || !s.overflowed) && |s.queue| >= limit ==> q == [Resync])
            && (!snapshot && s.overflowed ==> q == s.queue)
  {
    var more := s.queue + [Item(s.enqueued, snapshot)];
    assert |more| == |s.queue| + 1 && more[|s.queue|].Item? && [Resync][0].Resync?;
  }

  /** A socket that keeps taking writes is given the whole queue, in order. */
  lemma {:induction false} FlowsOut(s: State, outcomes: seq<Outcome>)
    requires !s.closed && !s.ended && |outcomes| >= |s.queue|
    requires forall i :: 0 <= i < |s.queue| ==> outcomes[i].Flowing?
    ensures Drained(s, outcomes) == s.(queue := [], draining := false, written := s.written + s.queue)
    decreases |outcomes|
  {
    if s.queue != [] {
      var next := WriteOne(s, outcomes[0]);
      FlowsOut(next, outcomes[1..]);
      assert next.written + next.queue == s.written + s.queue;
    }
  }

  lemma {:induction false} DrainedEmpty(s: State, outcomes: seq<Outcome>)
    ensures !Drained(s, outcomes).draining ==> Drained(s, outcomes).queue == [] || Drained(s, outcomes).closed
    decreases |outcomes|
  {
    if s.queue != [] && !s.closed && outcomes != [] && GoesOn(s, outcomes[0]) {
      DrainedEmpty(WriteOne(s, outcomes[0]), outcomes[1..]);
    }
  }

  /** In every run a connection that is not waiting for its socket has nothing queued. */
  lemma {:induction false} NothingIdles(evs: seq<Event>, limit: nat)
    ensures var s := Run(START, evs, limit); !s.draining ==> s.queue == []
  {
    RunKeeps(evs, limit);
    if evs != [] {
      var s, ev := Run(START, evs[..|evs| - 1], limit), evs[|evs| - 1];
      NothingIdles(evs[..|evs| - 1], limit);
      match ev
      case Enqueue(snapshot, outcomes) => DrainedEmpty(Pushed(s, snapshot, limit), outcomes);
      case Resume(outcomes) => DrainedEmpty(s, outcomes);
      case _ =>
    }
  }

  // ---- what follows a resync ----

  predicate HasPair(frames: seq<Frame>) { exists i :: 0 <= i < |frames| - 1 && frames[i].Resync? && frames[i + 1].Resync? }

  predicate EndsInResync(frames: seq<Frame>) { frames != [] && frames[|frames| - 1].Resync? }

  /** The event overflows the queue while a resync is the last thing that was written. */
  predicate Redoubles(s: State, ev: Event, limit: nat) {
    ev.Enqueue? && !s.closed && !(s.overflowed && !ev.snapshot) && |s.queue| >= limit && EndsInResync(s.written)
  }

  /** The next frame to be written is a resync after a resync. */
  predicate Looms(s: State) { !s.ended && EndsInResync(s.written) && s.queue != [] && s.queue[0].Resync? }

  /** A resync is queued at the head only. */
  predicate HeadOnly(s: State) { forall i :: 1 <= i < |s.queue| ==> s.queue[i].Item? }

  lemma {:induction false} PairAppend(frames: seq<Frame>, f: Frame)
    ensures HasPair(frames + [f]) <==> HasPair(frames) || (f.Resync? && EndsInResync(frames))
  {
    var more := frames + [f];
    if HasPair(frames) {
      var i :| 0 <= i < |frames| - 1 && frames[i].Resync? && frames[i + 1].Resync?;
      assert more[i].Resync? && more[i + 1].Resync?;
    }
    if f.Resync? && EndsInResync(frames) {
      assert more[|frames| - 1].Resync? && more[|frames| - 1 + 1].Resync?;
    }
    if HasPair(more) {
      var i :| 0 <= i < |more| - 1 && more[i].Resync? && more[i + 1].Resync?;
      assert i < |frames| - 1 ==> frames[i].Resync? && frames[i + 1].Resync?;
    }
  }

  lemma {:induction false} PushLooms(s: State, ev: Event, limit: nat)
    requires ev.Enqueue? && !s.closed && HeadOnly(s)
    ensures var p := Pushed(s, ev.snapshot, limit);
            HeadOnly(p) && p.written == s.written && p.ended == s.ended && (!s.ended ==> (Looms(p) <==> Looms(s) || Redoubles(s, ev, limit)))
  {
  }

  /** A write ends the looming: the pair is there, or the socket takes nothing more. */
  lemma {:induction false} WriteLooms(s: State, outcome: Outcome)
    requires s.queue != [] && !s.closed && HeadOnly(s)
    ensures var n := WriteOne(s, outcome);
            && HeadOnly(n) && !Looms(n)
            && (if s.ended || outcome.Throws? then n.written == s.written && n.ended
                else |n.written| == |s.written| + 1 && n.ended == s.ended && (HasPair(n.written) <==> HasPair(s.written) || Looms(s)))
  {
    PairAppend(s.written, s.queue[0]);
  }

  /** What a step does: it writes nothing and looming persists, or it writes and what loomed has come. */
  predicate Resolves(s: State, t: State, looms: bool) {
    && HeadOnly(t) && |s.written| <= |t.written| && (s.ended ==> t.ended)
    && (if |t.written| > |s.written| then !s.ended && !Looms(t) && (HasPair(t.written) <==> HasPair(s.written) || looms)
        else t.written == s.written && (!t.ended ==> (Looms(t) <==> looms)))
  }

  lemma {:induction false} DrainLooms(s: State, outcomes: seq<Outcome>)
    requires HeadOnly(s)
    ensures Resolves(s, Drained(s, outcomes), Looms(s))
    decreases |outcomes|
  {
    if s.queue != [] && !s.closed && outcomes != [] {
      WriteLooms(s, outcomes[0]);
      if GoesOn(s, outcomes[0]) {
        DrainLooms(WriteOne(s, outcomes[0]), outcomes[1..]);
      }
    }
  }

  lemma {:induction false} StepLooms(s: State, ev: Event, limit: nat)
    requires HeadOnly(s)
    ensures Resolves(s, Step(s, ev, limit), !s.ended && (Looms(s) || Redoubles(s, ev, limit)))
  {
    match ev
    case Enqueue(snapshot, outcomes) =>
      if !s.closed {
        PushLooms(s, ev, limit);
        DrainLooms(Pushed(s, snapshot, limit), outcomes);
      }
    case Resume(outcomes) => DrainLooms(s, outcomes);
    case Close =>
    case PeerGone =>
  }

  /** Event `i` of the run is such an overflow, when `n` frames had been written. */
  predicate RedoublesAt(evs: seq<Event>, limit: nat, i: nat, n: nat) {
    i < |evs| && Redoubles(Run(START, evs[..i], limit), evs[i], limit) && |Run(START, evs[..i], limit).written| == n
  }

  lemma {:induction false} RedoublesLater(init: seq<Event>, ev: Event, limit: nat, i: nat, n: nat)
    requires i < |init|
    ensures RedoublesAt(init + [ev], limit, i, n) <==> RedoublesAt(init, limit, i, n)
  {
    assert (init + [ev])[..i] == init[..i];
  }

  lemma {:induction false} RedoublesNow(init: seq<Event>, ev: Event, limit: nat, n: nat)
    ensures var s := Run(START, init, limit);
            RedoublesAt(init + [ev], limit, |init|, n) <==> Redoubles(s, ev, limit) && |s.written| == n
  {
    assert (init + [ev])[..|init|] == init;
  }

  /** Over a run: the pairs written, and the one that looms, are exactly those such overflows made. */
  ghost predicate PairsAccounted(evs: seq<Event>, limit: nat, s: State) {
    && HeadOnly(s)
    && (HasPair(s.written) <==> exists i: nat, n: nat :: RedoublesAt(evs, limit, i, n) && n < |s.written|)
    && (!s.ended ==> (Looms(s) <==> exists i :: RedoublesAt(evs, limit, i, |s.written|)))
    && (forall i: nat, n: nat :: RedoublesAt(evs, limit, i, n) ==> n <= |s.written|)
  }

  lemma {:induction false} StepAccounts(init: seq<Event>, ev: Event, limit: nat, s: State)
    requires s == Run(START, init, limit) && PairsAccounted(init, limit, s)
    ensures PairsAccounted(init + [ev], limit, Step(s, ev, limit))
  {
    var t, evs := Step(s, ev, limit), init + [ev];
    StepLooms(s, ev, limit);
    forall i: nat, n: nat
      ensures RedoublesAt(evs, limit, i, n)
              <==> RedoublesAt(init, limit, i, n) || (i == |init| && Redoubles(s, ev, limit) && n == |s.written|)
    {
      if i < |init| {
        RedoublesLater(init, ev, limit, i, n);
      } else if i == |init| {
        RedoublesNow(init, ev, limit, n);
      }
    }
    Accounted(init, evs, limit, s, t, Redoubles(s, ev, limit));
  }

  lemma {:induction false} Accounted(init: seq<Event>, evs: seq<Event>, limit: nat, s: State, t: State, now: bool)
    requires PairsAccounted(init, limit, s) && Resolves(s, t, !s.ended && (Looms(s) || now))
    requires forall i: nat, n: nat :: RedoublesAt(evs, limit, i, n) <==> RedoublesAt(init, limit, i, n) || (i == |init| && now && n == |s.written|)
    ensures PairsAccounted(evs, limit, t)
  {
    if now {
      assert RedoublesAt(evs, limit, |init|, |s.written|);
    }
    if HasPair(s.written) {
      var i: nat, n: nat :| RedoublesAt(init, limit, i, n) && n < |s.written|;
      assert RedoublesAt(evs, limit, i, n);
    }
    if Looms(s) {
      var i :| RedoublesAt(init, limit, i, |s.written|);
      assert RedoublesAt(evs, limit, i, |s.written|);
    }
  }

  lemma {:induction false} RunAccounts(evs: seq<Event>, limit: nat)
    ensures PairsAccounted(evs, limit, Run(START, evs, limit))
  {
    if evs == [] {
      NothingAccounts(limit);
    } else {
      var init, ev := evs[..|evs| - 1], evs[|evs| - 1];
      var s := Run(START, init, limit);
      assert init + [ev] == evs && Run(START, evs, limit) == Step(s, ev, limit);
      RunAccounts(init, limit);
      StepAccounts(init, ev, limit, s);
    }
  }

  lemma {:induction false} NothingAccounts(limit: nat)
    ensures PairsAccounted([], limit, START)
  {
  }

  /** Over any run, a snapshot follows every resync that anything follows if and only if no overflow came while a resync
      was the last thing written and anything was written after it. */
  lemma {:induction false} SnapshotFollowsIff(evs: seq<Event>, limit: nat)
    ensures var w := Run(START, evs, limit).written;
            (forall i :: 0 <= i < |w| - 1 && w[i].Resync? ==> w[i + 1].Item? && w[i + 1].snapshot)
            <==> !exists i: nat, n: nat :: RedoublesAt(evs, limit, i, n) && n < |w|
  {
    RunAccounts(evs, limit);
    WrittenIsStream(evs, limit);
    FollowedIff(Run(START, evs, limit).written);
  }

  lemma {:induction false} FollowedIff(w: seq<Frame>)
    requires forall i :: 0 <= i < |w| - 1 ==> Follows(w[i], w[i + 1])
    ensures (forall i :: 0 <= i < |w| - 1 && w[i].Resync? ==> w[i + 1].Item? && w[i + 1].snapshot) <==> !HasPair(w)
  {
    if !HasPair(w) {
      forall i | 0 <= i < |w| - 1 && w[i].Resync?
        ensures w[i + 1].Item? && w[i + 1].snapshot
      {
        assert Follows(w[i], w[i + 1]);
      }
    }
  }

  // ---- a resync may follow a resync ----

  function Deltas(n: nat): seq<Event> { if n == 0 then [] else Deltas(n - 1) + [Enqueue(false, [])] }

  lemma {:induction false} RunSnoc(evs: seq<Event>, ev: Event, limit: nat)
    ensures Run(START, evs + [ev], limit) == Step(Run(START, evs, limit), ev, limit)
  {
    assert (evs + [ev])[..|evs|] == evs;
  }

  lemma {:induction false} OneMore(s: State, limit: nat)
    requires s.draining && !s.closed && !s.overflowed && |s.queue| < limit
    ensures Step(s, Enqueue(false, []), limit) == s.(queue := s.queue + [Item(s.enqueued, false)], enqueued := s.enqueued + 1)
  {
  }

  /** Events queue up behind a socket that is waiting. */
  lemma {:induction false} QueuesUp(evs: seq<Event>, n: nat, limit: nat)
    requires var s := Run(START, evs, limit); s.draining && !s.closed && !s.overflowed && |s.queue| + n <= limit
    ensures Queued(Run(START, evs, limit), Run(START, evs + Deltas(n), limit), n)
  {
    if n == 0 {
      assert evs + Deltas(0) == evs;
    } else {
      var less := evs + Deltas(n - 1);
      QueuesUp(evs, n - 1, limit);
      QueuesOne(Run(START, evs, limit), Run(START, less, limit), n - 1, limit);
      RunSnoc(less, Enqueue(false, []), limit);
      assert evs + Deltas(n) == less + [Enqueue(false, [])];
    }
  }

  predicate Queued(s: State, t: State, n: nat) { t == s.(queue := t.queue, enqueued := t.enqueued) && |t.queue| == |s.queue| + n }

  lemma {:induction false} QueuesOne(s: State, t: State, n: nat, limit: nat)
    requires s.draining && !s.closed && !s.overflowed && |s.queue| + n < limit && Queued(s, t, n)
    ensures Queued(s, Step(t, Enqueue(false, []), limit), n + 1)
  {
    OneMore(t, limit);
  }

  /** From a waiting connection with room for one event, overflow and a drain: a resync is written, and the socket waits. */
  lemma {:induction false} Overflows(evs: seq<Event>, limit: nat, last: Outcome) returns (next: seq<Event>)
    requires var s := Run(START, evs, limit); s.draining && !s.closed && !s.overflowed && !s.ended && |s.queue| <= limit
    requires limit >= 1 && !last.Throws?
    ensures var s, t := Run(START, evs, limit), Run(START, next, limit);
            t.written == s.written + [Resync] && t.queue == [] && t.overflowed && !t.closed && !t.ended && (last.Backpressure? ==> t.draining)
  {
    var room := limit - |Run(START, evs, limit).queue|;
    QueuesUp(evs, room, limit);
    var full := evs + Deltas(room);
    RunSnoc(full, Enqueue(false, []), limit);
    var over := full + [Enqueue(false, [])];
    assert Run(START, over, limit).queue == [Resync];
    next := over + [Resume([last])];
    RunSnoc(over, Resume([last]), limit);
    var s := Run(START, over, limit);
    assert Drained(WriteOne(s, last), []) == WriteOne(s, last).(draining := false);
    assert [last][1..] == [];
  }

  /** A queue without room collapses every event it takes. */
  lemma {:induction false} Collapses(s: State, snapshot: bool)
    requires s.queue == [] && !s.draining && !s.closed && !s.ended && (s.overflowed ==> snapshot)
    ensures Step(s, Enqueue(snapshot, [Flowing]), 0) == s.(overflowed := true, written := s.written + [Resync], enqueued := s.enqueued + 1)
  {
    var p := Pushed(s, snapshot, 0);
    var next := WriteOne(p, Flowing);
    assert [Flowing][1..] == [] && p.queue[1..] == [];
    assert Drained(next, []) == next;
    assert Drained(p, [Flowing]) == Drained(next, []);
  }

  lemma {:induction false} WithoutRoom()
    ensures EndsInTwoResyncs(Run(START, [Enqueue(false, [Flowing])] + [Enqueue(true, [Flowing])], 0).written)
  {
    RunSnoc([], Enqueue(false, [Flowing]), 0);
    assert [] + [Enqueue(false, [Flowing])] == [Enqueue(false, [Flowing])];
    Collapses(START, false);
    RunSnoc([Enqueue(false, [Flowing])], Enqueue(true, [Flowing]), 0);
    Collapses(Run(START, [Enqueue(false, [Flowing])], 0), true);
  }

  /** Whatever the limit, the frame after a resync need not be a snapshot: when the queue overflows again before the
      snapshot that answered the first resync is written, a second resync follows directly. */
  lemma {:induction false} ResyncAfterResync(limit: nat)
    ensures exists evs :: EndsInTwoResyncs(Run(START, evs, limit).written)
  {
    if limit == 0 {
      WithoutRoom();
    } else {
      var evs := OverflowsTwice(limit);
    }
  }

  lemma {:induction false} OverflowsTwice(limit: nat) returns (evs: seq<Event>)
    requires limit >= 1
    ensures EndsInTwoResyncs(Run(START, evs, limit).written)
  {
    var first := [Enqueue(false, [Backpressure])];
    RunSnoc([], first[0], limit);
    assert [] + first == first;
    assert Run(START, first, limit) == State([], true, false, false, false, [Item(0, false)], 1);
    var once := Overflows(first, limit, Backpressure);
    var answered := once + [Enqueue(true, [])];
    RunSnoc(once, Enqueue(true, []), limit);
    evs := Overflows(answered, limit, Flowing);
  }

  predicate EndsInTwoResyncs(w: seq<Frame>) { |w| >= 2 && w[|w| - 1].Resync? && w[|w| - 2].Resync? }

  // ---- the connection object ----

  class Connection {
    const queueLimit: nat
    var queue: seq<Frame>
    var draining: bool
    var closed: bool
    var overflowed: bool
    var ended: bool
    var enqueued: nat
    ghost var written: seq<Frame>

    ghost function View(): State
      reads this
    {
      State(queue, draining, closed, overflowed, ended, written, enqueued)
    }

    constructor (queueLimit: nat)
      ensures View() == START && this.queueLimit == queueLimit
    {
      this.queueLimit := queueLimit;
      queue, draining, closed, overflowed, ended, enqueued, written := [], false, false, false, false, 0, [];
    }

    method Offer(snapshot: bool, outcomes: seq<Outcome>)
      modifies this
      ensures View() == Step(old(View()), Enqueue(snapshot, outcomes), queueLimit)
    {
      if closed {
        return;
      }
      var index := enqueued;
      enqueued := enqueued + 1;
      var dropped := false;
      if overflowed {
        if !snapshot {
          dropped := true;
        } else {
          overflowed := false;
        }
      }
      if !dropped {
        if |queue| >= queueLimit {
          queue := [Resync];
          overflowed := true;
        } else {
          queue := queue + [Item(index, snapshot)];
        }
      }
      if !draining {
        Drain(outcomes);
      }
    }

    /** Writes until the queue is empty, the connection closes, or the socket asks to wait. */
    method Drain(outcomes: seq<Outcome>)
      modifies this
      ensures View() == Drained(old(View()), outcomes)
    {
      var n := 0;
      ghost var start := View();
      assert outcomes[0..] == outcomes;
      while |queue| > 0 && !closed && n < |outcomes|
        invariant 0 <= n <= |outcomes|
        invariant Drained(View(), outcomes[n..]) == Drained(start, outcomes)
      {
        ghost var before := View();
        var flowing := WriteNext(outcomes[n]);
        assert outcomes[n..][1..] == outcomes[n + 1..];
        n := n + 1;
        if !flowing {
          draining := true;
          return;
        }
      }
      draining := |queue| > 0 && !closed;
    }

    /** Takes the first frame off the queue and writes it. */
    method WriteNext(outcome: Outcome) returns (flowing: bool)
      requires queue != [] && !closed
      modifies this
      ensures View() == WriteOne(old(View()), outcome) && flowing == GoesOn(old(View()), outcome)
    {
      var next := queue[0];
      queue := queue[1..];
      if ended {
        return true;
      }
      if outcome.Throws? {
        Shut();
        return true;
      }
      written := written + [next];
      flowing := outcome.Flowing?;
    }

    /** The socket drained, closed or failed: the loop goes on. */
    method OnDrain(outcomes: seq<Outcome>)
      modifies this
      ensures View() == Step(old(View()), Resume(outcomes), queueLimit)
    {
      if draining {
        Drain(outcomes);
      }
    }

    /** Drops everything queued and ends the response; idempotent. */
    method Shut()
      modifies this
      ensures View() == Closed(old(View()))
    {
      if closed {
        return;
      }
      closed, queue, ended := true, [], true;
    }
  }
}
