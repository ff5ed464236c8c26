/** The fixed-window limiter used when the shared one is unavailable. */
module RateLimit {
  import opened Options

  datatype Rule = Rule(max: nat, windowMs: nat)

  datatype Window = Window(count: nat, resetAt: int)

  datatype Decision = Decision(allowed: bool, retryAfterSec: int)

  /** Sweeping starts at this many keys. */
  const SWEEP_AT: nat := 10000

  predicate Over(w: Option<Window>, now: int) { w.None? || w.value.resetAt <= now }

  function HitWindow(w: Option<Window>, rule: Rule, now: int): Window {
    if Over(w, now) then Window(1, now + rule.windowMs) else w.value.(count := w.value.count + 1)
  }

  /** The first hit of a window always passes. */
  function Allowed(w: Option<Window>, rule: Rule, now: int): bool { Over(w, now) || w.value.count + 1 <= rule.max }

  function Seconds(ms: int): int { (ms + 999) / 1000 }

  function Decide(w: Option<Window>, rule: Rule, now: int): Decision {
    Decision(Allowed(w, rule, now), if Over(w, now) then 0 else Seconds(w.value.resetAt - now))
  }

  type Windows = map<string, Window>

  function Get(m: Windows, key: string): Option<Window> { if key in m then Some(m[key]) else None }

  function Swept(m: Windows, now: int): Windows {
    if |m| < SWEEP_AT then m else map k | k in m && m[k].resetAt > now :: m[k]
  }

  class InProcessLimiter {
    var windows: Windows

    constructor ()
      ensures windows == map[]
    {
      windows := map[];
    }

    method Hit(key: string, rule: Rule, now: int) returns (d: Decision)
      modifies this
      ensures d == Decide(Get(old(windows), key), rule, now)
      ensures windows == old(windows)[key := HitWindow(Get(old(windows), key), rule, now)]
    {
      if key !in windows || windows[key].resetAt <= now {
        windows := windows[key := Window(1, now + rule.windowMs)];
        return Decision(true, 0);
      }
      var w := windows[key].(count := windows[key].count + 1);
      windows := windows[key := w];
      d := Decision(w.count <= rule.max, Seconds(w.resetAt - now));
    }

    method Sweep(now: int)
      modifies this
      ensures windows == Swept(old(windows), now)
      ensures |old(windows)| < 10000 ==> windows == old(windows)
      ensures |old(windows)| >= 10000
              ==> forall k :: (k in windows <==> k in old(windows) && old(windows)[k].resetAt > now) && (k in windows ==> windows[k] == old(windows)[k])
    {
      if |windows| < SWEEP_AT {
        return;
      }
      ghost var before := windows;
      var keys := windows.Keys;
      while keys != {}
        invariant keys <= before.Keys
        invariant forall k :: k in windows <==> k in before && (k in keys || before[k].resetAt > now)
        invariant forall k :: k in windows ==> windows[k] == before[k]
        decreases |keys|
      {
        var k :| k in keys;
        keys := keys - {k};
        if windows[k].resetAt <= now {
          windows := windows - {k};
        }
      }
    }
  }

  // ---- sweeping changes no decision ----

  datatype Event = HitAt(key: string, rule: Rule, now: int) | SweepAt(now: int)

  predicate Ordered(evs: seq<Event>) { forall i, k :: 0 <= i < k < |evs| ==> evs[i].now <= evs[k].now }

  function After(evs: seq<Event>, sweeping: bool): Windows {
    if evs == [] then map[]
    else
      var m, e := After(evs[..|evs| - 1], sweeping), evs[|evs| - 1];
      match e
      case HitAt(key, rule, now) => m[key := HitWindow(Get(m, key), rule, now)]
      case SweepAt(now) => if sweeping then Swept(m, now) else m
  }

  /** The swept map lacks only windows that are over. */
  ghost predicate Same(swept: Windows, full: Windows, now: int) {
    forall k :: (k in swept ==> k in full && full[k] == swept[k]) && (k in full && k !in swept ==> full[k].resetAt <= now)
  }

  lemma {:induction false} SweepsInvisible(evs: seq<Event>, key: string, rule: Rule, now: int)
    requires Ordered(evs) && forall i :: 0 <= i < |evs| ==> evs[i].now <= now
    ensures Decide(Get(After(evs, true), key), rule, now) == Decide(Get(After(evs, false), key), rule, now)
    ensures HitWindow(Get(After(evs, true), key), rule, now) == HitWindow(Get(After(evs, false), key), rule, now)
  {
    SweptSame(evs, now);
  }

  lemma {:induction false} SweptSame(evs: seq<Event>, now: int)
    requires Ordered(evs) && forall i :: 0 <= i < |evs| ==> evs[i].now <= now
    ensures Same(After(evs, true), After(evs, false), now)
  {
    if evs != [] {
      var last := evs[|evs| - 1];
      SweptSame(evs[..|evs| - 1], last.now);
    }
  }

  // ---- how many hits pass ----

  /** The window a sequence of hits of one key leaves. */
  function WindowAfter(times: seq<int>, rule: Rule): Option<Window> {
    if times == [] then None
    else Some(HitWindow(WindowAfter(times[..|times| - 1], rule), rule, times[|times| - 1]))
  }

  /** How many of the hits at or after `from` passed. */
  function PassedSince(times: seq<int>, rule: Rule, from: int): nat {
    if times == [] then 0
    else
      var front, last := times[..|times| - 1], times[|times| - 1];
      PassedSince(front, rule, from) + (if last >= from && Allowed(WindowAfter(front, rule), rule, last) then 1 else 0)
  }

  predicate Sorted(times: seq<int>) { forall i, k :: 0 <= i < k < |times| ==> times[i] <= times[k] }

  function Cap(rule: Rule): nat { if rule.max == 0 then 1 else rule.max }

  function Min(a: nat, b: nat): nat { if a < b then a else b }

  /** How many have passed since `from`, by where the current window began. */
  lemma {:induction false} PassedBound(times: seq<int>, rule: Rule, from: int)
    requires times != [] && Sorted(times) && rule.windowMs > 0 && times[|times| - 1] <= from + rule.windowMs
    ensures var w := WindowAfter(times, rule).value;
            var start, n := w.resetAt - rule.windowMs, PassedSince(times, rule, from);
            && start <= times[|times| - 1] < w.resetAt && w.count >= 1
            && (times[|times| - 1] < from ==> n == 0)
            && n <= Min(w.count, Cap(rule)) + (if start > from then Cap(rule) else 0)
  {
    var front := times[..|times| - 1];
    if front != [] {
      assert times[|times| - 2] <= times[|times| - 1];
      PassedBound(front, rule, from);
    }
  }

  /** At most twice the limit passes in any closed interval of one window length (the limit taken to be at least 1). */
  lemma {:induction false} TwiceAtMost(times: seq<int>, rule: Rule, from: int)
    requires Sorted(times) && rule.windowMs > 0 && forall i :: 0 <= i < |times| ==> times[i] <= from + rule.windowMs
    ensures PassedSince(times, rule, from) <= 2 * Cap(rule)
  {
    if times != [] {
      PassedBound(times, rule, from);
    }
  }

  /** At most the limit passes within one window. */
  lemma {:induction false} OncePerWindow(times: seq<int>, rule: Rule)
    requires times != [] && Sorted(times) && rule.windowMs > 0
    ensures var w := WindowAfter(times, rule).value; PassedSince(times, rule, w.resetAt - rule.windowMs) <= Cap(rule)
  {
    StartedBefore(times, rule);
    PassedBound(times, rule, WindowAfter(times, rule).value.resetAt - rule.windowMs);
  }

  lemma {:induction false} StartedBefore(times: seq<int>, rule: Rule)
    requires times != [] && Sorted(times) && rule.windowMs > 0
    ensures var w := WindowAfter(times, rule).value; w.resetAt - rule.windowMs <= times[|times| - 1] < w.resetAt
  {
    var front := times[..|times| - 1];
    if front != [] {
      assert times[|times| - 2] <= times[|times| - 1];
      StartedBefore(front, rule);
    }
  }

  /** Hit `i` opened a window: it is the first, or the first hit past the end of the window an earlier one opened. */
  ghost predicate Opens(times: seq<int>, rule: Rule, i: nat)
    requires i < |times|
  {
    i == 0 || exists o: nat :: o < i && Opens(times, rule, o) && ShareWindow(times, rule, o, i) && times[i] >= times[o] + rule.windowMs
  }

  /** Every hit after `o` and before `n` came before the window of `o` ended. */
  predicate ShareWindow(times: seq<int>, rule: Rule, o: nat, n: nat) {
    n <= |times| && forall k :: o < k < n ==> times[k] < times[o] + rule.windowMs
  }

  lemma {:induction false} SharesLonger(times: seq<int>, rule: Rule, t: int, o: nat, n: nat)
    requires o < |times| && n <= |times|
    ensures ShareWindow(times + [t], rule, o, n) <==> ShareWindow(times, rule, o, n)
  {
    assert forall k :: 0 <= k < |times| ==> (times + [t])[k] == times[k];
  }

  lemma {:induction false} OpensLonger(times: seq<int>, rule: Rule, t: int, i: nat)
    requires i < |times|
    ensures Opens(times + [t], rule, i) <==> Opens(times, rule, i)
  {
    if i > 0 {
      forall o: nat | o < i
        ensures Opens(times + [t], rule, o) <==> Opens(times, rule, o)
        ensures ShareWindow(times + [t], rule, o, i) <==> ShareWindow(times, rule, o, i)
      {
        OpensLonger(times, rule, t, o);
        SharesLonger(times, rule, t, o, i);
      }
    }
  }

  /** One more hit stays in the window, or opens the next. */
  lemma {:induction false} NextWindow(front: seq<int>, rule: Rule, t: int, o: nat) returns (next: nat)
    requires o < |front| && Opens(front, rule, o) && ShareWindow(front, rule, o, |front|)
    ensures next == if t >= front[o] + rule.windowMs then |front| else o
    ensures Opens(front + [t], rule, next) && ShareWindow(front + [t], rule, next, |front| + 1)
  {
    OpensLonger(front, rule, t, o);
    SharesLonger(front, rule, t, o, |front|);
    next := if t >= front[o] + rule.windowMs then |front| else o;
    assert (front + [t])[o] == front[o] && (front + [t])[|front|] == t;
  }

  /** The window is the one hit `o` opened: it counts every hit since, and ends one length after it. */
  ghost predicate IsWindow(w: Option<Window>, times: seq<int>, rule: Rule, o: nat) {
    && o < |times| && Opens(times, rule, o) && ShareWindow(times, rule, o, |times|)
    && w == Some(Window(|times| - o, times[o] + rule.windowMs))
  }

  lemma {:induction false} OpensFirst(t: int, rule: Rule)
    ensures IsWindow(WindowAfter([t], rule), [t], rule, 0)
  {
    assert [t][..0] == [];
  }

  lemma {:induction false} WindowStep(front: seq<int>, rule: Rule, t: int, o: nat) returns (next: nat)
    requires front != [] && IsWindow(WindowAfter(front, rule), front, rule, o)
    ensures IsWindow(WindowAfter(front + [t], rule), front + [t], rule, next)
  {
    next := NextWindow(front, rule, t, o);
    assert (front + [t])[..|front|] == front;
  }

  /** Hits leave the window that one of them opened. */
  lemma {:induction false} WindowIs(times: seq<int>, rule: Rule) returns (o: nat)
    requires times != []
    ensures IsWindow(WindowAfter(times, rule), times, rule, o)
    decreases |times|
  {
    var front, last := times[..|times| - 1], times[|times| - 1];
    assert front + [last] == times;
    if front == [] {
      o := 0;
      OpensFirst(last, rule);
    } else {
      o := WindowIs(front, rule);
      o := WindowStep(front, rule, last, o);
    }
  }

  /** The next hit of a key passes exactly if it is past the end of the window it would fall in, or fewer than the limit
      have come since that window was opened - so the limit's worth does pass; in a window, the wait is the least whole
      number of seconds to its end. */
  lemma {:induction false} PassesIff(times: seq<int>, rule: Rule, now: int) returns (o: nat)
    requires times != []
    ensures o < |times| && Opens(times, rule, o) && ShareWindow(times, rule, o, |times|)
    ensures var d, left := Decide(WindowAfter(times, rule), rule, now), times[o] + rule.windowMs - now;
            && (d.allowed <==> left <= 0 || |times| - o < rule.max)
            && (left <= 0 ==> d.retryAfterSec == 0)
            && (left > 0 ==> (d.retryAfterSec - 1) * 1000 < left <= d.retryAfterSec * 1000)
  {
    o := WindowIs(times, rule);
  }

  /** The first hit passes. */
  lemma {:induction false} FirstPasses(rule: Rule, now: int)
    ensures Decide(WindowAfter([], rule), rule, now) == Decision(true, 0)
  {
  }

  // ---- one key among many ----

  function TimesOf(evs: seq<Event>, key: string): seq<int> {
    if evs == [] then []
    else
      var rest, e := TimesOf(evs[..|evs| - 1], key), evs[|evs| - 1];
      if e.HitAt? && e.key == key then rest + [e.now] else rest
  }

  /** A key's window depends on its own hits alone: other keys and, by the above, sweeps do not matter. */
  lemma {:induction false} OwnHitsOnly(evs: seq<Event>, key: string, rule: Rule)
    requires forall i :: 0 <= i < |evs| && evs[i].HitAt? && evs[i].key == key ==> evs[i].rule == rule
    ensures Get(After(evs, false), key) == WindowAfter(TimesOf(evs, key), rule)
  {
    if evs != [] {
      var e, rest := evs[|evs| - 1], TimesOf(evs[..|evs| - 1], key);
      OwnHitsOnly(evs[..|evs| - 1], key, rule);
      if e.HitAt? && e.key == key {
        assert (rest + [e.now])[..|rest|] == rest;
      }
    }
  }
}
