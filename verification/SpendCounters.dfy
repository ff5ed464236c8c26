/** The shared spend counters: key names, and the scripts that move a counter or its pending reservation. */
module SpendCounters {
  import opened Text
  import opened Period
  import opened Rounding

  datatype Scope = Global | Agent

  datatype Basis = Notional | Cash

  // ---- key names ----

  function WindowName(w: Window): string {
    match w
    case Day => "day"
    case Week => "week"
    case Month => "month"
  }

  function ScopeName(s: Scope): string { if s.Global? then "global" else "agent" }

  /** `notional` keeps the key shape it had before there was a second basis. */
  function KeyParts(owner: string, scope: Scope, scopeId: string, window: Window, periodId: string, basis: Basis): seq<string> {
    ["budget", owner, ScopeName(scope), scopeId, WindowName(window)] + (if basis.Cash? then ["cash"] else []) + [periodId]
  }

  function Key(owner: string, scope: Scope, scopeId: string, window: Window, periodId: string, basis: Basis): string {
    Join(KeyParts(owner, scope, scopeId, window, periodId, basis), ':')
  }

  /** The reservation beside a spend key, in the same cluster slot. */
  function PendingKeyFor(spendKey: string): string { "{" + spendKey + "}:pending" }

  predicate IsSpendKey(k: string) { |k| > 0 && k[0] == 'b' }

  lemma {:induction false} PendingKeyInjective(a: string, b: string)
    requires PendingKeyFor(a) == PendingKeyFor(b)
    ensures a == b
  {
    var p, q := PendingKeyFor(a), PendingKeyFor(b);
    assert |a| == |p| - 10 && |b| == |q| - 10;
    assert a == p[1..|a| + 1] == q[1..|b| + 1] == b;
  }

  /** A reservation never sits on a spend key, so neither overwrites the other. */
  lemma {:induction false} PendingIsNoSpendKey(a: string, k: string)
    requires IsSpendKey(k)
    ensures PendingKeyFor(a) != k
  {
    assert PendingKeyFor(a)[0] == '{';
  }

  lemma {:induction false} KeyIsSpendKey(owner: string, scope: Scope, scopeId: string, window: Window, periodId: string, basis: Basis)
    ensures IsSpendKey(Key(owner, scope, scopeId, window, periodId, basis))
  {
    var p := KeyParts(owner, scope, scopeId, window, periodId, basis);
    assert Key(owner, scope, scopeId, window, periodId, basis) == p[0] + [':'] + Join(p[1..], ':');
  }

  lemma {:induction false} PlainKeyParts(owner: string, scope: Scope, scopeId: string, window: Window, periodId: string, basis: Basis)
    requires Without(owner, ':') && Without(scopeId, ':') && Without(periodId, ':')
    ensures AllWithout(KeyParts(owner, scope, scopeId, window, periodId, basis), ':')
  {
    assert Without("budget", ':') && Without("cash", ':');
    assert Without(ScopeName(scope), ':') && Without(WindowName(window), ':');
  }

  lemma {:induction false} NamesDiffer(s: Scope, s': Scope, w: Window, w': Window)
    ensures ScopeName(s) == ScopeName(s') ==> s == s'
    ensures WindowName(w) == WindowName(w') ==> w == w'
  {
    assert "global"[0] != "agent"[0];
    assert "day"[0] != "week"[0] && "day"[0] != "month"[0] && "week"[0] != "month"[0];
  }

  /** Two counters share a key only if everything they meter is the same. */
  lemma {:induction false} KeyInjective(owner: string, scope: Scope, scopeId: string, window: Window, periodId: string, basis: Basis,
                     owner': string, scope': Scope, scopeId': string, window': Window, periodId': string, basis': Basis)
    requires Without(owner, ':') && Without(scopeId, ':') && Without(periodId, ':')
    requires Without(owner', ':') && Without(scopeId', ':') && Without(periodId', ':')
    ensures Key(owner, scope, scopeId, window, periodId, basis) == Key(owner', scope', scopeId', window', periodId', basis')
            <==> owner == owner' && scope == scope' && scopeId == scopeId' && window == window' && periodId == periodId' && basis == basis'
  {
    var p, q := KeyParts(owner, scope, scopeId, window, periodId, basis), KeyParts(owner', scope', scopeId', window', periodId', basis');
    if Join(p, ':') == Join(q, ':') {
      PlainKeyParts(owner, scope, scopeId, window, periodId, basis);
      PlainKeyParts(owner', scope', scopeId', window', periodId', basis');
      JoinInjective(p, q, ':');
      NamesDiffer(scope, scope', window, window');
      assert |p| == if basis.Cash? then 7 else 6;
      assert p[1] == q[1] && p[2] == q[2] && p[3] == q[3] && p[4] == q[4] && p[|p| - 1] == q[|q| - 1];
    }
  }

  lemma {:induction false} OneField(field: string, rest: seq<string>)
    requires rest != []
    ensures Join([field] + rest, ':') == field + ":" + Join(rest, ':')
  {
    assert ([field] + rest)[1..] == rest;
  }

  lemma {:induction false} ThreeFields(a: string, b: string, c: string, rest: seq<string>)
    requires rest != []
    ensures Join([a, b, c] + rest, ':') == a + ":" + b + ":" + c + ":" + Join(rest, ':')
  {
    OneField(a, [b, c] + rest);
    OneField(b, [c] + rest);
    OneField(c, rest);
    assert [a] + ([b, c] + rest) == [a, b, c] + rest && [b] + ([c] + rest) == [b, c] + rest;
  }

  /** The text of a key: its segments after `budget`, with `cash` before the period where that is the basis. */
  lemma {:induction false} KeyText(owner: string, scope: Scope, scopeId: string, window: Window, periodId: string, basis: Basis)
    ensures Key(owner, scope, scopeId, window, periodId, basis)
            == "budget" + ":" + owner + ":" + (if scope.Global? then "global" else "agent") + ":"
               + (scopeId + ":" + (match window case Day => "day" case Week => "week" case Month => "month") + ":"
                  + (if basis.Cash? then "cash" + ":" + periodId else periodId))
  {
    var end := (if basis.Cash? then ["cash"] else []) + [periodId];
    var rest := [scopeId, WindowName(window)] + end;
    assert KeyParts(owner, scope, scopeId, window, periodId, basis) == ["budget", owner, ScopeName(scope)] + rest;
    ThreeFields("budget", owner, ScopeName(scope), rest);
    RestText(scopeId, window, periodId, basis);
  }

  lemma {:induction false} RestText(scopeId: string, window: Window, periodId: string, basis: Basis)
    ensures Join([scopeId, WindowName(window)] + ((if basis.Cash? then ["cash"] else []) + [periodId]), ':')
            == scopeId + ":" + WindowName(window) + ":" + (if basis.Cash? then "cash" + ":" + periodId else periodId)
  {
    var end := (if basis.Cash? then ["cash"] else []) + [periodId];
    OneField(scopeId, [WindowName(window)] + end);
    OneField(WindowName(window), end);
    assert [scopeId] + ([WindowName(window)] + end) == [scopeId, WindowName(window)] + end;
    if basis.Cash? {
      OneField("cash", [periodId]);
    }
  }

  /** The id of a calendar period may stand in a key. */
  lemma {:induction false} PeriodIdPlain(window: Window, at: nat)
    ensures Without(PeriodOf(window, at).periodId, ':')
  {
    PlainParts(window, at / DAY_MS);
    JoinWithout(IdParts(window, at / DAY_MS), '-', ':');
  }

  // ---- the store ----

  type Store = map<string, nat>

  /** A missing counter reads as zero. */
  function Read(store: Store, key: string): nat { if key in store then store[key] else 0 }

  function Pending(store: Store, spendKey: string): nat { Read(store, PendingKeyFor(spendKey)) }

  predicate Admits(store: Store, spendKey: string, amountMicros: int, ceilingMicros: int) {
    Read(store, spendKey) + Pending(store, spendKey) + NonNegative(ceilingMicros) <= NonNegative(amountMicros)
  }

  function SetPending(store: Store, spendKey: string, v: nat): Store { store[PendingKeyFor(spendKey) := v] }

  /** Moving one reservation moves no spend and no other reservation. */
  lemma {:induction false} SetPendingMoves(store: Store, spendKey: string, v: nat, k: string)
    ensures Pending(SetPending(store, spendKey, v), k) == if k == spendKey then v else Pending(store, k)
    ensures IsSpendKey(k) ==> Read(SetPending(store, spendKey, v), k) == Read(store, k)
  {
    if k != spendKey && PendingKeyFor(k) == PendingKeyFor(spendKey) {
      PendingKeyInjective(k, spendKey);
    }
    if IsSpendKey(k) {
      PendingIsNoSpendKey(spendKey, k);
    }
  }

  /** The counters, one script at a time. Expiry of keys is left out: a counter outlives its period. */
  class SpendCounter {
    var store: Store

    constructor ()
      ensures store == map[]
    {
      store := map[];
    }

    /** Spend and pending of each key, in order. */
    method ReadWithPending(spendKeys: seq<string>) returns (values: seq<(nat, nat)>)
      ensures |values| == |spendKeys|
      ensures forall i :: 0 <= i < |spendKeys| ==> values[i] == (Read(store, spendKeys[i]), Pending(store, spendKeys[i]))
    {
      values := [];
      var i := 0;
      while i < |spendKeys|
        invariant 0 <= i == |values| <= |spendKeys|
        invariant forall k :: 0 <= k < i ==> values[k] == (Read(store, spendKeys[k]), Pending(store, spendKeys[k]))
      {
        values := values + [(Read(store, spendKeys[i]), Pending(store, spendKeys[i]))];
        i := i + 1;
      }
    }

    /** Admit, and then reserve, in one script. */
    method CheckAndReserve(spendKey: string, amountMicros: int, ceilingMicros: int)
        returns (admitted: bool, spend: nat, pending: nat)
      modifies this
      ensures admitted == Admits(old(store), spendKey, amountMicros, ceilingMicros)
      ensures admitted <==> spend + pending + (if ceilingMicros < 0 then 0 else ceilingMicros) <= if amountMicros < 0 then 0 else amountMicros
      ensures spend == Read(old(store), spendKey) && pending == Pending(old(store), spendKey)
      ensures store == if admitted then SetPending(old(store), spendKey, pending + NonNegative(ceilingMicros)) else old(store)
    {
      spend, pending := Read(store, spendKey), Pending(store, spendKey);
      var ceiling, amount := NonNegative(ceilingMicros), NonNegative(amountMicros);
      if spend + pending + ceiling > amount {
        return false, spend, pending;
      }
      store := store[PendingKeyFor(spendKey) := pending + ceiling];
      admitted := true;
    }

    /** Subtract, floored at zero. */
    method Release(spendKey: string, micros: int) returns (left: nat)
      modifies this
      ensures left == NonNegative(Pending(old(store), spendKey) - NonNegative(micros))
      ensures store == SetPending(old(store), spendKey, left)
    {
      var v := Pending(store, spendKey) - NonNegative(micros);
      if v < 0 {
        v := 0;
      }
      store := store[PendingKeyFor(spendKey) := v];
      left := v;
    }

    method ReconcilePending(spendKey: string, micros: int)
      modifies this
      ensures store == SetPending(old(store), spendKey, NonNegative(micros))
    {
      store := store[PendingKeyFor(spendKey) := NonNegative(micros)];
    }

    /** Raise the counter to the snapshot, never lower it; a missing counter is created even at zero. */
    method ReconcileMax(key: string, micros: int) returns (result: nat)
      modifies this
      ensures result >= Read(old(store), key) && result >= micros && result in {Read(old(store), key), NonNegative(micros)}
      ensures store == old(store)[key := result]
    {
      var exists_, c, v := key in store, Read(store, key), NonNegative(micros);
      if v > c || !exists_ {
        store := store[key := v];
      }
      result := if v > c then v else c;
    }
  }
}
