/** Block enforcement: which budgets govern an agent, and the all-or-nothing reservation of a batch ceiling. */
module BudgetService {
  import opened Options
  import opened Rounding
  import opened Period
  import opened SpendCounters

  datatype Action = Alert | Block

  datatype Budget = Budget(
    owner: string, scope: Scope, agentId: Option<string>, window: Window, basis: Basis,
    action: Action, enabled: bool, amount: real)

  /** The table's CHECK: an agent budget has an agent, a global one has none. */
  predicate BudgetOk(b: Budget) { b.scope.Agent? <==> b.agentId.Some? }

  /** USD to whole micro-dollars. */
  function ToMicros(usd: real): int { Round(usd * 1000000.0) }

  predicate Applies(b: Budget, agentId: Option<string>) {
    b.scope.Global? || (b.scope.Agent? && agentId.Some? && agentId == b.agentId)
  }

  predicate Governs(b: Budget, agentId: Option<string>) { b.enabled && b.action.Block? && Applies(b, agentId) }

  function ScopeIdOf(b: Budget): string { if b.scope.Agent? then b.agentId.GetOr("global") else "global" }

  /** The counter a budget meters at an instant. */
  function KeyFor(b: Budget, at: nat): (key: string)
    ensures IsSpendKey(key)
  {
    KeyIsSpendKey(b.owner, b.scope, ScopeIdOf(b), b.window, PeriodOf(b.window, at).periodId, b.basis);
    Key(b.owner, b.scope, ScopeIdOf(b), b.window, PeriodOf(b.window, at).periodId, b.basis)
  }

  // ---- groups of budgets on one counter ----

  datatype Group = Group(key: string, budgets: seq<Budget>)

  /** Which counter each budget meters; grouping does not depend on how its name is built. */
  type Keying = Budget -> string

  function KeyingAt(at: nat): Keying { b => KeyFor(b, at) }

  predicate DistinctKeys(groups: seq<Group>) {
    forall i, j :: 0 <= i < j < |groups| ==> groups[i].key != groups[j].key
  }

  /** Every budget is in the group of its key, and a group holds nothing else. */
  ghost predicate Partitions(groups: seq<Group>, budgets: seq<Budget>, key: Keying) {
    && DistinctKeys(groups)
    && (forall i :: 0 <= i < |groups| ==> groups[i].budgets != [])
    && (forall i, b :: 0 <= i < |groups| ==> (b in groups[i].budgets <==> b in budgets && key(b) == groups[i].key))
    && (forall b :: b in budgets ==> HasKey(groups, key(b)))
  }

  predicate HasKey(groups: seq<Group>, key: string) { exists i :: 0 <= i < |groups| && groups[i].key == key }

  /** The governing budgets, in the order they are listed. */
  function GoverningOf(all: seq<Budget>, agentId: Option<string>): (matched: seq<Budget>)
    ensures forall b :: b in matched <==> b in all && Governs(b, agentId)
  {
    if all == [] then []
    else
      var rest, last := GoverningOf(all[..|all| - 1], agentId), all[|all| - 1];
      assert all == all[..|all| - 1] + [last];
      if Governs(last, agentId) then rest + [last] else rest
  }

  predicate Among(matched: seq<Budget>, i: nat, b: Budget) { i <= |matched| && exists m :: 0 <= m < i && matched[m] == b }

  /** The governing budgets keep their order: those listed before the place of one of them come before it. */
  lemma {:induction false} GoverningInOrder(all: seq<Budget>, agentId: Option<string>, i: nat) returns (at: nat)
    requires i < |GoverningOf(all, agentId)|
    ensures at < |all| && all[at] == GoverningOf(all, agentId)[i] && Governs(all[at], agentId)
    ensures forall k :: 0 <= k < at && Governs(all[k], agentId) ==> Among(GoverningOf(all, agentId), i, all[k])
    decreases |all|
  {
    var front := all[..|all| - 1];
    var matched, rest := GoverningOf(all, agentId), GoverningOf(front, agentId);
    assert |rest| <= |matched| && forall m :: 0 <= m < |rest| ==> matched[m] == rest[m];
    if i < |rest| {
      at := GoverningInOrder(front, agentId, i);
    } else {
      at := |all| - 1;
    }
    forall k | 0 <= k < at && Governs(all[k], agentId)
      ensures Among(matched, i, all[k])
    {
      assert front[k] == all[k];
      if i < |rest| {
        assert Among(rest, i, front[k]);
      } else {
        assert all[k] in rest;
      }
    }
  }

  method Matching(all: seq<Budget>, agentId: Option<string>) returns (matched: seq<Budget>)
    ensures matched == GoverningOf(all, agentId)
  {
    matched := [];
    var i := 0;
    while i < |all|
      invariant 0 <= i <= |all|
      invariant matched == GoverningOf(all[..i], agentId)
    {
      assert all[..i + 1][..i] == all[..i];
      if Governs(all[i], agentId) {
        matched := matched + [all[i]];
      }
      i := i + 1;
    }
    assert all[..i] == all;
  }

  method FindGroup(groups: seq<Group>, key: string) returns (at: nat)
    ensures at <= |groups| && (at < |groups| ==> groups[at].key == key)
    ensures at == |groups| ==> !HasKey(groups, key)
  {
    at := 0;
    while at < |groups| && groups[at].key != key
      invariant 0 <= at <= |groups|
      invariant forall k :: 0 <= k < at ==> groups[k].key != key
    {
      at := at + 1;
    }
  }

  lemma {:induction false} JoinsGroup(groups: seq<Group>, budgets: seq<Budget>, b: Budget, key: Keying, g: nat)
    requires Partitions(groups, budgets, key) && g < |groups| && groups[g].key == key(b)
    ensures Partitions(groups[g := Group(groups[g].key, groups[g].budgets + [b])], budgets + [b], key)
  {
    var next := groups[g := Group(groups[g].key, groups[g].budgets + [b])];
    forall c | c in budgets + [b]
      ensures HasKey(next, key(c))
    {
      assert HasKey(groups, key(c)) by {
        assert groups[g].key == key(b);
      }
      var i :| 0 <= i < |groups| && groups[i].key == key(c);
      assert next[i].key == key(c);
    }
  }

  lemma {:induction false} StartsGroup(groups: seq<Group>, budgets: seq<Budget>, b: Budget, key: Keying)
    requires Partitions(groups, budgets, key) && !HasKey(groups, key(b))
    ensures Partitions(groups + [Group(key(b), [b])], budgets + [b], key)
  {
    var next := groups + [Group(key(b), [b])];
    forall i, c | 0 <= i < |next|
      ensures c in next[i].budgets <==> c in budgets + [b] && key(c) == next[i].key
    {
      if i == |groups| {
        assert c in budgets ==> HasKey(groups, key(c));
      } else {
        assert next[i] == groups[i] && HasKey(groups, groups[i].key);
      }
    }
    forall c | c in budgets + [b]
      ensures HasKey(next, key(c))
    {
      KeyStays(groups, budgets, b, key, c);
    }
  }

  lemma {:induction false} KeyStays(groups: seq<Group>, budgets: seq<Budget>, b: Budget, key: Keying, c: Budget)
    requires (forall d :: d in budgets ==> HasKey(groups, key(d))) && c in budgets + [b]
    ensures HasKey(groups + [Group(key(b), [b])], key(c))
  {
    var next := groups + [Group(key(b), [b])];
    if c in budgets {
      var i :| 0 <= i < |groups| && groups[i].key == key(c);
      assert next[i].key == key(c);
    } else {
      assert next[|groups|].key == key(c);
    }
  }

  function KeysOf(groups: seq<Group>): (keys: seq<string>)
    ensures |keys| == |groups| && forall i :: 0 <= i < |groups| ==> keys[i] == groups[i].key
  {
    seq(|groups|, i requires 0 <= i < |groups| => groups[i].key)
  }

  method AddToGroups(groups: seq<Group>, b: Budget, key: Keying, ghost before: seq<Budget>) returns (next: seq<Group>)
    requires Partitions(groups, before, key)
    ensures Partitions(next, before + [b], key)
  {
    var k := key(b);
    var g := FindGroup(groups, k);
    if g == |groups| {
      StartsGroup(groups, before, b, key);
      next := groups + [Group(k, [b])];
    } else {
      JoinsGroup(groups, before, b, key, g);
      next := groups[g := Group(k, groups[g].budgets + [b])];
    }
  }

  /** Budgets grouped by counter key, in order of first appearance. */
  method GroupByKey(budgets: seq<Budget>, key: Keying) returns (groups: seq<Group>)
    ensures Partitions(groups, budgets, key)
  {
    groups := [];
    var i := 0;
    while i < |budgets|
      invariant 0 <= i <= |budgets|
      invariant Partitions(groups, budgets[..i], key)
    {
      assert budgets[..i + 1] == budgets[..i] + [budgets[i]];
      groups := AddToGroups(groups, budgets[i], key, budgets[..i]);
      i := i + 1;
    }
    assert budgets[..i] == budgets;
  }

  /** The smallest amount; the earlier budget on a tie. */
  method Tightest(group: seq<Budget>) returns (t: Budget)
    requires group != []
    ensures t in group && forall b :: b in group ==> t.amount <= b.amount
  {
    t := group[0];
    var i := 1;
    while i < |group|
      invariant 1 <= i <= |group|
      invariant t in group[..i] && forall b :: b in group[..i] ==> t.amount <= b.amount
    {
      assert group[..i + 1] == group[..i] + [group[i]];
      t := if t.amount <= group[i].amount then t else group[i];
      i := i + 1;
    }
    assert group[..i] == group;
  }

  // ---- reserving and releasing on several counters ----

  predicate DistinctSpendKeys(keys: seq<string>) {
    && (forall i, j :: 0 <= i < j < |keys| ==> keys[i] != keys[j])
    && (forall i :: 0 <= i < |keys| ==> IsSpendKey(keys[i]))
  }

  function Bumped(store: Store, keys: seq<string>, d: nat): Store {
    if keys == [] then store
    else
      var s, k := Bumped(store, keys[..|keys| - 1], d), keys[|keys| - 1];
      SetPending(s, k, Pending(s, k) + d)
  }

  function Dropped(store: Store, keys: seq<string>, d: nat): Store {
    if keys == [] then store
    else
      var s, k := Dropped(store, keys[..|keys| - 1], d), keys[|keys| - 1];
      SetPending(s, k, NonNegative(Pending(s, k) - d))
  }

  lemma {:induction false} LastKey(keys: seq<string>, k: string)
    requires keys != [] && DistinctSpendKeys(keys)
    ensures var front, last := keys[..|keys| - 1], keys[|keys| - 1];
            DistinctSpendKeys(front) && last !in front && (k in keys <==> k in front || k == last)
  {
    assert keys == keys[..|keys| - 1] + [keys[|keys| - 1]];
  }

  /** Each key gains the ceiling exactly once, and nothing else moves. */
  lemma {:induction false} BumpedAt(store: Store, keys: seq<string>, d: nat, k: string)
    requires DistinctSpendKeys(keys)
    ensures Pending(Bumped(store, keys, d), k) == Pending(store, k) + (if k in keys then d else 0)
    ensures IsSpendKey(k) ==> Read(Bumped(store, keys, d), k) == Read(store, k)
  {
    if keys != [] {
      var front, last := keys[..|keys| - 1], keys[|keys| - 1];
      BumpedAt(store, front, d, k);
      var s := Bumped(store, front, d);
      SetPendingMoves(s, last, Pending(s, last) + d, k);
      LastKey(keys, k);
    }
  }

  lemma {:induction false} DroppedAt(store: Store, keys: seq<string>, d: nat, k: string)
    requires DistinctSpendKeys(keys)
    ensures Pending(Dropped(store, keys, d), k) == if k in keys then NonNegative(Pending(store, k) - d) else Pending(store, k)
    ensures IsSpendKey(k) ==> Read(Dropped(store, keys, d), k) == Read(store, k)
  {
    if keys != [] {
      var front, last := keys[..|keys| - 1], keys[|keys| - 1];
      DroppedAt(store, front, d, k);
      var s := Dropped(store, front, d);
      SetPendingMoves(s, last, NonNegative(Pending(s, last) - d), k);
      LastKey(keys, k);
    }
  }

  /** The two stores read alike: every spend counter, and every reservation. */
  ghost predicate SameReads(a: Store, b: Store) {
    && (forall k :: IsSpendKey(k) ==> Read(a, k) == Read(b, k))
    && (forall k :: Pending(a, k) == Pending(b, k))
  }

  /** Releasing what was reserved, on the same keys, leaves every counter as it was. */
  lemma {:induction false} ReleaseUndoesReserve(store: Store, keys: seq<string>, d: nat)
    requires DistinctSpendKeys(keys)
    ensures SameReads(Dropped(Bumped(store, keys, d), keys, d), store)
  {
    forall k
      ensures Pending(Dropped(Bumped(store, keys, d), keys, d), k) == Pending(store, k)
      ensures IsSpendKey(k) ==> Read(Dropped(Bumped(store, keys, d), keys, d), k) == Read(store, k)
    {
      BumpedAt(store, keys, d, k);
      DroppedAt(Bumped(store, keys, d), keys, d, k);
    }
  }

  /** Releases key by key, first reserved first. */
  method ReleaseAll(counter: SpendCounter, keys: seq<string>, micros: nat)
    modifies counter
    ensures counter.store == Dropped(old(counter.store), keys, micros)
  {
    var i := 0;
    assert keys[..0] == [];
    while i < |keys|
      invariant 0 <= i <= |keys|
      invariant counter.store == Dropped(old(counter.store), keys[..i], micros)
    {
      assert keys[..i + 1][..i] == keys[..i];
      var left := counter.Release(keys[i], micros);
      i := i + 1;
    }
    assert keys[..i] == keys;
  }

  // ---- the reservation ----

  predicate Fits(store: Store, key: string, b: Budget, ceiling: nat) { Admits(store, key, ToMicros(b.amount), ceiling) }

  /** A budget with a larger amount admits whatever the tightest one does. */
  lemma {:induction false} TightestDecides(store: Store, key: string, t: Budget, b: Budget, ceiling: nat)
    requires Fits(store, key, t, ceiling) && t.amount <= b.amount
    ensures Fits(store, key, b, ceiling)
  {
    RoundMonotone(t.amount * 1000000.0, b.amount * 1000000.0);
  }

  /** The script on the next key decides as it would have on the untouched store. */
  lemma {:induction false} EarlierKeysDoNotMatter(store: Store, keys: seq<string>, i: nat, b: Budget, ceiling: nat)
    requires i < |keys| && DistinctSpendKeys(keys)
    ensures Fits(Bumped(store, keys[..i], ceiling), keys[i], b, ceiling) <==> Fits(store, keys[i], b, ceiling)
    ensures Pending(Bumped(store, keys[..i], ceiling), keys[i]) == Pending(store, keys[i])
    ensures Read(Bumped(store, keys[..i], ceiling), keys[i]) == Read(store, keys[i])
    ensures Bumped(store, keys[..i + 1], ceiling)
            == SetPending(Bumped(store, keys[..i], ceiling), keys[i], Pending(store, keys[i]) + ceiling)
  {
    BumpedAt(store, keys[..i], ceiling, keys[i]);
    assert keys[..i + 1][..i] == keys[..i];
  }

  /** A script whose reply was lost; it may have run. */
  datatype Fault = Fault(at: nat, applied: bool)

  datatype Progress = AllReserved | Refused(hit: Budget, spent: nat, pending: nat) | Faulted

  ghost predicate GroupFits(store: Store, g: Group, ceiling: nat) {
    forall b :: b in g.budgets ==> Fits(store, g.key, b, ceiling)
  }

  lemma {:induction false} TightestFits(store: Store, g: Group, t: Budget, ceiling: nat)
    requires Fits(store, g.key, t, ceiling) && forall b :: b in g.budgets ==> t.amount <= b.amount
    ensures GroupFits(store, g, ceiling)
  {
    forall b | b in g.budgets
      ensures Fits(store, g.key, b, ceiling)
    {
      TightestDecides(store, g.key, t, b, ceiling);
    }
  }

  /** The counters of the first `n` groups carry the ceiling, and every budget of those groups had room for it. */
  ghost predicate Reached(before: Store, now: Store, groups: seq<Group>, n: nat, ceiling: nat) {
    && n <= |groups| && now == Bumped(before, KeysOf(groups)[..n], ceiling)
    && forall i :: 0 <= i < n ==> GroupFits(before, groups[i], ceiling)
  }

  datatype Attempt = Passed | NoRoom(hit: Budget, spent: nat, pending: nat) | Lost

  /** The check-and-reserve of one group; `fault` says whether its call fails, and whether the script ran. */
  method ReserveGroup(counter: SpendCounter, groups: seq<Group>, n: nat, ceiling: nat, fault: Option<bool>, ghost before: Store) returns (a: Attempt)
    requires DistinctSpendKeys(KeysOf(groups)) && n < |groups| && groups[n].budgets != []
    requires Reached(before, counter.store, groups, n, ceiling)
    modifies counter
    ensures a.Passed? ==> Reached(before, counter.store, groups, n + 1, ceiling)
    ensures a.NoRoom? ==> counter.store == old(counter.store) && a.hit in groups[n].budgets && !Fits(before, groups[n].key, a.hit, ceiling)
                          && a.spent == Read(before, groups[n].key) && a.pending == Pending(before, groups[n].key)
    ensures a.Lost? <==> fault.Some?
    ensures a.Lost? ==> counter.store == old(counter.store)
                          || (fault.value && counter.store == Bumped(before, KeysOf(groups)[..n + 1], ceiling))
  {
    var t := Tightest(groups[n].budgets);
    EarlierKeysDoNotMatter(before, KeysOf(groups), n, t, ceiling);
    if fault.Some? && !fault.value {
      return Lost;
    }
    var admitted, spend, pending := counter.CheckAndReserve(groups[n].key, ToMicros(t.amount), ceiling);
    if fault.Some? {
      return Lost;
    }
    if !admitted {
      return NoRoom(t, spend, pending);
    }
    TightestFits(before, groups[n], t, ceiling);
    a := Passed;
  }

  /** Check-and-reserve group by group, until one refuses or a call fails. */
  method ReserveGroups(counter: SpendCounter, groups: seq<Group>, ceiling: nat, fault: Option<Fault>) returns (p: Progress, n: nat)
    requires DistinctKeys(groups) && DistinctSpendKeys(KeysOf(groups))
    requires forall i :: 0 <= i < |groups| ==> groups[i].budgets != []
    modifies counter
    ensures n <= |groups| && forall i :: 0 <= i < n ==> GroupFits(old(counter.store), groups[i], ceiling)
    ensures p.AllReserved? ==> n == |groups|
    ensures !p.Faulted? ==> counter.store == Bumped(old(counter.store), KeysOf(groups)[..n], ceiling)
    ensures p.Refused? ==> n < |groups| && p.hit in groups[n].budgets && !Fits(old(counter.store), groups[n].key, p.hit, ceiling)
                           && p.spent == Read(old(counter.store), groups[n].key) && p.pending == Pending(old(counter.store), groups[n].key)
    ensures p.Faulted? ==> fault.Some? && n == fault.value.at < |groups|
                           && (counter.store == Bumped(old(counter.store), KeysOf(groups)[..n], ceiling)
                               || (fault.value.applied && counter.store == Bumped(old(counter.store), KeysOf(groups)[..n + 1], ceiling)))
  {
    ghost var before := counter.store;
    n := 0;
    assert KeysOf(groups)[..0] == [];
    while n < |groups|
      invariant Reached(before, counter.store, groups, n, ceiling)
      decreases |groups| - n
    {
      var a := ReserveGroup(counter, groups, n, ceiling, if fault.Some? && fault.value.at == n then Some(fault.value.applied) else None, before);
      match a {
        case Lost => return Faulted, n;
        case NoRoom(hit, spent, pending) => return Refused(hit, spent, pending), n;
        case Passed =>
      }
      n := n + 1;
    }
    p := AllReserved;
    assert KeysOf(groups)[..n] == KeysOf(groups);
  }

  datatype Reservation =
    | NoBlockBudget
    | Reserved(keys: seq<string>)
    | Rejected(hit: Budget, spent: nat, pending: nat)
    | Unenforced
    | Unavailable

  function FaultOutcome(failOpen: bool): Reservation { if failOpen then Unenforced else Unavailable }

  ghost predicate Governed(all: seq<Budget>, agentId: Option<string>) { exists b :: b in all && Governs(b, agentId) }

  /** Every governing budget has room for the ceiling. */
  ghost predicate AllFit(store: Store, all: seq<Budget>, agentId: Option<string>, at: nat, ceiling: nat) {
    forall b :: b in all && Governs(b, agentId) ==> Fits(store, KeyFor(b, at), b, ceiling)
  }

  /** The keys are the counters of the governing budgets, each once. */
  ghost predicate GoverningKeys(keys: seq<string>, all: seq<Budget>, agentId: Option<string>, at: nat) {
    && DistinctSpendKeys(keys)
    && (forall k :: k in keys <==> exists b :: b in all && Governs(b, agentId) && KeyFor(b, at) == k)
  }

  /** A group's budgets are those of its counter. */
  lemma {:induction false} InGroup(groups: seq<Group>, budgets: seq<Budget>, at: nat, i: nat, b: Budget)
    requires Partitions(groups, budgets, KeyingAt(at)) && i < |groups|
    ensures b in groups[i].budgets <==> b in budgets && KeyFor(b, at) == groups[i].key
  {
    assert KeyingAt(at)(b) == KeyFor(b, at);
  }

  lemma {:induction false} GroupOf(groups: seq<Group>, budgets: seq<Budget>, at: nat, b: Budget) returns (i: nat)
    requires Partitions(groups, budgets, KeyingAt(at)) && b in budgets
    ensures i < |groups| && groups[i].key == KeyFor(b, at) && b in groups[i].budgets
  {
    assert KeyingAt(at)(b) == KeyFor(b, at);
    assert HasKey(groups, KeyFor(b, at));
    i :| 0 <= i < |groups| && groups[i].key == KeyFor(b, at);
  }

  /** Every group's key is the counter of one of its budgets. */
  lemma {:induction false} GroupKeyOf(groups: seq<Group>, matched: seq<Budget>, at: nat, i: nat) returns (b: Budget)
    requires Partitions(groups, matched, KeyingAt(at)) && i < |groups|
    ensures b in matched && KeyFor(b, at) == groups[i].key && IsSpendKey(groups[i].key)
  {
    b := groups[i].budgets[0];
    assert b in groups[i].budgets;
    InGroup(groups, matched, at, i, b);
  }

  lemma {:induction false} KeyIn(groups: seq<Group>, matched: seq<Budget>, at: nat, b: Budget)
    requires Partitions(groups, matched, KeyingAt(at)) && b in matched
    ensures KeyFor(b, at) in KeysOf(groups)
  {
    var i := GroupOf(groups, matched, at, b);
    assert KeysOf(groups)[i] == KeyFor(b, at);
  }

  lemma {:induction false} GroupKeys(groups: seq<Group>, matched: seq<Budget>, all: seq<Budget>, agentId: Option<string>, at: nat)
    requires Partitions(groups, matched, KeyingAt(at)) && (forall b :: b in matched <==> b in all && Governs(b, agentId))
    ensures GoverningKeys(KeysOf(groups), all, agentId, at)
  {
    var keys := KeysOf(groups);
    forall i | 0 <= i < |keys|
      ensures IsSpendKey(keys[i]) && exists b :: b in all && Governs(b, agentId) && KeyFor(b, at) == keys[i]
    {
      var b := GroupKeyOf(groups, matched, at, i);
      assert b in all && Governs(b, agentId);
    }
    forall b | b in all && Governs(b, agentId)
      ensures KeyFor(b, at) in keys
    {
      KeyIn(groups, matched, at, b);
    }
  }

  lemma {:induction false} AllGroupsFit(store: Store, groups: seq<Group>, matched: seq<Budget>, all: seq<Budget>, agentId: Option<string>, at: nat, ceiling: nat)
    requires Partitions(groups, matched, KeyingAt(at)) && (forall b :: b in matched <==> b in all && Governs(b, agentId))
    requires forall i :: 0 <= i < |groups| ==> GroupFits(store, groups[i], ceiling)
    ensures AllFit(store, all, agentId, at, ceiling)
  {
    forall b | b in all && Governs(b, agentId)
      ensures Fits(store, KeyFor(b, at), b, ceiling)
    {
      var i := GroupOf(groups, matched, at, b);
    }
  }

  /** Releasing some keys of a reservation leaves the ceiling on the others. */
  lemma {:induction false} PartlyReleased(store: Store, keys: seq<string>, n: nat, ceiling: nat)
    requires n <= |keys| && DistinctSpendKeys(keys)
    ensures SameReads(Dropped(Bumped(store, keys, ceiling), keys[..n], ceiling), Bumped(store, keys[n..], ceiling))
  {
    forall k
      ensures Pending(Dropped(Bumped(store, keys, ceiling), keys[..n], ceiling), k) == Pending(Bumped(store, keys[n..], ceiling), k)
      ensures IsSpendKey(k) ==> Read(Dropped(Bumped(store, keys, ceiling), keys[..n], ceiling), k) == Read(Bumped(store, keys[n..], ceiling), k)
    {
      BumpedAt(store, keys, ceiling, k);
      BumpedAt(store, keys[n..], ceiling, k);
      DroppedAt(Bumped(store, keys, ceiling), keys[..n], ceiling, k);
      Splits(keys, n, k);
    }
  }

  lemma {:induction false} Splits(keys: seq<string>, n: nat, k: string)
    requires n <= |keys| && DistinctSpendKeys(keys)
    ensures DistinctSpendKeys(keys[..n]) && DistinctSpendKeys(keys[n..])
    ensures k in keys <==> k in keys[..n] || k in keys[n..]
    ensures !(k in keys[..n] && k in keys[n..])
  {
    assert keys == keys[..n] + keys[n..];
  }

  lemma {:induction false} RolledBackStray(store: Store, keys: seq<string>, n: nat, ceiling: nat)
    requires n < |keys| && DistinctSpendKeys(keys)
    ensures SameReads(Dropped(Bumped(store, keys[..n + 1], ceiling), keys[..n], ceiling),
                      SetPending(store, keys[n], Pending(store, keys[n]) + ceiling))
  {
    var some := keys[..n + 1];
    PartlyReleased(store, some, n, ceiling);
    assert some[..n] == keys[..n] && some[n..] == [keys[n]];
    assert [keys[n]][..0] == [] && Bumped(store, [], ceiling) == store;
  }

  /** A failed call whose script ran leaves one ceiling too much on one counter, until the next reconcile. */
  ghost predicate Stray(before: Store, after: Store, ceiling: nat, fault: Option<Fault>) {
    fault.Some? && fault.value.applied && exists k :: SameReads(after, SetPending(before, k, Pending(before, k) + ceiling))
  }

  method Rollback(counter: SpendCounter, keys: seq<string>, n: nat, ceiling: nat, ghost before: Store, ghost fault: Option<Fault>)
    requires n <= |keys| && DistinctSpendKeys(keys)
    requires counter.store == Bumped(before, keys[..n], ceiling)
             || (fault.Some? && fault.value.applied && n < |keys| && counter.store == Bumped(before, keys[..n + 1], ceiling))
    modifies counter
    ensures old(counter.store) == Bumped(before, keys[..n], ceiling) ==> SameReads(counter.store, before)
    ensures SameReads(counter.store, before) || Stray(before, counter.store, ceiling, fault)
  {
    ghost var reached := counter.store;
    ReleaseAll(counter, keys[..n], ceiling);
    if reached == Bumped(before, keys[..n], ceiling) {
      ReleaseUndoesReserve(before, keys[..n], ceiling);
    } else {
      RolledBackStray(before, keys, n, ceiling);
    }
  }

  /** The hit names a governing budget without room, and what its counter read. */
  ghost predicate HitOk(r: Reservation, store: Store, all: seq<Budget>, agentId: Option<string>, at: nat, ceiling: nat)
    requires r.Rejected?
  {
    var k := KeyFor(r.hit, at);
    && r.hit in all && Governs(r.hit, agentId) && !Fits(store, k, r.hit, ceiling)
    && r.spent == Read(store, k) && r.pending == Pending(store, k)
  }

  /** What a reservation did to the store, by its outcome. */
  ghost predicate OutcomeOk(r: Reservation, before: Store, after: Store, all: seq<Budget>, agentId: Option<string>, at: nat,
                            ceiling: nat, fault: Option<Fault>) {
    match r
    case NoBlockBudget => after == before && !Governed(all, agentId)
    case Reserved(keys) =>
      && GoverningKeys(keys, all, agentId, at) && after == Bumped(before, keys, ceiling)
      && AllFit(before, all, agentId, at, ceiling)
    case Rejected(_, _, _) => SameReads(after, before) && HitOk(r, before, all, agentId, at, ceiling)
    case _ => SameReads(after, before) || Stray(before, after, ceiling, fault)
  }

  method ReserveMatched(counter: SpendCounter, matched: seq<Budget>, at: nat, ceiling: nat, failOpen: bool, fault: Option<Fault>,
                        ghost all: seq<Budget>, ghost agentId: Option<string>) returns (r: Reservation)
    requires matched != [] && forall b :: b in matched <==> b in all && Governs(b, agentId)
    modifies counter
    ensures OutcomeOk(r, old(counter.store), counter.store, all, agentId, at, ceiling, fault)
    ensures !r.NoBlockBudget? && (r.Reserved? || r.Rejected? || (fault.Some? && r == FaultOutcome(failOpen)))
  {
    var groups := GroupByKey(matched, KeyingAt(at));
    ghost var before := counter.store;
    GroupKeys(groups, matched, all, agentId, at);
    var p, n := ReserveGroups(counter, groups, ceiling, fault);
    var keys := KeysOf(groups);
    if p.AllReserved? {
      AllGroupsFit(before, groups, matched, all, agentId, at, ceiling);
      assert keys[..n] == keys;
      return Reserved(keys);
    }
    Rollback(counter, keys, n, ceiling, before, fault);
    if p.Faulted? {
      return FaultOutcome(failOpen);
    }
    r := Rejected(p.hit, p.spent, p.pending);
  }

  /** Reserves a ceiling on the counter of every governing budget, or on none of them. `cached` is the budget list
      (`None`: it could not be read) and `recent` whether the reconcile heartbeat is recent enough. */
  method ReserveForBatch(counter: SpendCounter, cached: Option<seq<Budget>>, agentId: Option<string>, submittedAt: nat,
                         ceiling: nat, recent: bool, failOpen: bool, fault: Option<Fault>) returns (r: Reservation)
    modifies counter
    ensures cached.None? ==> r == (if failOpen then Unenforced else Unavailable) && counter.store == old(counter.store)
    ensures cached.Some? ==> OutcomeOk(r, old(counter.store), counter.store, cached.value, agentId, submittedAt, ceiling, fault)
    ensures cached.Some? ==> (r.NoBlockBudget? <==> !Governed(cached.value, agentId))
    ensures cached.Some? && Governed(cached.value, agentId) && !recent
            ==> r == (if failOpen then Unenforced else Unavailable) && counter.store == old(counter.store)
    ensures cached.Some? && Governed(cached.value, agentId) && recent
            ==> r.Reserved? || r.Rejected? || (fault.Some? && r == if failOpen then Unenforced else Unavailable)
  {
    if cached.None? {
      return FaultOutcome(failOpen);
    }
    var matched := Matching(cached.value, agentId);
    if matched == [] {
      return NoBlockBudget;
    }
    assert matched[0] in matched;
    if !recent {
      return FaultOutcome(failOpen);
    }
    r := ReserveMatched(counter, matched, submittedAt, ceiling, failOpen, fault, cached.value, agentId);
  }

  /** All or nothing: without faults a reservation succeeds if and only if every governing budget had room, and then
      every one of them - not only the tightest on its counter - has spend plus pending within its amount, each
      counter gained the ceiling exactly once, and no other counter moved. */
  lemma {:induction false} AllOrNothing(r: Reservation, before: Store, after: Store, all: seq<Budget>, agentId: Option<string>, at: nat, ceiling: nat)
    requires OutcomeOk(r, before, after, all, agentId, at, ceiling, None) && (r.Reserved? || r.Rejected?)
    ensures r.Reserved? <==> AllFit(before, all, agentId, at, ceiling)
    ensures r.Reserved? ==> forall b :: b in all && Governs(b, agentId)
                              ==> Read(after, KeyFor(b, at)) + Pending(after, KeyFor(b, at)) <= NonNegative(ToMicros(b.amount))
    ensures forall k :: Pending(after, k) == Pending(before, k) + (if r.Reserved? && k in r.keys then ceiling else 0)
    ensures forall k :: IsSpendKey(k) ==> Read(after, k) == Read(before, k)
  {
    if r.Reserved? {
      forall k
        ensures Pending(after, k) == Pending(before, k) + (if k in r.keys then ceiling else 0)
        ensures IsSpendKey(k) ==> Read(after, k) == Read(before, k)
      {
        BumpedAt(before, r.keys, ceiling, k);
      }
      forall b | b in all && Governs(b, agentId)
        ensures Read(after, KeyFor(b, at)) + Pending(after, KeyFor(b, at)) <= NonNegative(ToMicros(b.amount))
      {
        assert KeyFor(b, at) in r.keys;
      }
    }
  }

  /** The counters of the budgets, each once, in order of first appearance. */
  function KeysInOrder(budgets: seq<Budget>, key: Keying): seq<string> {
    if budgets == [] then [] else WithKey(KeysInOrder(budgets[..|budgets| - 1], key), key(budgets[|budgets| - 1]))
  }

  function WithKey(keys: seq<string>, key: string): seq<string> { if key in keys then keys else keys + [key] }

  method DistinctKeysOf(budgets: seq<Budget>, key: Keying) returns (keys: seq<string>)
    ensures keys == KeysInOrder(budgets, key)
  {
    keys := [];
    var i := 0;
    while i < |budgets|
      invariant 0 <= i <= |budgets|
      invariant keys == KeysInOrder(budgets[..i], key)
    {
      assert budgets[..i + 1][..i] == budgets[..i];
      keys := WithKey(keys, key(budgets[i]));
      i := i + 1;
    }
    assert budgets[..i] == budgets;
  }

  lemma {:induction false} OrderedKeys(budgets: seq<Budget>, key: Keying)
    ensures forall i, j :: 0 <= i < j < |KeysInOrder(budgets, key)| ==> KeysInOrder(budgets, key)[i] != KeysInOrder(budgets, key)[j]
    ensures forall k :: k in KeysInOrder(budgets, key) <==> exists b :: b in budgets && key(b) == k
  {
    if budgets != [] {
      var front, last := budgets[..|budgets| - 1], budgets[|budgets| - 1];
      OrderedKeys(front, key);
      assert budgets == front + [last];
    }
  }

  /** A counter comes before another exactly as the first budget on it does. */
  lemma {:induction false} KeysAppear(budgets: seq<Budget>, key: Keying, i: nat, k: nat) returns (at: nat)
    requires i < k < |KeysInOrder(budgets, key)|
    ensures at < |budgets| && key(budgets[at]) == KeysInOrder(budgets, key)[i]
    ensures forall q :: 0 <= q <= at ==> key(budgets[q]) != KeysInOrder(budgets, key)[k]
  {
    var front, last := budgets[..|budgets| - 1], budgets[|budgets| - 1];
    var keys, rest := KeysInOrder(budgets, key), KeysInOrder(front, key);
    OrderedKeys(front, key);
    if k < |rest| {
      at := KeysAppear(front, key, i, k);
    } else {
      assert keys[i] in rest && keys[k] !in rest;
      at :| 0 <= at < |front| && key(front[at]) == keys[i];
      assert forall q :: 0 <= q < |front| ==> front[q] in front;
    }
  }

  /** The counters a release visits, in order. */
  function BatchKeys(all: seq<Budget>, agentId: Option<string>, at: nat): seq<string> {
    KeysInOrder(GoverningOf(all, agentId), KeyingAt(at))
  }

  /** How many of `n` release scripts ran before a call failed. */
  function Reach(fault: Option<Fault>, n: nat): (r: nat)
    ensures r <= n && (fault.None? ==> r == n)
  {
    if fault.None? || fault.value.at >= n then n else if fault.value.applied then fault.value.at + 1 else fault.value.at
  }

  function ReleasedStore(store: Store, cached: Option<seq<Budget>>, agentId: Option<string>, at: nat, ceiling: nat, fault: Option<Fault>): Store {
    if ceiling == 0 || cached.None? then store
    else
      var keys := BatchKeys(cached.value, agentId, at);
      Dropped(store, keys[..Reach(fault, |keys|)], ceiling)
  }

  /** Releases key by key until a call fails. */
  method ReleaseUpTo(counter: SpendCounter, keys: seq<string>, ceiling: nat, fault: Option<Fault>)
    modifies counter
    ensures counter.store == Dropped(old(counter.store), keys[..Reach(fault, |keys|)], ceiling)
  {
    var i := 0;
    assert keys[..0] == [];
    while i < |keys|
      invariant 0 <= i <= |keys|
      invariant counter.store == Dropped(old(counter.store), keys[..i], ceiling)
      invariant fault.Some? ==> i <= fault.value.at
    {
      assert keys[..i + 1][..i] == keys[..i];
      if fault.Some? && fault.value.at == i && !fault.value.applied {
        return;
      }
      var left := counter.Release(keys[i], ceiling);
      if fault.Some? && fault.value.at == i {
        return;
      }
      i := i + 1;
    }
  }

  /** Releases a job's ceiling from the counter of every governing budget, for the period it was submitted in. A call
      that fails stops the loop and is swallowed: the counters before it, and its own if its script ran, are released. */
  method ReleaseForBatch(counter: SpendCounter, cached: Option<seq<Budget>>, agentId: Option<string>, submittedAt: nat, ceiling: nat,
                         fault: Option<Fault>)
    modifies counter
    ensures counter.store == ReleasedStore(old(counter.store), cached, agentId, submittedAt, ceiling, fault)
  {
    if ceiling == 0 || cached.None? {
      return;
    }
    var matched := Matching(cached.value, agentId);
    var keys := DistinctKeysOf(matched, KeyingAt(submittedAt));
    ReleaseUpTo(counter, keys, ceiling, fault);
  }

  /** The counters visited are those of the governing budgets, each once. */
  lemma {:induction false} AreGoverning(all: seq<Budget>, agentId: Option<string>, at: nat)
    ensures GoverningKeys(BatchKeys(all, agentId, at), all, agentId, at)
  {
    var matched, keys := GoverningOf(all, agentId), BatchKeys(all, agentId, at);
    OrderedKeys(matched, KeyingAt(at));
    forall k | k in keys
      ensures IsSpendKey(k) && exists b :: b in all && Governs(b, agentId) && KeyFor(b, at) == k
    {
      var b :| b in matched && KeyingAt(at)(b) == k;
      assert KeyFor(b, at) == k;
    }
    forall b | b in all && Governs(b, agentId)
      ensures KeyFor(b, at) in keys
    {
      assert b in matched && KeyingAt(at)(b) == KeyFor(b, at);
    }
    assert forall i :: 0 <= i < |keys| ==> keys[i] in keys;
  }

  /** With the budgets unchanged, a release that reached `n` counters removes exactly what the reservation of the same
      submission added there, and leaves the ceiling on the others - all of them, and nothing, when no call failed -
      whatever the two clocks read and in whatever order the two visit the keys. */
  lemma {:induction false} ReleaseMatchesReserve(before: Store, all: seq<Budget>, agentId: Option<string>, at: nat, ceiling: nat,
                                                 keys: seq<string>, keys': seq<string>, n: nat)
    requires GoverningKeys(keys, all, agentId, at) && GoverningKeys(keys', all, agentId, at) && n <= |keys'|
    ensures SameReads(Dropped(Bumped(before, keys, ceiling), keys'[..n], ceiling), Bumped(before, keys'[n..], ceiling))
    ensures n == |keys'| ==> SameReads(Dropped(Bumped(before, keys, ceiling), keys'[..n], ceiling), before)
  {
    var there, here := Dropped(Bumped(before, keys, ceiling), keys'[..n], ceiling), Bumped(before, keys'[n..], ceiling);
    forall k
      ensures Pending(there, k) == Pending(here, k)
      ensures IsSpendKey(k) ==> Read(there, k) == Read(here, k)
    {
      BumpedAt(before, keys, ceiling, k);
      BumpedAt(before, keys'[n..], ceiling, k);
      DroppedAt(Bumped(before, keys, ceiling), keys'[..n], ceiling, k);
      Splits(keys', n, k);
      assert k in keys <==> k in keys';
    }
  }

  // ---- in dollars ----

  /** What a budget's counter holds at an instant: spend and reservations, in micro-dollars. */
  function Committed(store: Store, b: Budget, at: nat): nat { Read(store, KeyFor(b, at)) + Pending(store, KeyFor(b, at)) }

  /** A whole number of micro-dollars is within the amount, to the nearest one: halves round up. */
  predicate WithinUsd(micros: nat, amount: real) { micros as real - 0.5 <= amount * 1000000.0 }

  /** It has reached the amount. */
  predicate ReachesUsd(micros: nat, amount: real) { micros as real + 0.5 > amount * 1000000.0 }

  lemma {:induction false} MicrosOfUsd(micros: nat, amount: real)
    ensures micros <= ToMicros(amount) <==> WithinUsd(micros, amount)
    ensures micros >= ToMicros(amount) <==> ReachesUsd(micros, amount)
  {
    RoundNearest(amount * 1000000.0);
  }

  /** A ceiling fits a budget exactly if it and what the counter holds are within the amount, or both are nothing. */
  lemma {:induction false} FitsInUsd(store: Store, key: string, b: Budget, ceiling: nat)
    ensures var n := Read(store, key) + Pending(store, key) + ceiling; Fits(store, key, b, ceiling) <==> n == 0 || WithinUsd(n, b.amount)
  {
    MicrosOfUsd(Read(store, key) + Pending(store, key) + ceiling, b.amount);
  }

  /** A budget governs an agent's requests and batches exactly if it is an enabled block budget, of the whole owner or of
      that agent. */
  lemma {:induction false} GoverningIs(all: seq<Budget>, agentId: Option<string>, b: Budget)
    ensures b in GoverningOf(all, agentId)
            <==> b in all && b.enabled && b.action == Block && (b.scope == Global || (b.scope == Agent && agentId.Some? && b.agentId == agentId))
  {
  }

  /** A reservation without faults is admitted exactly if every enabled block budget of the owner, and of the agent, has
      room for the ceiling in dollars; and then none of them is exceeded. */
  lemma {:induction false} AdmittedInUsd(r: Reservation, before: Store, after: Store, all: seq<Budget>, agentId: Option<string>, at: nat, ceiling: nat)
    requires OutcomeOk(r, before, after, all, agentId, at, ceiling, None) && (r.Reserved? || r.Rejected?)
    ensures r.Reserved? <==> forall b :: b in all && b.enabled && b.action == Block && (b.scope == Global || (b.scope == Agent && agentId.Some? && b.agentId == agentId))
                               ==> Committed(before, b, at) + ceiling == 0 || WithinUsd(Committed(before, b, at) + ceiling, b.amount)
    ensures r.Reserved? ==> forall b :: b in all && Governs(b, agentId)
                              ==> Committed(after, b, at) == Committed(before, b, at) + ceiling
  {
    AllOrNothing(r, before, after, all, agentId, at, ceiling);
    forall b | b in all
      ensures Fits(before, KeyFor(b, at), b, ceiling)
              <==> Committed(before, b, at) + ceiling == 0 || WithinUsd(Committed(before, b, at) + ceiling, b.amount)
    {
      FitsInUsd(before, KeyFor(b, at), b, ceiling);
    }
    if r.Reserved? {
      forall b | b in all && Governs(b, agentId)
        ensures KeyFor(b, at) in r.keys
      {
      }
    }
  }

  // ---- the block check of a request ----

  predicate Over(store: Store, b: Budget, at: nat) {
    Read(store, KeyFor(b, at)) + Pending(store, KeyFor(b, at)) >= ToMicros(b.amount)
  }

  datatype Blocked = Allowed | Hit(budget: Budget, spent: nat, pending: nat) | BlockUnavailable

  /** The budget is over, and none listed before it is. */
  ghost predicate IsFirstOver(store: Store, matched: seq<Budget>, b: Budget, now: nat) {
    exists i :: 0 <= i < |matched| && matched[i] == b && Over(store, b, now) && forall k :: 0 <= k < i ==> !Over(store, matched[k], now)
  }

  /** The counters are read in one round trip, then the budgets are compared in order. */
  method FirstOver(counter: SpendCounter, matched: seq<Budget>, now: nat) returns (r: Blocked)
    ensures !r.BlockUnavailable? && (r.Allowed? <==> forall b :: b in matched ==> !Over(counter.store, b, now))
    ensures r.Hit? ==> r.budget in matched && IsFirstOver(counter.store, matched, r.budget, now)
                       && r.spent == Read(counter.store, KeyFor(r.budget, now)) && r.pending == Pending(counter.store, KeyFor(r.budget, now))
  {
    var keys := seq(|matched|, i requires 0 <= i < |matched| => KeyFor(matched[i], now));
    var values := counter.ReadWithPending(keys);
    var at := Scan(matched, values);
    assert forall i :: 0 <= i < |matched| ==> (Full(matched[i], values[i]) <==> Over(counter.store, matched[i], now));
    if at == |matched| {
      return Allowed;
    }
    assert matched[at] in matched;
    r := Hit(matched[at], values[at].0, values[at].1);
  }

  predicate Full(b: Budget, value: (nat, nat)) { value.0 + value.1 >= ToMicros(b.amount) }

  method Scan(matched: seq<Budget>, values: seq<(nat, nat)>) returns (at: nat)
    requires |values| == |matched|
    ensures at <= |matched| && (at < |matched| ==> Full(matched[at], values[at]))
    ensures forall k :: 0 <= k < at ==> !Full(matched[k], values[k])
  {
    at := 0;
    while at < |matched| && !Full(matched[at], values[at])
      invariant 0 <= at <= |matched|
      invariant forall k :: 0 <= k < at ==> !Full(matched[k], values[k])
    {
      at := at + 1;
    }
  }

  /** The listed budget governs and has reached its amount, and no governing one listed before it has. */
  ghost predicate IsFirstReached(store: Store, all: seq<Budget>, agentId: Option<string>, b: Budget, now: nat) {
    exists i :: 0 <= i < |all| && all[i] == b && Governs(b, agentId) && ReachesUsd(Committed(store, b, now), b.amount)
                && forall k :: 0 <= k < i && Governs(all[k], agentId) ==> !ReachesUsd(Committed(store, all[k], now), all[k].amount)
  }

  lemma {:induction false} FirstIsFirst(store: Store, all: seq<Budget>, agentId: Option<string>, b: Budget, now: nat)
    requires IsFirstOver(store, GoverningOf(all, agentId), b, now)
    ensures IsFirstReached(store, all, agentId, b, now)
  {
    var matched := GoverningOf(all, agentId);
    var i :| 0 <= i < |matched| && matched[i] == b && Over(store, b, now) && forall k :: 0 <= k < i ==> !Over(store, matched[k], now);
    var at := GoverningInOrder(all, agentId, i);
    forall c
      ensures Over(store, c, now) <==> ReachesUsd(Committed(store, c, now), c.amount)
    {
      MicrosOfUsd(Committed(store, c, now), c.amount);
    }
  }

  /** The first governing budget at or over its amount, if any; money reserved by batches counts as spent. */
  method CheckBlocked(counter: SpendCounter, cached: Option<seq<Budget>>, agentId: Option<string>, now: nat, recent: bool, failOpen: bool)
      returns (r: Blocked)
    ensures cached.None? ==> r == if failOpen then Allowed else BlockUnavailable
    ensures cached.Some? && !Governed(cached.value, agentId) ==> r.Allowed?
    ensures cached.Some? && Governed(cached.value, agentId) && !recent ==> r == if failOpen then Allowed else BlockUnavailable
    ensures cached.Some? && Governed(cached.value, agentId) && recent
            ==> !r.BlockUnavailable? && (r.Allowed? <==> forall b :: b in cached.value && Governs(b, agentId)
                                                           ==> !ReachesUsd(Committed(counter.store, b, now), b.amount))
    ensures r.Hit? ==> ReachesUsd(Committed(counter.store, r.budget, now), r.budget.amount)
    ensures r.Hit? ==> cached.Some? && r.budget in cached.value && Governs(r.budget, agentId)
                       && IsFirstReached(counter.store, cached.value, agentId, r.budget, now)
                       && r.spent == Read(counter.store, KeyFor(r.budget, now)) && r.pending == Pending(counter.store, KeyFor(r.budget, now))
  {
    if cached.None? {
      return if failOpen then Allowed else BlockUnavailable;
    }
    var matched := Matching(cached.value, agentId);
    if matched == [] {
      return Allowed;
    }
    assert matched[0] in matched;
    if !recent {
      return if failOpen then Allowed else BlockUnavailable;
    }
    forall b
      ensures Over(counter.store, b, now) <==> ReachesUsd(Committed(counter.store, b, now), b.amount)
    {
      MicrosOfUsd(Committed(counter.store, b, now), b.amount);
    }
    r := FirstOver(counter, matched, now);
    if r.Hit? {
      FirstIsFirst(counter.store, cached.value, agentId, r.budget, now);
    }
  }

  /** A reservation never takes the last micro-dollar from under a block: whatever it admits leaves every governing
      budget at most full, and a budget it fills exactly blocks the next request. */
  lemma {:induction false} FullBudgetBlocks(before: Store, after: Store, keys: seq<string>, all: seq<Budget>, agentId: Option<string>, at: nat, ceiling: nat, b: Budget)
    requires OutcomeOk(Reserved(keys), before, after, all, agentId, at, ceiling, None) && b in all && Governs(b, agentId)
    requires ToMicros(b.amount) >= 0
    ensures ReachesUsd(Committed(after, b, at), b.amount) <==> Committed(before, b, at) + ceiling == ToMicros(b.amount)
  {
    AllOrNothing(Reserved(keys), before, after, all, agentId, at, ceiling);
    MicrosOfUsd(Committed(after, b, at), b.amount);
    assert KeyFor(b, at) in keys;
  }
}
