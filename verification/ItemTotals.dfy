/** The result rows of one batch, keyed by `custom_id`, and the totals a job row stores about them. */
module ItemTotals {
  type CustomId = string

  /** A ledger row of one result item; an unpriced item counts as cost 0. */
  datatype ItemRow = ItemRow(ok: bool, costMicros: nat)

  datatype Totals = Totals(completed: nat, failed: nat, cost: nat)

  const ZERO := Totals(0, 0, 0)

  function Plus(t: Totals, r: ItemRow): Totals {
    Totals(t.completed + (if r.ok then 1 else 0), t.failed + (if r.ok then 0 else 1), t.cost + r.costMicros)
  }

  /** Successes, failures and summed cost over the rows, in no particular order. */
  ghost function TotalsOf(m: map<CustomId, ItemRow>): Totals {
    if m == map[] then ZERO
    else
      var c :| c in m;
      Plus(TotalsOf(m - {c}), m[c])
  }

  /** The totals do not depend on the order in which the rows are picked. */
  lemma {:induction false} TotalsWithout(m: map<CustomId, ItemRow>, c: CustomId)
    requires c in m
    ensures TotalsOf(m) == Plus(TotalsOf(m - {c}), m[c])
    decreases |m|
  {
    var d :| d in m && TotalsOf(m) == Plus(TotalsOf(m - {d}), m[d]);
    if d != c {
      TotalsWithout(m - {d}, c);
      TotalsWithout(m - {c}, d);
      var rest := m - {d} - {c};
      assert rest == m - {c} - {d};
      assert TotalsOf(m - {d}) == Plus(TotalsOf(rest), m[c]);
      assert TotalsOf(m - {c}) == Plus(TotalsOf(rest), m[d]);
      assert TotalsOf(m) == Plus(Plus(TotalsOf(rest), m[c]), m[d]);
      assert Plus(Plus(TotalsOf(rest), m[c]), m[d]) == Plus(Plus(TotalsOf(rest), m[d]), m[c]);
    } else {
      assert m - {d} == m - {c};
    }
  }

  lemma {:induction false} TotalsWith(m: map<CustomId, ItemRow>, c: CustomId, r: ItemRow)
    requires c !in m
    ensures TotalsOf(m[c := r]) == Plus(TotalsOf(m), r)
  {
    TotalsWithout(m[c := r], c);
    assert m[c := r] - {c} == m;
  }

  function Successes(m: map<CustomId, ItemRow>): set<CustomId> { set c | c in m && m[c].ok }

  function Failures(m: map<CustomId, ItemRow>): set<CustomId> { set c | c in m && !m[c].ok }

  lemma {:induction false} CountWithout(m: map<CustomId, ItemRow>, c: CustomId)
    requires c in m
    ensures |Successes(m)| == |Successes(m - {c})| + (if m[c].ok then 1 else 0)
    ensures |Failures(m)| == |Failures(m - {c})| + (if m[c].ok then 0 else 1)
    ensures |m| == |m - {c}| + 1
  {
    assert m == (m - {c})[c := m[c]];
    if m[c].ok {
      assert Successes(m) == Successes(m - {c}) + {c} && Failures(m) == Failures(m - {c});
    } else {
      assert Failures(m) == Failures(m - {c}) + {c} && Successes(m) == Successes(m - {c});
    }
  }

  /** The counts are the numbers of successes and of failures. */
  lemma {:induction false} TotalsCount(m: map<CustomId, ItemRow>)
    ensures TotalsOf(m).completed == |Successes(m)| && TotalsOf(m).failed == |Failures(m)|
    ensures TotalsOf(m).completed + TotalsOf(m).failed == |m|
    decreases |m|
  {
    if m == map[] {
      assert Successes(m) == {} && Failures(m) == {};
    } else {
      var c :| c in m;
      CountWithout(m, c);
      TotalsCount(m - {c});
      TotalsWithout(m, c);
    }
  }
}
