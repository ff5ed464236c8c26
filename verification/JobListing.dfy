/** The batch-job listing: keyset pages in the order active first, then newest, then id, and their opaque cursors. */
module JobListing {
  import opened Options
  import opened Text

  // ---- cursors ----

  datatype Cursor = Cursor(terminal: bool, submittedAt: string, id: string)

  /** The text under the base64 of a cursor. */
  function Encode(c: Cursor): string { Join([if c.terminal then "1" else "0", c.submittedAt, c.id], '|') }

  /** Digits where the pattern says `d`, the pattern's own characters elsewhere. */
  const SUBMITTED_AT := "dddd-dd-ddTdd:dd:dd.ddddddZ"

  predicate IsTimestamp(s: string) {
    |s| == |SUBMITTED_AT| && forall i :: 0 <= i < |s| ==> if SUBMITTED_AT[i] == 'd' then '0' <= s[i] <= '9' else s[i] == SUBMITTED_AT[i]
  }

  /** A UTC instant to the microsecond, as the database prints it. */
  lemma {:induction false} TimestampIs(s: string)
    ensures IsTimestamp(s) <==> |s| == 27 && s[4] == '-' && s[7] == '-' && s[10] == 'T' && s[13] == ':' && s[16] == ':' && s[19] == '.' && s[26] == 'Z'
                                && forall i :: 0 <= i < 26 && i !in {4, 7, 10, 13, 16, 19} ==> '0' <= s[i] <= '9'
  {
    assert |SUBMITTED_AT| == 27;
    assert forall i :: 0 <= i < 27 && i !in {4, 7, 10, 13, 16, 19, 26} ==> SUBMITTED_AT[i] == 'd';
  }

  /** `None` for anything that is not a cursor this listing produced. */
  function Decode(raw: string): Option<Cursor> {
    var parts := Split(raw, '|');
    if |parts| != 3 then None
    else if (parts[0] != "0" && parts[0] != "1") || !IsTimestamp(parts[1]) || parts[2] == "" then None
    else Some(Cursor(parts[0] == "1", parts[1], parts[2]))
  }

  predicate Wellformed(c: Cursor) { IsTimestamp(c.submittedAt) && c.id != "" && Without(c.id, '|') }

  lemma {:induction false} TimestampPlain(s: string)
    requires IsTimestamp(s)
    ensures Without(s, '|')
  {
    forall i | 0 <= i < |s|
      ensures s[i] != '|'
    {
      assert SUBMITTED_AT[i] != '|' by {
        PatternPlain();
      }
    }
  }

  lemma {:induction false} PatternPlain()
    ensures Without(SUBMITTED_AT, '|')
  {
  }

  /** A cursor decodes to itself exactly when it has a full timestamp and an id without a separator. */
  lemma {:induction false} RoundTripIff(c: Cursor)
    ensures Decode(Encode(c)) == Some(c) <==> Wellformed(c)
  {
    var parts := [if c.terminal then "1" else "0", c.submittedAt, c.id];
    assert "1"[0] != "0"[0];
    if Wellformed(c) {
      TimestampPlain(c.submittedAt);
      SplitJoin(parts, '|');
    } else {
      JoinSplit(Encode(c), '|');
    }
  }

  /** Whatever decodes was produced by encoding what it decodes to. */
  lemma {:induction false} DecodeSound(raw: string)
    requires Decode(raw).Some?
    ensures Encode(Decode(raw).value) == raw && Wellformed(Decode(raw).value)
  {
    var parts := Split(raw, '|');
    JoinSplit(raw, '|');
    assert parts == [parts[0], parts[1], parts[2]];
  }

  // ---- the order ----

  /** A listed row; submission times are compared at full precision, here as numbers. */
  datatype Row = Row(id: nat, submittedAt: int, terminal: bool)

  /** Where a page stopped. */
  datatype Key = Key(terminal: bool, submittedAt: int, id: nat)

  function KeyOf(r: Row): Key { Key(r.terminal, r.submittedAt, r.id) }

  /** Active before terminal, then later submissions first, then larger ids first. */
  predicate Before(a: Key, b: Key) {
    if a.terminal != b.terminal then b.terminal
    else a.submittedAt > b.submittedAt || (a.submittedAt == b.submittedAt && a.id > b.id)
  }

  /** It is a strict order on keys: what is live comes before what is over; within either a later submission comes before an
      earlier one, and of two submitted at once the one with the larger id. */
  lemma {:induction false} OrderIs(a: Key, b: Key, c: Key)
    ensures !a.terminal && b.terminal ==> Before(a, b)
    ensures a.terminal == b.terminal && a.submittedAt > b.submittedAt ==> Before(a, b)
    ensures a.terminal == b.terminal && a.submittedAt == b.submittedAt && a.id > b.id ==> Before(a, b)
    ensures !(Before(a, b) && Before(b, a)) && (Before(a, b) && Before(b, c) ==> Before(a, c))
    ensures a != b ==> Before(a, b) || Before(b, a)
  {
  }

  predicate OlderSameBand(r: Row, c: Key) { r.submittedAt < c.submittedAt || (r.submittedAt == c.submittedAt && r.id < c.id) }

  /** The query's condition. */
  predicate Follows(r: Row, c: Option<Key>) {
    c.Some? ==> if c.value.terminal then r.terminal && OlderSameBand(r, c.value) else r.terminal || (!r.terminal && OlderSameBand(r, c.value))
  }

  /** It selects exactly the rows after the cursor in the listing's order. */
  lemma {:induction false} FollowsIs(r: Row, c: Key)
    ensures Follows(r, Some(c)) <==> Before(c, KeyOf(r))
  {
  }

  predicate Sorted(rows: seq<Row>) { forall i, k :: 0 <= i < k < |rows| ==> Before(KeyOf(rows[i]), KeyOf(rows[k])) }

  // ---- a page ----

  function Rest(rows: seq<Row>, c: Option<Key>): seq<Row> {
    if rows == [] then []
    else if Follows(rows[0], c) then [rows[0]] + Rest(rows[1..], c)
    else Rest(rows[1..], c)
  }

  datatype Page = Page(rows: seq<Row>, next: Option<Key>)

  /** One row more than the limit tells whether there is a next page. `table` is in listing order. */
  function List(table: seq<Row>, c: Option<Key>, limit: nat): Page
    requires limit >= 1
  {
    var raw := Rest(table, c);
    if |raw| > limit then Page(raw[..limit], Some(KeyOf(raw[limit - 1]))) else Page(raw, None)
  }

  lemma {:induction false} RestIs(rows: seq<Row>, c: Option<Key>, r: Row)
    ensures r in Rest(rows, c) <==> r in rows && Follows(r, c)
  {
    if rows != [] {
      assert rows == [rows[0]] + rows[1..];
      RestIs(rows[1..], c, r);
    }
  }

  lemma {:induction false} RestSorted(rows: seq<Row>, c: Option<Key>)
    requires Sorted(rows)
    ensures Sorted(Rest(rows, c))
  {
    if rows != [] {
      var tail := Rest(rows[1..], c);
      RestSorted(rows[1..], c);
      forall k | 0 <= k < |tail|
        ensures Before(KeyOf(rows[0]), KeyOf(tail[k]))
      {
        RestIs(rows[1..], c, tail[k]);
        var i :| 0 <= i < |rows[1..]| && rows[1..][i] == tail[k];
        assert rows[i + 1] == tail[k];
      }
    }
  }

  /** In a sorted table, what follows the last row of a page is what the page left over. */
  lemma {:induction false} RestOfRest(rows: seq<Row>, c: Option<Key>, n: nat)
    requires Sorted(rows) && 0 < n <= |Rest(rows, c)|
    ensures Rest(rows, Some(KeyOf(Rest(rows, c)[n - 1]))) == Rest(rows, c)[n..]
  {
    var raw := Rest(rows, c);
    RestSorted(rows, c);
    if Follows(rows[0], c) {
      var tail := Rest(rows[1..], c);
      if n == 1 {
        AllFollow(rows, c);
      } else {
        assert raw[n - 1] == tail[n - 2];
        RestOfRest(rows[1..], c, n - 1);
        assert Before(KeyOf(raw[0]), KeyOf(raw[n - 1]));
      }
    } else {
      RestOfRest(rows[1..], c, n);
      FirstBefore(rows, c, n);
    }
  }

  /** After the first row of a sorted table come all the others. */
  lemma {:induction false} AllFollow(rows: seq<Row>, c: Option<Key>)
    requires rows != [] && Sorted(rows) && Follows(rows[0], c)
    ensures Rest(rows, Some(KeyOf(rows[0]))) == Rest(rows[1..], c)
  {
    forall i | 0 <= i < |rows[1..]|
      ensures Follows(rows[1..][i], Some(KeyOf(rows[0]))) && Follows(rows[1..][i], c)
    {
      assert rows[1..][i] == rows[i + 1];
    }
    RestAll(rows[1..], c);
    RestAll(rows[1..], Some(KeyOf(rows[0])));
  }

  lemma {:induction false} RestAll(rows: seq<Row>, c: Option<Key>)
    requires forall i :: 0 <= i < |rows| ==> Follows(rows[i], c)
    ensures Rest(rows, c) == rows
  {
    if rows != [] {
      assert forall i :: 0 <= i < |rows[1..]| ==> rows[1..][i] == rows[i + 1];
      RestAll(rows[1..], c);
    }
  }

  lemma {:induction false} FirstBefore(rows: seq<Row>, c: Option<Key>, n: nat)
    requires rows != [] && Sorted(rows) && !Follows(rows[0], c) && 0 < n <= |Rest(rows[1..], c)|
    ensures !Follows(rows[0], Some(KeyOf(Rest(rows[1..], c)[n - 1])))
  {
    var r := Rest(rows[1..], c)[n - 1];
    RestIs(rows[1..], c, r);
    var i :| 0 <= i < |rows[1..]| && rows[1..][i] == r;
    assert rows[i + 1] == r && Before(KeyOf(rows[0]), KeyOf(r));
  }

  // ---- an unchanging table ----

  /** The pages from a cursor on, following each to the next. */
  function Pages(table: seq<Row>, c: Option<Key>, limit: nat): seq<seq<Row>>
    requires limit >= 1 && Sorted(table)
    decreases |Rest(table, c)|
  {
    var p := List(table, c, limit);
    if p.next.None? then [p.rows]
    else
      RestOfRest(table, c, limit);
      [p.rows] + Pages(table, p.next, limit)
  }

  function Concat(pages: seq<seq<Row>>): seq<Row> { if pages == [] then [] else pages[0] + Concat(pages[1..]) }

  lemma {:induction false} PagesConcat(table: seq<Row>, c: Option<Key>, limit: nat)
    requires limit >= 1 && Sorted(table)
    ensures Concat(Pages(table, c, limit)) == Rest(table, c)
    ensures forall i :: 0 <= i < |Pages(table, c, limit)| ==> |Pages(table, c, limit)[i]| <= limit
    decreases |Rest(table, c)|
  {
    var p := List(table, c, limit);
    if p.next.Some? {
      RestOfRest(table, c, limit);
      PagesConcat(table, p.next, limit);
      assert ([p.rows] + Pages(table, p.next, limit))[1..] == Pages(table, p.next, limit);
    } else {
      assert [p.rows][1..] == [];
    }
  }

  /** On an unchanging table paging ends, and the pages, one after the other, are the whole list in order, each row once. */
  lemma {:induction false} PagesAreTheList(table: seq<Row>, limit: nat)
    requires limit >= 1 && Sorted(table)
    ensures Concat(Pages(table, None, limit)) == table
  {
    PagesConcat(table, None, limit);
    RestAll(table, None);
  }

  // ---- a table that changes between pages ----

  /** One page per table state: the cursors a walk follows. */
  function CursorAt(tables: seq<seq<Row>>, limit: nat, k: nat): Option<Key>
    requires limit >= 1 && k <= |tables|
  {
    if k == 0 then None else List(tables[k - 1], CursorAt(tables, limit, k - 1), limit).next
  }

  /** The walk goes on to the last table, where it ends. */
  predicate Walk(tables: seq<seq<Row>>, limit: nat)
    requires limit >= 1
  {
    && tables != [] && (forall k :: 0 <= k < |tables| ==> Sorted(tables[k]))
    && (forall k :: 0 < k < |tables| ==> CursorAt(tables, limit, k).Some?) && CursorAt(tables, limit, |tables|).None?
  }

  /** The row is in every table; it may turn terminal on the way, never back. */
  predicate Persists(tables: seq<seq<Row>>, versions: seq<Row>) {
    && |versions| == |tables|
    && (forall k :: 0 <= k < |tables| ==> versions[k] in tables[k])
    && (forall k :: 0 < k < |tables| ==> Later(versions[k - 1], versions[k]))
  }

  predicate Later(a: Row, b: Row) { b.id == a.id && b.submittedAt == a.submittedAt && (a.terminal ==> b.terminal) }

  predicate Visited(tables: seq<seq<Row>>, versions: seq<Row>, limit: nat, k: nat)
    requires limit >= 1 && k < |tables| && |versions| == |tables|
  {
    versions[k] in List(tables[k], CursorAt(tables, limit, k), limit).rows
  }

  /** A row the walk has not listed yet is still ahead of its cursor. */
  lemma {:induction false} StillAhead(tables: seq<seq<Row>>, versions: seq<Row>, limit: nat, k: nat)
    requires limit >= 1 && Walk(tables, limit) && Persists(tables, versions) && k < |tables|
    requires forall i :: 0 <= i < k ==> !Visited(tables, versions, limit, i)
    ensures Follows(versions[k], CursorAt(tables, limit, k))
  {
    if k > 0 {
      StillAhead(tables, versions, limit, k - 1);
      var c := CursorAt(tables, limit, k - 1);
      RestIs(tables[k - 1], c, versions[k - 1]);
      RestSorted(tables[k - 1], c);
      assert !Visited(tables, versions, limit, k - 1) && CursorAt(tables, limit, k).Some?;
      PastPage(Rest(tables[k - 1], c), limit, versions[k - 1]);
      assert Later(versions[k - 1], versions[k]);
    }
  }

  /** A row left over by a full page comes after the page's last row. */
  lemma {:induction false} PastPage(raw: seq<Row>, limit: nat, r: Row)
    requires limit >= 1 && Sorted(raw) && r in raw
    requires |raw| > limit && r !in raw[..limit]
    ensures Before(KeyOf(raw[limit - 1]), KeyOf(r))
  {
    assert forall j :: 0 <= j < limit ==> raw[..limit][j] == raw[j];
    var i :| 0 <= i < |raw| && raw[i] == r;
    assert limit <= i;
  }

  /** Following cursors to the end lists every row that exists throughout, even when jobs turn terminal, arrive or disappear
      between the pages: repeats are possible, skips are not. */
  lemma {:induction false} NoSkips(tables: seq<seq<Row>>, versions: seq<Row>, limit: nat)
    requires limit >= 1 && Walk(tables, limit) && Persists(tables, versions)
    ensures exists k :: 0 <= k < |tables| && Visited(tables, versions, limit, k)
  {
    if forall k :: 0 <= k < |tables| ==> !Visited(tables, versions, limit, k) {
      var last := |tables| - 1;
      StillAhead(tables, versions, limit, last);
      RestIs(tables[last], CursorAt(tables, limit, last), versions[last]);
      assert CursorAt(tables, limit, last + 1).None?;
      assert Visited(tables, versions, limit, last);
    }
  }
}
