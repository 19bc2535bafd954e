/** Polling for newly ingested messages by rowid. */
module Polling {
  import opened Paging

  // The chat and own-send filters of a poll; an empty chat means every chat.
  datatype Filter = Filter(chatJID: string, includeOwn: bool)

  predicate Matches(f: Filter, r: Row) {
    (f.chatJID == "" || r.chatJID == f.chatJID) && (f.includeOwn || !r.fromMe)
  }

  // No chat named means every chat; our own sends count only when asked for.
  lemma MatchesMeans(f: Filter, r: Row)
    ensures f.chatJID != "" && r.chatJID != f.chatJID ==> !Matches(f, r)
    ensures r.fromMe && !f.includeOwn ==> !Matches(f, r)
    ensures (f.chatJID == "" || r.chatJID == f.chatJID) && (f.includeOwn || !r.fromMe) ==> Matches(f, r)
  {
  }

  // The matching rows with lo < rowid <= hi; no upper end when hi is None.
  function Span(rows: seq<Row>, f: Filter, lo: int, hi: int): seq<Row> {
    if rows == [] then []
    else
      var n := |rows| - 1;
      Span(rows[..n], f, lo, hi) + if lo < rows[n].rowid <= hi && Matches(f, rows[n]) then [rows[n]] else []
  }

  // The matching rows after the cursor, in rowid order.
  function After(rows: seq<Row>, f: Filter, cursor: int): seq<Row> {
    if rows == [] then []
    else
      var n := |rows| - 1;
      After(rows[..n], f, cursor) + if cursor < rows[n].rowid && Matches(f, rows[n]) then [rows[n]] else []
  }

  // The table in rowid order, as the database keeps it.
  ghost predicate ByRowID(rows: seq<Row>) {
    forall i, j :: 0 <= i < j < |rows| ==> rows[i].rowid < rows[j].rowid
  }

  /* ----- one poll ----- */

  function Page(rows: seq<Row>, f: Filter, cursor: int, limit: int): seq<Row> {
    Limit(After(rows, f, cursor), ClampLimit(limit))
  }

  function NextCursor(page: seq<Row>, cursor: int): int {
    if page == [] then cursor else page[|page| - 1].rowid
  }

  method MessagesAfterRowID(table: seq<Row>, f: Filter, cursor: int, limit: int) returns (rows: seq<Row>, next: int)
    ensures rows == Page(table, f, cursor, limit) && next == NextCursor(rows, cursor)
  {
    var selected := Limit(After(table, f, cursor), ClampLimit(limit));
    rows, next := [], cursor;
    for i := 0 to |selected|
      invariant rows == selected[..i] && next == NextCursor(rows, cursor)
    {
      next := selected[i].rowid;
      rows := rows + [selected[i]];
    }
  }

  lemma {:induction false} AfterHolds(rows: seq<Row>, f: Filter, cursor: int)
    requires ByRowID(rows)
    ensures ByRowID(After(rows, f, cursor))
    ensures forall x :: x in After(rows, f, cursor) <==> x in rows && cursor < x.rowid && Matches(f, x)
  {
    if rows != [] {
      AfterHolds(rows[..|rows| - 1], f, cursor);
      assert rows == rows[..|rows| - 1] + [rows[|rows| - 1]];
    }
  }

  // Cutting the stretch after a cursor at one of its rows splits it into what is reported and what is still to come.
  lemma {:induction false} SpanThenAfter(rows: seq<Row>, f: Filter, lo: int, hi: int)
    requires ByRowID(rows) && lo <= hi
    ensures After(rows, f, lo) == Span(rows, f, lo, hi) + After(rows, f, hi)
  {
    if rows != [] {
      var n := |rows| - 1;
      SpanThenAfter(rows[..n], f, lo, hi);
      if rows[n].rowid <= hi {
        NoneAfter(rows[..n], f, hi);
      }
    }
  }

  lemma {:induction false} NoneAfter(rows: seq<Row>, f: Filter, cursor: int)
    requires forall i :: 0 <= i < |rows| ==> rows[i].rowid <= cursor
    ensures After(rows, f, cursor) == []
  {
    if rows != [] {
      NoneAfter(rows[..|rows| - 1], f, cursor);
    }
  }

  lemma {:induction false} SpanHolds(rows: seq<Row>, f: Filter, lo: int, hi: int)
    requires ByRowID(rows)
    ensures ByRowID(Span(rows, f, lo, hi))
    ensures forall x :: x in Span(rows, f, lo, hi) <==> x in rows && lo < x.rowid <= hi && Matches(f, x)
  {
    if rows != [] {
      SpanHolds(rows[..|rows| - 1], f, lo, hi);
      assert rows == rows[..|rows| - 1] + [rows[|rows| - 1]];
    }
  }

  lemma BoundsByIndex(rows: seq<Row>, f: Filter, lo: int, hi: int)
    requires ByRowID(rows)
    ensures forall i :: 0 <= i < |Span(rows, f, lo, hi)| ==> lo < Span(rows, f, lo, hi)[i].rowid <= hi
    ensures forall i :: 0 <= i < |After(rows, f, hi)| ==> hi < After(rows, f, hi)[i].rowid
  {
    SpanHolds(rows, f, lo, hi);
    AfterHolds(rows, f, hi);
  }

  // Where a joined sequence crosses hi is where its parts meet.
  lemma PartsMeet(early: seq<Row>, late: seq<Row>, hi: int, k: nat)
    requires forall i :: 0 <= i < |early| ==> early[i].rowid <= hi
    requires forall i :: 0 <= i < |late| ==> hi < late[i].rowid
    requires k <= |early + late|
    requires k > 0 ==> (early + late)[k - 1].rowid <= hi
    requires k < |early + late| ==> hi < (early + late)[k].rowid
    ensures |early| == k && (early + late)[..k] == early && (early + late)[k..] == late
  {
  }

  // A cursor between the k-th and the next matching row cuts what follows an earlier cursor at k.
  lemma CutAt(rows: seq<Row>, f: Filter, lo: int, hi: int, k: nat)
    requires ByRowID(rows) && lo <= hi && k <= |After(rows, f, lo)|
    requires k > 0 ==> After(rows, f, lo)[k - 1].rowid <= hi
    requires k < |After(rows, f, lo)| ==> hi < After(rows, f, lo)[k].rowid
    ensures Span(rows, f, lo, hi) == After(rows, f, lo)[..k]
    ensures After(rows, f, hi) == After(rows, f, lo)[k..]
  {
    SpanThenAfter(rows, f, lo, hi);
    BoundsByIndex(rows, f, lo, hi);
    PartsMeet(Span(rows, f, lo, hi), After(rows, f, hi), hi, k);
  }

  // A page is the stretch from its cursor to the one it returns.
  lemma PageIsASpan(rows: seq<Row>, f: Filter, cursor: int, limit: int)
    requires ByRowID(rows)
    ensures var page := Page(rows, f, cursor, limit);
            cursor <= NextCursor(page, cursor) && page == Span(rows, f, cursor, NextCursor(page, cursor))
  {
    var all, page := After(rows, f, cursor), Page(rows, f, cursor, limit);
    AfterHolds(rows, f, cursor);
    if page == [] {
      SpanThenAfter(rows, f, cursor, cursor);
    } else {
      assert page[|page| - 1] == all[|page| - 1] && all[|page| - 1] in all;
      CutAt(rows, f, cursor, NextCursor(page, cursor), |page|);
    }
  }

  /* ----- a chain of polls, with other writes in between ----- */

  // Without AUTOINCREMENT an insert takes the rowid after the newest there is; an update keeps the rowid,
  // whatever else it changes. The rowid of the event's own row is ignored.
  datatype Event = Insert(row: Row) | Update(rowid: int, row: Row) | Delete(rowid: int) | Poll(limit: int)

  // `known` holds the rowids of live rows that were reported, or matched at or before the starting cursor.
  datatype Chain = Chain(table: seq<Row>, cursor: int, reported: seq<Row>, known: set<int>)

  function NextRowID(table: seq<Row>): int {
    if table == [] then 1 else table[|table| - 1].rowid + 1
  }

  function Placed(table: seq<Row>, row: Row): Row {
    row.(rowid := NextRowID(table))
  }

  function WithoutRow(table: seq<Row>, rowid: int): seq<Row> {
    if table == [] then []
    else
      var n := |table| - 1;
      WithoutRow(table[..n], rowid) + if table[n].rowid == rowid then [] else [table[n]]
  }

  function Updated(table: seq<Row>, rowid: int, row: Row): seq<Row> {
    seq(|table|, i requires 0 <= i < |table| => if table[i].rowid == rowid then row.(rowid := rowid) else table[i])
  }

  function RowIDs(rows: seq<Row>): set<int> {
    set x | x in rows :: x.rowid
  }

  function Step(c: Chain, f: Filter, e: Event): Chain {
    match e
    case Insert(row) => c.(table := c.table + [Placed(c.table, row)])
    case Update(rowid, row) => c.(table := Updated(c.table, rowid, row))
    case Delete(rowid) => c.(table := WithoutRow(c.table, rowid), known := c.known - {rowid})
    case Poll(limit) =>
      var page := Page(c.table, f, c.cursor, limit);
      c.(cursor := NextCursor(page, c.cursor), reported := c.reported + page, known := c.known + RowIDs(page))
  }

  function RunFrom(c: Chain, f: Filter, es: seq<Event>): Chain {
    if es == [] then c else Step(RunFrom(c, f, es[..|es| - 1]), f, es[|es| - 1])
  }

  function From(table: seq<Row>, f: Filter, cursor: int): Chain {
    Chain(table, cursor, [], set x | x in table && Matches(f, x) && x.rowid <= cursor :: x.rowid)
  }

  // A table as the database keeps it.
  ghost predicate Stored(table: seq<Row>) {
    ByRowID(table) && forall i :: 0 <= i < |table| ==> 0 < table[i].rowid
  }

  // The cursor is no further than some row that is still there, or at the very start.
  predicate Safe(table: seq<Row>, cursor: int) {
    cursor == 0 || exists i :: 0 <= i < |table| && cursor <= table[i].rowid
  }

  lemma SafeMeansAhead(table: seq<Row>, cursor: int)
    requires Stored(table) && 0 <= cursor
    ensures Safe(table, cursor) <==> cursor < NextRowID(table)
  {
    if table != [] && cursor < NextRowID(table) {
      assert cursor <= table[|table| - 1].rowid;
    }
  }

  // Exactly when an arrival is still to come for a poll.
  lemma ArrivalIsSeenIffSafe(table: seq<Row>, f: Filter, cursor: int, row: Row)
    requires Stored(table) && 0 <= cursor && Matches(f, row)
    ensures var x := Placed(table, row); x in After(table + [x], f, cursor) <==> Safe(table, cursor)
  {
    var x := Placed(table, row);
    assert (table + [x])[..|table|] == table;
    InsertKeepsStored(table, row);
    AfterHolds(table + [x], f, cursor);
    SafeMeansAhead(table, cursor);
    assert (table + [x])[|table|] == x;
  }

  lemma InsertKeepsStored(table: seq<Row>, row: Row)
    requires Stored(table)
    ensures Stored(table + [Placed(table, row)])
  {
  }

  lemma WithoutRowHolds(table: seq<Row>, rowid: int)
    requires Stored(table)
    ensures Stored(WithoutRow(table, rowid))
    ensures forall x :: x in WithoutRow(table, rowid) <==> x in table && x.rowid != rowid
  {
    WithoutRowMembers(table, rowid);
    WithoutRowKeepsOrder(table, rowid);
    var kept := WithoutRow(table, rowid);
    forall i | 0 <= i < |kept|
      ensures 0 < kept[i].rowid
    {
      assert kept[i] in table;
    }
  }

  lemma {:induction false} WithoutRowMembers(table: seq<Row>, rowid: int)
    ensures forall x :: x in WithoutRow(table, rowid) <==> x in table && x.rowid != rowid
  {
    if table != [] {
      WithoutRowMembers(table[..|table| - 1], rowid);
      assert table == table[..|table| - 1] + [table[|table| - 1]];
    }
  }

  lemma {:induction false} WithoutRowKeepsOrder(table: seq<Row>, rowid: int)
    requires ByRowID(table)
    ensures ByRowID(WithoutRow(table, rowid))
  {
    if table != [] {
      var before, last := table[..|table| - 1], table[|table| - 1];
      WithoutRowKeepsOrder(before, rowid);
      WithoutRowMembers(before, rowid);
      LastIsNewest(before, WithoutRow(before, rowid), last);
    }
  }

  lemma UpdatedHolds(table: seq<Row>, rowid: int, row: Row)
    requires Stored(table)
    ensures Stored(Updated(table, rowid, row)) && RowIDs(Updated(table, rowid, row)) == RowIDs(table)
    ensures forall x :: x in Updated(table, rowid, row) <==>
              (x in table && x.rowid != rowid) || (rowid in RowIDs(table) && x == row.(rowid := rowid))
  {
    var u, r := Updated(table, rowid, row), row.(rowid := rowid);
    forall x | (x in table && x.rowid != rowid) || (rowid in RowIDs(table) && x == r)
      ensures x in u
    {
      var y :| y in table && if x in table && x.rowid != rowid then y == x else y.rowid == rowid;
      var i :| 0 <= i < |table| && table[i] == y;
      assert u[i] == x;
    }
    forall id | id in RowIDs(table)
      ensures id in RowIDs(u)
    {
      var y :| y in table && y.rowid == id;
      assert (if id == rowid then r else y) in u;
    }
  }

  // Exactly when an update that brings a row into the filter is still to come for a poll: the rowid decides.
  lemma UpdateIsSeenIffAhead(table: seq<Row>, f: Filter, cursor: int, i: nat, row: Row)
    requires Stored(table) && i < |table| && Matches(f, row)
    ensures var u := Updated(table, table[i].rowid, row);
            u[i] in After(u, f, cursor) <==> cursor < table[i].rowid
  {
    UpdatedHolds(table, table[i].rowid, row);
    AfterHolds(Updated(table, table[i].rowid, row), f, cursor);
  }

  /* ----- what a chain has reported ----- */

  // Whatever happens: reports come in rowid order, no rowid twice, and what counts as known is live and was told.
  ghost predicate Told(c: Chain, from: int) {
    && Stored(c.table) && 0 <= from <= c.cursor && ByRowID(c.reported)
    && (forall x :: x in c.reported ==> from < x.rowid <= c.cursor)
    && (forall id :: id in c.known ==> id in RowIDs(c.table) && id <= c.cursor)
    && (forall id :: id in c.known && from < id ==> id in RowIDs(c.reported))
  }

  // No matching row has been passed over.
  ghost predicate Covered(c: Chain, f: Filter) {
    forall x :: x in c.table && Matches(f, x) && x.rowid <= c.cursor ==> x.rowid in c.known
  }

  // An arrival comes while the cursor is no further than some row that is still there;
  // an update brings a row into the filter only past the cursor, or where it was known already.
  ghost predicate SafeAt(c: Chain, f: Filter, e: Event) {
    match e
    case Insert(row) => Matches(f, row) ==> Safe(c.table, c.cursor)
    case Update(rowid, row) =>
      rowid in RowIDs(c.table) && Matches(f, row) ==> c.cursor < rowid || rowid in c.known
    case _ => true
  }

  lemma InsertedHolds(c: Chain, f: Filter, row: Row, from: int)
    requires Told(c, from)
    ensures Told(Step(c, f, Insert(row)), from)
    ensures NextRowID(c.table) !in c.known
    ensures Covered(c, f) ==> (Covered(Step(c, f, Insert(row)), f) <==> SafeAt(c, f, Insert(row)))
  {
    InsertKeepsStored(c.table, row);
    SafeMeansAhead(c.table, c.cursor);
    forall x | x in c.table
      ensures x.rowid < NextRowID(c.table)
    {
      var i :| 0 <= i < |c.table| && c.table[i] == x;
    }
    var all := c.table + [Placed(c.table, row)];
    assert all[|c.table|] == Placed(c.table, row);
    assert forall x :: x in all <==> x in c.table || x == Placed(c.table, row);
  }

  lemma UpdateHolds(c: Chain, f: Filter, rowid: int, row: Row, from: int)
    requires Told(c, from)
    ensures Told(Step(c, f, Update(rowid, row)), from)
    ensures Covered(c, f) ==> (Covered(Step(c, f, Update(rowid, row)), f) <==> SafeAt(c, f, Update(rowid, row)))
  {
    UpdatedHolds(c.table, rowid, row);
    var c' := Step(c, f, Update(rowid, row));
    assert rowid in RowIDs(c.table) ==> row.(rowid := rowid) in c'.table;
  }

  lemma DeleteHolds(c: Chain, f: Filter, rowid: int, from: int)
    requires Told(c, from)
    ensures Told(Step(c, f, Delete(rowid)), from)
    ensures Covered(c, f) ==> Covered(Step(c, f, Delete(rowid)), f)
  {
    WithoutRowHolds(c.table, rowid);
    var kept := WithoutRow(c.table, rowid);
    forall id | id in c.known && id != rowid
      ensures id in RowIDs(kept)
    {
      var x :| x in c.table && x.rowid == id;
      assert x in kept;
    }
  }

  lemma PollHolds(c: Chain, f: Filter, limit: int, from: int)
    requires Told(c, from)
    ensures Told(Step(c, f, Poll(limit)), from)
    ensures Covered(c, f) ==> Covered(Step(c, f, Poll(limit)), f)
  {
    var page := Page(c.table, f, c.cursor, limit);
    var next := NextCursor(page, c.cursor);
    PageHolds(c.table, f, c.cursor, limit);
    JoinByRowID(c.reported, page, c.cursor);
    RowIDsJoin(c.reported, page);
  }

  // A page holds the matching rows between its cursors, and all of them.
  lemma PageHolds(table: seq<Row>, f: Filter, cursor: int, limit: int)
    requires ByRowID(table)
    ensures var page := Page(table, f, cursor, limit);
            var next := NextCursor(page, cursor);
            ByRowID(page) && cursor <= next &&
            forall x :: x in page <==> x in table && cursor < x.rowid <= next && Matches(f, x)
  {
    PageIsASpan(table, f, cursor, limit);
    SpanHolds(table, f, cursor, NextCursor(Page(table, f, cursor, limit), cursor));
  }

  lemma RowIDsJoin(a: seq<Row>, b: seq<Row>)
    ensures RowIDs(a + b) == RowIDs(a) + RowIDs(b)
    ensures forall x :: x in a + b <==> x in a || x in b
  {
    assert forall x :: x in a + b <==> x in a || x in b;
  }

  lemma StepHolds(c: Chain, f: Filter, e: Event, from: int)
    requires Told(c, from)
    ensures Told(Step(c, f, e), from)
    ensures Covered(c, f) ==> (Covered(Step(c, f, e), f) <==> SafeAt(c, f, e))
  {
    match e
    case Insert(row) => InsertedHolds(c, f, row, from);
    case Update(rowid, row) => UpdateHolds(c, f, rowid, row, from);
    case Delete(rowid) => DeleteHolds(c, f, rowid, from);
    case Poll(limit) => PollHolds(c, f, limit, from);
  }

  lemma JoinByRowID(a: seq<Row>, b: seq<Row>, mid: int)
    requires ByRowID(a) && ByRowID(b)
    requires (forall x :: x in a ==> x.rowid <= mid) && (forall x :: x in b ==> mid < x.rowid)
    ensures ByRowID(a + b)
  {
    assert forall i :: 0 <= i < |a| ==> a[i] in a;
    assert forall i :: 0 <= i < |b| ==> b[i] in b;
  }

  /* ----- whole chains ----- */

  ghost predicate SafeEvents(c: Chain, f: Filter, es: seq<Event>) {
    forall k :: 0 <= k < |es| ==> SafeAt(RunFrom(c, f, es[..k]), f, es[k])
  }

  lemma SafeEventsPrefix(c: Chain, f: Filter, es: seq<Event>)
    requires SafeEvents(c, f, es) && es != []
    ensures SafeEvents(c, f, es[..|es| - 1]) && SafeAt(RunFrom(c, f, es[..|es| - 1]), f, es[|es| - 1])
  {
    var before := es[..|es| - 1];
    forall k | 0 <= k < |before|
      ensures SafeAt(RunFrom(c, f, before[..k]), f, before[k])
    {
      assert before[..k] == es[..k] && before[k] == es[k];
    }
  }

  lemma SafeEventsGrow(c: Chain, f: Filter, es: seq<Event>)
    requires es != [] && SafeEvents(c, f, es[..|es| - 1])
    requires SafeAt(RunFrom(c, f, es[..|es| - 1]), f, es[|es| - 1])
    ensures SafeEvents(c, f, es)
  {
    var before := es[..|es| - 1];
    forall k | 0 <= k < |es|
      ensures SafeAt(RunFrom(c, f, es[..k]), f, es[k])
    {
      if k < |before| {
        assert before[..k] == es[..k] && before[k] == es[k];
        assert SafeAt(RunFrom(c, f, before[..k]), f, before[k]);
      }
    }
  }

  lemma {:induction false} RunStaysTold(table: seq<Row>, f: Filter, from: int, es: seq<Event>)
    requires Stored(table) && 0 <= from
    ensures Told(RunFrom(From(table, f, from), f, es), from)
  {
    if es != [] {
      RunStaysTold(table, f, from, es[..|es| - 1]);
      StepHolds(RunFrom(From(table, f, from), f, es[..|es| - 1]), f, es[|es| - 1], from);
    }
  }

  lemma {:induction false} RunStaysCovered(table: seq<Row>, f: Filter, from: int, es: seq<Event>)
    requires Stored(table) && 0 <= from && SafeEvents(From(table, f, from), f, es)
    ensures Covered(RunFrom(From(table, f, from), f, es), f)
  {
    if es != [] {
      SafeEventsPrefix(From(table, f, from), f, es);
      RunStaysTold(table, f, from, es[..|es| - 1]);
      RunStaysCovered(table, f, from, es[..|es| - 1]);
      StepHolds(RunFrom(From(table, f, from), f, es[..|es| - 1]), f, es[|es| - 1], from);
    }
  }

  ghost predicate AlwaysCovered(c: Chain, f: Filter, es: seq<Event>) {
    forall k :: 0 <= k <= |es| ==> Covered(RunFrom(c, f, es[..k]), f)
  }

  // At no point of a chain is a matching row passed over, if and only if every arrival and every update was safe.
  lemma NothingIsSkippedIffSafe(table: seq<Row>, f: Filter, from: int, es: seq<Event>)
    requires Stored(table) && 0 <= from
    ensures AlwaysCovered(From(table, f, from), f, es) <==> SafeEvents(From(table, f, from), f, es)
  {
    var c := From(table, f, from);
    if SafeEvents(c, f, es) {
      forall k | 0 <= k <= |es|
        ensures Covered(RunFrom(c, f, es[..k]), f)
      {
        SafeEventsCut(c, f, es, k);
        RunStaysCovered(table, f, from, es[..k]);
      }
    }
    if AlwaysCovered(c, f, es) {
      forall k | 0 <= k < |es|
        ensures SafeAt(RunFrom(c, f, es[..k]), f, es[k])
      {
        assert es[..k + 1][..k] == es[..k];
        RunStaysTold(table, f, from, es[..k]);
        StepHolds(RunFrom(c, f, es[..k]), f, es[k], from);
        assert Covered(RunFrom(c, f, es[..k]), f) && Covered(RunFrom(c, f, es[..k + 1]), f);
      }
    }
  }

  lemma SafeEventsCut(c: Chain, f: Filter, es: seq<Event>, n: nat)
    requires SafeEvents(c, f, es) && n <= |es|
    ensures SafeEvents(c, f, es[..n])
  {
    forall k | 0 <= k < n
      ensures SafeAt(RunFrom(c, f, es[..n][..k]), f, es[..n][k])
    {
      assert es[..n][..k] == es[..k] && es[..n][k] == es[k];
    }
  }

  /* ----- as sequences of rowids ----- */

  function Ids(rows: seq<Row>): seq<int> {
    seq(|rows|, i requires 0 <= i < |rows| => rows[i].rowid)
  }

  // The reported rowids, in order of report, that are among ids.
  function Kept(reported: seq<Row>, ids: set<int>): seq<int> {
    if reported == [] then []
    else
      var n := |reported| - 1;
      Kept(reported[..n], ids) + if reported[n].rowid in ids then [reported[n].rowid] else []
  }

  // Rows that are known and match now.
  function KnownMatching(c: Chain, f: Filter): set<int> {
    set x | x in c.table && Matches(f, x) && x.rowid in c.known :: x.rowid
  }

  ghost predicate Increasing(s: seq<int>) {
    forall i, j :: 0 <= i < j < |s| ==> s[i] < s[j]
  }

  lemma IdsHold(rows: seq<Row>)
    requires ByRowID(rows)
    ensures Increasing(Ids(rows)) && forall id :: id in Ids(rows) <==> id in RowIDs(rows)
  {
    forall id | id in RowIDs(rows)
      ensures id in Ids(rows)
    {
      var x :| x in rows && x.rowid == id;
      var i :| 0 <= i < |rows| && rows[i] == x;
      assert Ids(rows)[i] == id;
    }
    forall id | id in Ids(rows)
      ensures id in RowIDs(rows)
    {
      var i :| 0 <= i < |rows| && Ids(rows)[i] == id;
      assert rows[i] in rows;
    }
  }

  lemma {:induction false} KeptHolds(reported: seq<Row>, ids: set<int>)
    requires ByRowID(reported)
    ensures Increasing(Kept(reported, ids))
    ensures forall id :: id in Kept(reported, ids) <==> id in RowIDs(reported) && id in ids
  {
    if reported != [] {
      var before, last := reported[..|reported| - 1], reported[|reported| - 1];
      KeptHolds(before, ids);
      assert reported == before + [last];
      assert RowIDs(reported) == RowIDs(before) + {last.rowid};
      NewerThanKept(before, Kept(before, ids), last.rowid);
    }
  }

  lemma NewerThanKept(before: seq<Row>, kept: seq<int>, newest: int)
    requires Increasing(kept) && (forall id :: id in kept ==> id in RowIDs(before))
    requires forall i :: 0 <= i < |before| ==> before[i].rowid < newest
    ensures Increasing(kept + [newest])
  {
    forall i | 0 <= i < |kept|
      ensures kept[i] < newest
    {
      assert kept[i] in kept;
    }
  }

  // Increasing numbers are determined by which they are.
  lemma {:induction false} IncreasingIsUnique(a: seq<int>, b: seq<int>)
    requires Increasing(a) && Increasing(b) && forall x :: x in a <==> x in b
    ensures a == b
  {
    FirstIsIn(a);
    FirstIsIn(b);
    if a != [] && b != [] {
      var n, m := |a| - 1, |b| - 1;
      GreatestIsShared(a, b);
      GreatestIsDropped(a);
      GreatestIsDropped(b);
      SameWithoutGreatest(a, b);
      IncreasingIsUnique(a[..n], b[..m]);
      assert a == a[..n] + [a[n]] && b == b[..m] + [b[m]];
    }
  }

  lemma SameWithoutGreatest(a: seq<int>, b: seq<int>)
    requires Increasing(a) && Increasing(b) && (forall x :: x in a <==> x in b) && a != [] && b != []
    requires a[|a| - 1] == b[|b| - 1]
    ensures var p, q := a[..|a| - 1], b[..|b| - 1]; forall x :: x in p <==> x in q
  {
    GreatestIsDropped(a);
    GreatestIsDropped(b);
    var p, q := a[..|a| - 1], b[..|b| - 1];
    forall x
      ensures x in p <==> x in q
    {
      assert x in p <==> x in a && x != a[|a| - 1];
      assert x in q <==> x in b && x != b[|b| - 1];
    }
  }

  lemma FirstIsIn(s: seq<int>)
    ensures s != [] ==> s[0] in s
  {
  }

  lemma GreatestIsShared(a: seq<int>, b: seq<int>)
    requires Increasing(a) && Increasing(b) && (forall x :: x in a <==> x in b) && a != [] && b != []
    ensures a[|a| - 1] == b[|b| - 1]
  {
    assert a[|a| - 1] in b && b[|b| - 1] in a;
    var i :| 0 <= i < |b| && b[i] == a[|a| - 1];
    var j :| 0 <= j < |a| && a[j] == b[|b| - 1];
  }

  lemma GreatestIsDropped(a: seq<int>)
    requires Increasing(a) && a != []
    ensures Increasing(a[..|a| - 1])
    ensures forall x :: x in a[..|a| - 1] <==> x in a && x != a[|a| - 1]
  {
    assert a == a[..|a| - 1] + [a[|a| - 1]];
  }

  lemma SpanIsKept(c: Chain, f: Filter, from: int)
    requires Told(c, from) && Covered(c, f)
    ensures Ids(Span(c.table, f, from, c.cursor)) == Kept(c.reported, KnownMatching(c, f))
  {
    var span, kept := Span(c.table, f, from, c.cursor), Kept(c.reported, KnownMatching(c, f));
    SpanHolds(c.table, f, from, c.cursor);
    IdsHold(span);
    KeptHolds(c.reported, KnownMatching(c, f));
    forall id
      ensures id in Ids(span) <==> id in kept
    {
      if id in kept {
        var x :| x in c.table && Matches(f, x) && x.rowid == id && id in c.known;
        var y :| y in c.reported && y.rowid == id;
        assert x in span;
      }
      if id in RowIDs(span) {
        var x :| x in span && x.rowid == id;
        assert id in KnownMatching(c, f);
      }
    }
    IncreasingIsUnique(Ids(span), kept);
  }

  lemma IdsJoin(a: seq<Row>, b: seq<Row>)
    ensures Ids(a + b) == Ids(a) + Ids(b)
  {
  }

  // Whatever is inserted, updated, deleted and polled, with any limits: reports come in rowid order and no rowid twice.
  // As long as the events are safe, the matching rows are exactly those known, in order of report, and those to come.
  lemma PollingIsExact(table: seq<Row>, f: Filter, from: int, es: seq<Event>)
    requires Stored(table) && 0 <= from
    ensures var c := RunFrom(From(table, f, from), f, es);
      && ByRowID(c.reported)
      && (SafeEvents(From(table, f, from), f, es) ==>
            Ids(After(c.table, f, from)) == Kept(c.reported, KnownMatching(c, f)) + Ids(After(c.table, f, c.cursor)))
  {
    var c := RunFrom(From(table, f, from), f, es);
    RunStaysTold(table, f, from, es);
    if SafeEvents(From(table, f, from), f, es) {
      RunStaysCovered(table, f, from, es);
      SpanThenAfter(c.table, f, from, c.cursor);
      SpanIsKept(c, f, from);
      IdsJoin(Span(c.table, f, from, c.cursor), After(c.table, f, c.cursor));
    }
  }

  // A call that comes back short has drained the table: every matching row is known.
  lemma ShortPollHasEverything(table: seq<Row>, f: Filter, from: int, es: seq<Event>, limit: int)
    requires Stored(table) && 0 <= from && SafeEvents(From(table, f, from), f, es + [Poll(limit)])
    ensures var before, c := RunFrom(From(table, f, from), f, es), RunFrom(From(table, f, from), f, es + [Poll(limit)]);
            |c.reported| - |before.reported| < ClampLimit(limit) ==>
              forall x :: x in c.table && Matches(f, x) ==> x.rowid in c.known
  {
    var all := es + [Poll(limit)];
    assert all[..|all| - 1] == es;
    var before, c := RunFrom(From(table, f, from), f, es), RunFrom(From(table, f, from), f, all);
    RunStaysTold(table, f, from, es);
    RunStaysTold(table, f, from, all);
    RunStaysCovered(table, f, from, all);
    PageIsASpan(c.table, f, before.cursor, limit);
    SpanThenAfter(c.table, f, before.cursor, c.cursor);
    AfterHolds(c.table, f, c.cursor);
    if |c.reported| - |before.reported| < ClampLimit(limit) {
      assert After(c.table, f, c.cursor) == [];
      forall x | x in c.table && Matches(f, x)
        ensures x.rowid in c.known
      {
        assert c.cursor < x.rowid ==> x in After(c.table, f, c.cursor);
      }
    }
  }

  /* ----- when nothing but inserts happens ----- */

  // From a safe cursor on, inserts alone are safe, the rows reported are still as they were reported,
  // and the whole report with what follows the cursor is every matching row since the start.
  lemma InsertsAloneAreExact(table: seq<Row>, f: Filter, from: int, es: seq<Event>)
    requires Stored(table) && 0 <= from && Safe(table, from)
    requires forall k :: 0 <= k < |es| ==> es[k].Insert? || es[k].Poll?
    ensures SafeEvents(From(table, f, from), f, es)
    ensures var c := RunFrom(From(table, f, from), f, es);
            After(c.table, f, from) == c.reported + After(c.table, f, c.cursor)
  {
    var c := RunFrom(From(table, f, from), f, es);
    InsertsStayFaithful(table, f, from, es);
    RunStaysTold(table, f, from, es);
    RunStaysCovered(table, f, from, es);
    SpanThenAfter(c.table, f, from, c.cursor);
    SpanHolds(c.table, f, from, c.cursor);
    SpanIsTheReport(c, f, from);
  }

  ghost predicate Faithful(c: Chain, f: Filter) {
    && Stored(c.table) && 0 <= c.cursor && Safe(c.table, c.cursor)
    && forall x :: x in c.reported ==> x in c.table && Matches(f, x)
  }

  lemma {:induction false} InsertsStayFaithful(table: seq<Row>, f: Filter, from: int, es: seq<Event>)
    requires Stored(table) && 0 <= from && Safe(table, from)
    requires forall k :: 0 <= k < |es| ==> es[k].Insert? || es[k].Poll?
    ensures SafeEvents(From(table, f, from), f, es) && Faithful(RunFrom(From(table, f, from), f, es), f)
  {
    if es != [] {
      InsertsStayFaithful(table, f, from, es[..|es| - 1]);
      StepStaysFaithful(RunFrom(From(table, f, from), f, es[..|es| - 1]), f, es[|es| - 1]);
      SafeEventsGrow(From(table, f, from), f, es);
    }
  }

  lemma StepStaysFaithful(c: Chain, f: Filter, e: Event)
    requires Faithful(c, f) && (e.Insert? || e.Poll?)
    ensures Faithful(Step(c, f, e), f)
  {
    match e
    case Insert(row) =>
      InsertKeepsStored(c.table, row);
      SafeMeansAhead(c.table, c.cursor);
      SafeMeansAhead(c.table + [Placed(c.table, row)], c.cursor);
    case Poll(limit) =>
      var page := Page(c.table, f, c.cursor, limit);
      AfterHolds(c.table, f, c.cursor);
      assert forall x :: x in page ==> x in After(c.table, f, c.cursor);
      if page != [] {
        assert page[|page| - 1] in page;
      }
  }

  lemma SpanIsTheReport(c: Chain, f: Filter, from: int)
    requires Told(c, from) && Covered(c, f) && Faithful(c, f)
    ensures Span(c.table, f, from, c.cursor) == c.reported
  {
    var span := Span(c.table, f, from, c.cursor);
    SpanHolds(c.table, f, from, c.cursor);
    forall x | x in span
      ensures x in c.reported
    {
      var y :| y in c.reported && y.rowid == x.rowid;
      SameRowID(c.table, x, y);
    }
    IdsHold(span);
    IdsHold(c.reported);
    ByRowIDIsUnique(span, c.reported);
  }

  lemma SameRowID(table: seq<Row>, x: Row, y: Row)
    requires ByRowID(table) && x in table && y in table && x.rowid == y.rowid
    ensures x == y
  {
    var i :| 0 <= i < |table| && table[i] == x;
    var j :| 0 <= j < |table| && table[j] == y;
  }

  lemma LastIsNewest(before: seq<Row>, kept: seq<Row>, last: Row)
    requires ByRowID(kept) && (forall x :: x in kept ==> x in before)
    requires forall i :: 0 <= i < |before| ==> before[i].rowid < last.rowid
    ensures ByRowID(kept + [last])
  {
    forall i | 0 <= i < |kept|
      ensures kept[i].rowid < last.rowid
    {
      assert kept[i] in before;
    }
  }

  // Rows in rowid order are determined by which rows they are.
  lemma {:induction false} ByRowIDIsUnique(a: seq<Row>, b: seq<Row>)
    requires ByRowID(a) && ByRowID(b) && forall x :: x in a <==> x in b
    ensures a == b
  {
    EmptyHasNone(a);
    EmptyHasNone(b);
    if a != [] && b != [] {
      var n, m := |a| - 1, |b| - 1;
      NewestIsShared(a, b);
      NewestIsDropped(a);
      NewestIsDropped(b);
      forall x
        ensures x in a[..n] <==> x in b[..m]
      {
        assert x in a[..n] <==> x in a && x != a[n];
        assert x in b[..m] <==> x in b && x != b[m];
      }
      ByRowIDIsUnique(a[..n], b[..m]);
      assert a == a[..n] + [a[n]] && b == b[..m] + [b[m]];
    }
  }

  lemma NewestIsShared(a: seq<Row>, b: seq<Row>)
    requires ByRowID(a) && ByRowID(b) && (forall x :: x in a <==> x in b) && a != [] && b != []
    ensures a[|a| - 1] == b[|b| - 1]
  {
    var x, y := a[|a| - 1], b[|b| - 1];
    assert x in b && y in a;
    var i :| 0 <= i < |b| && b[i] == x;
    var j :| 0 <= j < |a| && a[j] == y;
  }

  lemma NewestIsDropped(a: seq<Row>)
    requires ByRowID(a) && a != []
    ensures ByRowID(a[..|a| - 1])
    ensures forall x :: x in a[..|a| - 1] <==> x in a && x != a[|a| - 1]
  {
    assert a == a[..|a| - 1] + [a[|a| - 1]];
  }

  /* ----- when a row is lost ----- */

  lemma {:induction false} ReportsOnlyAhead(c: Chain, f: Filter, es: seq<Event>)
    requires Stored(c.table)
    ensures var c' := RunFrom(c, f, es);
      && Stored(c'.table) && c.cursor <= c'.cursor && c.reported <= c'.reported
      && forall i :: |c.reported| <= i < |c'.reported| ==> c.cursor < c'.reported[i].rowid
  {
    if es != [] {
      var d := RunFrom(c, f, es[..|es| - 1]);
      ReportsOnlyAhead(c, f, es[..|es| - 1]);
      match es[|es| - 1]
      case Insert(row) => InsertKeepsStored(d.table, row);
      case Update(rowid, row) => UpdatedHolds(d.table, rowid, row);
      case Delete(rowid) => WithoutRowHolds(d.table, rowid);
      case Poll(limit) =>
        var page := Page(d.table, f, d.cursor, limit);
        PageIsASpan(d.table, f, d.cursor, limit);
        BoundsByIndex(d.table, f, d.cursor, NextCursor(page, d.cursor));
    }
  }

  // An arrival that finds the cursor past every row left is lost: nothing reported afterwards is it.
  lemma UnsafeArrivalIsLost(c: Chain, f: Filter, row: Row, es: seq<Event>)
    requires Stored(c.table) && 0 <= c.cursor && !Safe(c.table, c.cursor)
    ensures var x, after := Placed(c.table, row), RunFrom(Step(c, f, Insert(row)), f, es);
            c.reported <= after.reported &&
            forall i :: |c.reported| <= i < |after.reported| ==> after.reported[i] != x
  {
    InsertKeepsStored(c.table, row);
    SafeMeansAhead(c.table, c.cursor);
    ReportsOnlyAhead(Step(c, f, Insert(row)), f, es);
  }

  // Catching up and then deleting the newest row is enough: the next arrival takes its rowid and is lost.
  lemma DeleteHidesAnArrival(c: Chain, f: Filter, row: Row, es: seq<Event>)
    requires Stored(c.table) && c.table != [] && c.cursor == c.table[|c.table| - 1].rowid
    ensures var d := Step(c, f, Delete(c.cursor));
            var x, after := Placed(d.table, row), RunFrom(Step(d, f, Insert(row)), f, es);
            x.rowid <= c.cursor && forall i :: |c.reported| <= i < |after.reported| ==> after.reported[i] != x
  {
    var d := Step(c, f, Delete(c.cursor));
    WithoutRowHolds(c.table, c.cursor);
    forall i | 0 <= i < |d.table|
      ensures d.table[i].rowid < c.cursor
    {
      assert d.table[i] in c.table;
    }
    assert !Safe(d.table, c.cursor);
    SafeMeansAhead(d.table, c.cursor);
    UnsafeArrivalIsLost(d, f, row, es);
  }

  // So is a row that an update brings into the filter behind the cursor: its rowid is reported no more.
  lemma UpdateBehindIsLost(c: Chain, f: Filter, rowid: int, row: Row, es: seq<Event>)
    requires Stored(c.table) && rowid <= c.cursor
    ensures var after := RunFrom(Step(c, f, Update(rowid, row)), f, es);
            c.reported <= after.reported &&
            forall i :: |c.reported| <= i < |after.reported| ==> after.reported[i].rowid != rowid
  {
    UpdatedHolds(c.table, rowid, row);
    ReportsOnlyAhead(Step(c, f, Update(rowid, row)), f, es);
  }

  // With nothing deleted: a poll of a phone chat returns its one row, the newer one, and then the fold moves the older
  // row in from the privacy chat under its old rowid. It is in the polled chat, it matches, and no poll reports it.
  lemma FoldHidesAMessage(lid: string, pn: string, first: Row, second: Row, es: seq<Event>)
    requires lid != pn && pn != "" && first.chatJID == lid && second.chatJID == pn
    requires first.rowid == 1 && second.rowid == 2 && !first.fromMe && !second.fromMe
    ensures var f := Filter(pn, false);
            var c := Step(From([first, second], f, 0), f, Poll(20));
            var moved := first.(chatJID := pn);
            var folded := Step(c, f, Update(1, moved));
            && c.reported == [second] && c.cursor == 2 && Safe(folded.table, folded.cursor)
            && moved in folded.table && Matches(f, moved)
            && forall x :: x in RunFrom(folded, f, es).reported ==> x.rowid != 1
  {
    var f := Filter(pn, false);
    var c := Step(From([first, second], f, 0), f, Poll(20));
    SecondIsReported(f, first, second);
    var folded := Step(c, f, Update(1, first.(chatJID := pn)));
    assert folded.table[0] == first.(chatJID := pn) && folded.table[1] == second;
    UpdateBehindIsLost(c, f, 1, first.(chatJID := pn), es);
    var reported := RunFrom(folded, f, es).reported;
    forall x | x in reported
      ensures x.rowid != 1
    {
      var i :| 0 <= i < |reported| && reported[i] == x;
      assert i < 1 ==> reported[i] == c.reported[i];
    }
  }

  lemma SecondIsReported(f: Filter, first: Row, second: Row)
    requires first.rowid == 1 && second.rowid == 2 && !Matches(f, first) && Matches(f, second)
    ensures var c := Step(From([first, second], f, 0), f, Poll(20)); c.reported == [second] && c.cursor == 2
  {
    assert [first, second][..1] == [first] && [first][..0] == [];
    assert After([first], f, 0) == [];
    assert After([first, second], f, 0) == [second];
  }

  // An update of a row that matched already is safe: only bringing a row into the filter can lose it.
  lemma UpdateInPlaceIsSafe(c: Chain, f: Filter, rowid: int, row: Row)
    requires Covered(c, f) && forall x :: x in c.table && x.rowid == rowid ==> Matches(f, x)
    ensures SafeAt(c, f, Update(rowid, row))
  {
  }

  /* ----- tail mode ----- */

  // The cursor just before the n-th newest matching row, or 0 when there are fewer.
  function TailRowID(rows: seq<Row>, f: Filter, n: int): int {
    var matching := After(rows, f, 0);
    if n <= 0 || |matching| < n then 0 else matching[|matching| - n].rowid - 1
  }

  // Exactly the newest n matching rows follow the cursor, all of them when there are fewer.
  lemma TailPositionsTheCursor(rows: seq<Row>, f: Filter, n: int)
    requires ByRowID(rows) && 0 < n
    ensures After(rows, f, TailRowID(rows, f, n)) == LastN(After(rows, f, 0), n)
  {
    var matching := After(rows, f, 0);
    AfterHolds(rows, f, 0);
    if n <= |matching| {
      assert matching[|matching| - n] in matching;
      CutAt(rows, f, 0, TailRowID(rows, f, n), |matching| - n);
    }
  }
}
