/** Reading a chat page by page in wall-clock order. */
module Paging {

  const DEFAULT_LIMIT := 20
  const MAX_LIMIT := 100

  datatype Row = Row(rowid: int, chatJID: string, id: string, ts: int, fromMe: bool, text: string)

  function ClampLimit(limit: int): (n: nat)
    ensures 1 <= n <= MAX_LIMIT
  {
    if limit <= 0 then DEFAULT_LIMIT else if MAX_LIMIT < limit then MAX_LIMIT else limit
  }

  // Zero context is a meaningful request, so it is not promoted to a default.
  function ClampContext(n: int): (m: nat)
    ensures m <= MAX_LIMIT
  {
    if n < 0 then 0 else if MAX_LIMIT < n then MAX_LIMIT else n
  }

  // Only what is out of range is changed, to the nearest bound or, for a missing limit, to the default.
  lemma ClampsTouchOnlyOutOfRange(n: int)
    ensures ClampLimit(n) == n <==> 1 <= n <= 100
    ensures ClampContext(n) == n <==> 0 <= n <= 100
    ensures n <= 0 ==> ClampLimit(n) == 20 && ClampContext(n) == 0
    ensures 100 < n ==> ClampLimit(n) == 100 && ClampContext(n) == 100
  {
  }

  /* ----- the (ts, id) order ----- */

  // Ids compare byte by byte, which for text is code point by code point.
  predicate IdLess(a: string, b: string) {
    b != [] && (a == [] || a[0] < b[0] || (a[0] == b[0] && IdLess(a[1..], b[1..])))
  }

  lemma {:induction false} IdOrderIsTotal(a: string, b: string)
    ensures !IdLess(a, a)
    ensures a != b ==> (IdLess(a, b) <==> !IdLess(b, a))
    decreases |a|
  {
    if a != [] {
      IdOrderIsTotal(a[1..], if b == [] then [] else b[1..]);
      if b != [] && a[0] == b[0] && a[1..] == b[1..] {
        assert a == [a[0]] + a[1..] && b == [b[0]] + b[1..];
      }
    }
  }

  lemma {:induction false} IdOrderIsTransitive(a: string, b: string, c: string)
    requires IdLess(a, b) && IdLess(b, c)
    ensures IdLess(a, c)
    decreases |a|
  {
    if a != [] && a[0] == b[0] == c[0] {
      IdOrderIsTransitive(a[1..], b[1..], c[1..]);
    }
  }

  predicate Before(ts: int, id: string, ts': int, id': string) {
    ts < ts' || (ts == ts' && IdLess(id, id'))
  }

  predicate Older(a: Row, b: Row) {
    Before(a.ts, a.id, b.ts, b.id)
  }

  lemma OlderIsTransitive(a: Row, b: Row, c: Row)
    requires Older(a, b) && Older(b, c)
    ensures Older(a, c)
  {
    if a.ts == c.ts {
      IdOrderIsTransitive(a.id, b.id, c.id);
    }
  }

  /* ----- SELECT ... WHERE chat [AND beyond a cursor] ORDER BY ts, id LIMIT n ----- */

  datatype Side = Everything | OlderThan(ts: int, id: string) | NewerThan(ts: int, id: string)

  predicate Selects(side: Side, r: Row) {
    match side
    case Everything => true
    case OlderThan(ts, id) => Before(r.ts, r.id, ts, id)
    case NewerThan(ts, id) => Before(ts, id, r.ts, r.id)
  }

  function Where(rows: seq<Row>, chat: string, side: Side): seq<Row> {
    if rows == [] then []
    else
      var n := |rows| - 1;
      Where(rows[..n], chat, side) +
      if rows[n].chatJID == chat && Selects(side, rows[n]) then [rows[n]] else []
  }

  function InsertInOrder(sorted: seq<Row>, r: Row): seq<Row> {
    if sorted == [] || !Older(r, sorted[|sorted| - 1]) then sorted + [r]
    else InsertInOrder(sorted[..|sorted| - 1], r) + [sorted[|sorted| - 1]]
  }

  function Ascending(rows: seq<Row>): seq<Row> {
    if rows == [] then [] else InsertInOrder(Ascending(rows[..|rows| - 1]), rows[|rows| - 1])
  }

  function Reversed(rows: seq<Row>): (r: seq<Row>)
    ensures |r| == |rows|
    ensures forall i :: 0 <= i < |r| ==> r[i] == rows[|rows| - 1 - i]
  {
    seq(|rows|, i requires 0 <= i < |rows| => rows[|rows| - 1 - i])
  }

  function Limit(rows: seq<Row>, n: nat): seq<Row> {
    if |rows| <= n then rows else rows[..n]
  }

  // Keys are distinct within a chat, so a descending order is the ascending one read backwards.
  function SelectAscending(rows: seq<Row>, chat: string, side: Side, n: nat): seq<Row> {
    Limit(Ascending(Where(rows, chat, side)), n)
  }

  function SelectDescending(rows: seq<Row>, chat: string, side: Side, n: nat): seq<Row> {
    Limit(Reversed(Ascending(Where(rows, chat, side))), n)
  }

  // (chat_jid, id) is the primary key.
  ghost predicate Keyed(rows: seq<Row>) {
    forall i, j :: 0 <= i < j < |rows| && rows[i].chatJID == rows[j].chatJID ==> rows[i].id != rows[j].id
  }

  // The whole chat as a reader should see it, oldest first.
  function Timeline(rows: seq<Row>, chat: string): seq<Row> {
    Ascending(Where(rows, chat, Everything))
  }

  ghost predicate StrictlyOrdered(s: seq<Row>) {
    forall i, j :: 0 <= i < j < |s| ==> Older(s[i], s[j])
  }

  lemma {:induction false} InsertIsPermutation(sorted: seq<Row>, r: Row)
    ensures multiset(InsertInOrder(sorted, r)) == multiset(sorted) + multiset{r}
  {
    if sorted != [] && Older(r, sorted[|sorted| - 1]) {
      var last, before := sorted[|sorted| - 1], sorted[..|sorted| - 1];
      assert sorted == before + [last];
      InsertIsPermutation(before, r);
    }
  }

  lemma AppendKeepsOrder(s: seq<Row>, r: Row)
    requires StrictlyOrdered(s) && (s != [] ==> Older(s[|s| - 1], r))
    ensures StrictlyOrdered(s + [r])
  {
    forall i | 0 <= i < |s|
      ensures Older(s[i], r)
    {
      if i < |s| - 1 {
        OlderIsTransitive(s[i], s[|s| - 1], r);
      }
    }
  }

  lemma {:induction false} InsertKeepsOrder(sorted: seq<Row>, r: Row)
    requires StrictlyOrdered(sorted) && forall x :: x in sorted ==> x.id != r.id
    ensures StrictlyOrdered(InsertInOrder(sorted, r))
    ensures var o := InsertInOrder(sorted, r);
            |o| == |sorted| + 1 && (o[|sorted|] == r || (sorted != [] && o[|sorted|] == sorted[|sorted| - 1]))
  {
    if sorted != [] {
      var last, before := sorted[|sorted| - 1], sorted[..|sorted| - 1];
      assert last in sorted;
      IdOrderIsTotal(r.id, last.id);
      if Older(r, last) {
        InsertKeepsOrder(before, r);
        var front := InsertInOrder(before, r);
        assert before != [] ==> Older(before[|before| - 1], last);
        AppendKeepsOrder(front, last);
      } else {
        AppendKeepsOrder(sorted, r);
      }
    }
  }

  lemma {:induction false} WhereSelects(rows: seq<Row>, chat: string, side: Side)
    ensures forall x :: x in Where(rows, chat, side) <==> x in rows && x.chatJID == chat && Selects(side, x)
    ensures Keyed(rows) ==> Keyed(Where(rows, chat, side))
  {
    if rows != [] {
      assert rows == rows[..|rows| - 1] + [rows[|rows| - 1]];
      WhereSelects(rows[..|rows| - 1], chat, side);
    }
  }

  lemma {:induction false} AscendingIsPermutation(rows: seq<Row>)
    ensures multiset(Ascending(rows)) == multiset(rows)
  {
    if rows != [] {
      var before, last := rows[..|rows| - 1], rows[|rows| - 1];
      assert rows == before + [last];
      AscendingIsPermutation(before);
      InsertIsPermutation(Ascending(before), last);
    }
  }

  lemma SameMultiset(a: seq<Row>, b: seq<Row>)
    requires multiset(a) == multiset(b)
    ensures |a| == |b| && forall x :: x in a <==> x in b
  {
    assert |multiset(a)| == |multiset(b)|;
    assert forall x :: x in a <==> x in multiset(a);
    assert forall x :: x in b <==> x in multiset(b);
  }

  ghost predicate DistinctIds(rows: seq<Row>) {
    forall i, j :: 0 <= i < j < |rows| ==> rows[i].id != rows[j].id
  }

  lemma {:induction false} AscendingSorts(rows: seq<Row>)
    requires DistinctIds(rows)
    ensures StrictlyOrdered(Ascending(rows))
  {
    if rows != [] {
      var before, last := rows[..|rows| - 1], rows[|rows| - 1];
      AscendingSorts(before);
      AscendingIsPermutation(before);
      SameMultiset(Ascending(before), before);
      assert forall x :: x in before ==> x.id != last.id;
      InsertKeepsOrder(Ascending(before), last);
    }
  }

  // What a query orders: the selected rows, each once, strictly by (ts, id).
  lemma SelectedAreOrdered(rows: seq<Row>, chat: string, side: Side)
    requires Keyed(rows)
    ensures StrictlyOrdered(Ascending(Where(rows, chat, side)))
    ensures forall x :: x in Ascending(Where(rows, chat, side)) <==> x in rows && x.chatJID == chat && Selects(side, x)
    ensures |Ascending(Where(rows, chat, side))| == |Where(rows, chat, side)|
  {
    var mine := Where(rows, chat, side);
    WhereSelects(rows, chat, side);
    forall i, j | 0 <= i < j < |mine|
      ensures mine[i].id != mine[j].id
    {
      assert mine[i] in mine && mine[j] in mine;
    }
    AscendingSorts(mine);
    AscendingIsPermutation(mine);
    SameMultiset(Ascending(mine), mine);
  }

  // The timeline is the chat's rows, each once, in strict (ts, id) order.
  lemma TimelineIsTheChat(rows: seq<Row>, chat: string)
    requires Keyed(rows)
    ensures StrictlyOrdered(Timeline(rows, chat))
    ensures forall x :: x in Timeline(rows, chat) <==> x in rows && x.chatJID == chat
  {
    SelectedAreOrdered(rows, chat, Everything);
  }

  // Ids compare at their first difference, a shorter one first.
  lemma {:induction false} IdOrderIsLexicographic(a: string, b: string) returns (i: nat)
    ensures i <= |a| && i <= |b| && a[..i] == b[..i]
    ensures i < |a| && i < |b| ==> a[i] != b[i]
    ensures IdLess(a, b) <==> (if i < |a| && i < |b| then a[i] < b[i] else |a| < |b|)
    decreases |a|
  {
    i := 0;
    if a != [] && b != [] && a[0] == b[0] {
      var n := IdOrderIsLexicographic(a[1..], b[1..]);
      i := n + 1;
      assert a[..i] == [a[0]] + a[1..][..n] && b[..i] == [b[0]] + b[1..][..n];
    }
  }

  // Time runs forward along the timeline, and ids decide within one second.
  lemma TimelineRunsForward(rows: seq<Row>, chat: string, i: nat, j: nat)
    requires Keyed(rows) && i < j < |Timeline(rows, chat)|
    ensures var x, y := Timeline(rows, chat)[i], Timeline(rows, chat)[j];
            x.ts < y.ts || (x.ts == y.ts && IdLess(x.id, y.id))
  {
    TimelineIsTheChat(rows, chat);
  }

  // The two directions of a cursor: strictly earlier rows, and strictly later ones, of that chat.
  lemma PagesLieOnTheirSide(rows: seq<Row>, chat: string, ts: int, id: string, limit: int)
    requires Keyed(rows)
    ensures forall x :: x in MessagesBefore(rows, chat, ts, id, limit) ==>
              x in rows && x.chatJID == chat && (x.ts < ts || (x.ts == ts && IdLess(x.id, id)))
    ensures forall x :: x in MessagesSince(rows, chat, ts, id, limit) ==>
              x in rows && x.chatJID == chat && (ts < x.ts || (x.ts == ts && IdLess(id, x.id)))
  {
    SelectedAreOrdered(rows, chat, OlderThan(ts, id));
    SelectedAreOrdered(rows, chat, NewerThan(ts, id));
    var older := Ascending(Where(rows, chat, OlderThan(ts, id)));
    ReversedLimitIsLastN(older, ClampLimit(limit));
    assert forall x :: x in LastN(older, ClampLimit(limit)) ==> x in older;
    var newer := Ascending(Where(rows, chat, NewerThan(ts, id)));
    assert forall x :: x in Limit(newer, ClampLimit(limit)) ==> x in newer;
  }

  /* ----- each query is a slice of the timeline ----- */

  // Rows in strict order are determined by which rows they are.
  lemma {:induction false} OrderedIsUnique(a: seq<Row>, b: seq<Row>)
    requires StrictlyOrdered(a) && StrictlyOrdered(b) && forall x :: x in a <==> x in b
    ensures a == b
  {
    EmptyHasNone(a);
    EmptyHasNone(b);
    if a != [] && b != [] {
      LastIsShared(a, b);
      var n, m := |a| - 1, |b| - 1;
      LastIsDropped(a);
      LastIsDropped(b);
      forall x
        ensures x in a[..n] <==> x in b[..m]
      {
        assert x in a[..n] <==> x in a && x != a[n];
        assert x in b[..m] <==> x in b && x != b[m];
      }
      OrderedIsUnique(a[..n], b[..m]);
      assert a == a[..n] + [a[n]] && b == b[..m] + [b[m]];
    }
  }

  lemma EmptyHasNone(s: seq<Row>)
    ensures s == [] <==> forall x :: x !in s
  {
    if s != [] {
      assert s[0] in s;
    }
  }

  lemma LastIsShared(a: seq<Row>, b: seq<Row>)
    requires StrictlyOrdered(a) && StrictlyOrdered(b) && (forall x :: x in a <==> x in b) && a != [] && b != []
    ensures a[|a| - 1] == b[|b| - 1]
  {
    var x, y := a[|a| - 1], b[|b| - 1];
    assert x in b && y in a;
    var i :| 0 <= i < |b| && b[i] == x;
    var j :| 0 <= j < |a| && a[j] == y;
    IdOrderIsTotal(x.id, y.id);
  }

  lemma LastIsDropped(a: seq<Row>)
    requires StrictlyOrdered(a) && a != []
    ensures StrictlyOrdered(a[..|a| - 1])
    ensures forall x :: x in a[..|a| - 1] <==> x in a && x != a[|a| - 1]
  {
    var last := a[|a| - 1];
    IdOrderIsTotal(last.id, last.id);
    assert a == a[..|a| - 1] + [last];
  }

  // How many rows of an ordered timeline stand before the cursor.
  function CountBefore(t: seq<Row>, ts: int, id: string): (k: nat)
    ensures k <= |t|
  {
    if t == [] then 0
    else if Before(t[|t| - 1].ts, t[|t| - 1].id, ts, id) then |t|
    else CountBefore(t[..|t| - 1], ts, id)
  }

  // How many do not stand after it.
  function CountUpTo(t: seq<Row>, ts: int, id: string): (k: nat)
    ensures k <= |t|
  {
    if t == [] then 0
    else if !Before(ts, id, t[|t| - 1].ts, t[|t| - 1].id) then |t|
    else CountUpTo(t[..|t| - 1], ts, id)
  }

  lemma {:induction false} CountBeforeSplits(t: seq<Row>, ts: int, id: string)
    requires StrictlyOrdered(t)
    ensures forall i :: 0 <= i < |t| ==> (i < CountBefore(t, ts, id) <==> Before(t[i].ts, t[i].id, ts, id))
  {
    if t != [] {
      var n := |t| - 1;
      if Before(t[n].ts, t[n].id, ts, id) {
        forall i | 0 <= i < n
          ensures Before(t[i].ts, t[i].id, ts, id)
        {
          OlderIsTransitive(t[i], t[n], Row(0, "", id, ts, false, ""));
        }
      } else {
        CountBeforeSplits(t[..n], ts, id);
      }
    }
  }

  lemma {:induction false} CountUpToSplits(t: seq<Row>, ts: int, id: string)
    requires StrictlyOrdered(t)
    ensures forall i :: 0 <= i < |t| ==> (i < CountUpTo(t, ts, id) <==> !Before(ts, id, t[i].ts, t[i].id))
  {
    if t != [] {
      var n := |t| - 1;
      if !Before(ts, id, t[n].ts, t[n].id) {
        forall i | 0 <= i < n
          ensures !Before(ts, id, t[i].ts, t[i].id)
        {
          if Before(ts, id, t[i].ts, t[i].id) {
            OlderIsTransitive(Row(0, "", id, ts, false, ""), t[i], t[n]);
          }
        }
      } else {
        CountUpToSplits(t[..n], ts, id);
      }
    }
  }

  lemma PrefixHolds(t: seq<Row>, ts: int, id: string)
    requires StrictlyOrdered(t)
    ensures StrictlyOrdered(t[..CountBefore(t, ts, id)])
    ensures forall x :: x in t[..CountBefore(t, ts, id)] <==> x in t && Before(x.ts, x.id, ts, id)
  {
    CountBeforeSplits(t, ts, id);
    var k := CountBefore(t, ts, id);
    forall x | x in t && Before(x.ts, x.id, ts, id)
      ensures x in t[..k]
    {
      var i :| 0 <= i < |t| && t[i] == x;
      assert t[..k][i] == x;
    }
  }

  lemma SuffixHolds(t: seq<Row>, ts: int, id: string)
    requires StrictlyOrdered(t)
    ensures StrictlyOrdered(t[CountUpTo(t, ts, id)..])
    ensures forall x :: x in t[CountUpTo(t, ts, id)..] <==> x in t && Before(ts, id, x.ts, x.id)
  {
    CountUpToSplits(t, ts, id);
    var k := CountUpTo(t, ts, id);
    forall x | x in t && Before(ts, id, x.ts, x.id)
      ensures x in t[k..]
    {
      var i :| 0 <= i < |t| && t[i] == x;
      assert t[k..][i - k] == x;
    }
  }

  lemma OlderIsAPrefix(rows: seq<Row>, chat: string, ts: int, id: string)
    requires Keyed(rows)
    ensures var t := Timeline(rows, chat);
            Ascending(Where(rows, chat, OlderThan(ts, id))) == t[..CountBefore(t, ts, id)]
  {
    var t := Timeline(rows, chat);
    SelectedAreOrdered(rows, chat, Everything);
    SelectedAreOrdered(rows, chat, OlderThan(ts, id));
    PrefixHolds(t, ts, id);
    OrderedIsUnique(Ascending(Where(rows, chat, OlderThan(ts, id))), t[..CountBefore(t, ts, id)]);
  }

  lemma NewerIsASuffix(rows: seq<Row>, chat: string, ts: int, id: string)
    requires Keyed(rows)
    ensures var t := Timeline(rows, chat);
            Ascending(Where(rows, chat, NewerThan(ts, id))) == t[CountUpTo(t, ts, id)..]
  {
    var t := Timeline(rows, chat);
    SelectedAreOrdered(rows, chat, Everything);
    SelectedAreOrdered(rows, chat, NewerThan(ts, id));
    SuffixHolds(t, ts, id);
    OrderedIsUnique(Ascending(Where(rows, chat, NewerThan(ts, id))), t[CountUpTo(t, ts, id)..]);
  }

  /* ----- what the pane's queries return ----- */

  function Recent(rows: seq<Row>, chat: string, limit: int): seq<Row> {
    Reversed(SelectDescending(rows, chat, Everything, ClampLimit(limit)))
  }

  function MessagesBefore(rows: seq<Row>, chat: string, ts: int, id: string, limit: int): seq<Row> {
    Reversed(SelectDescending(rows, chat, OlderThan(ts, id), ClampLimit(limit)))
  }

  function MessagesSince(rows: seq<Row>, chat: string, ts: int, id: string, limit: int): seq<Row> {
    SelectAscending(rows, chat, NewerThan(ts, id), ClampLimit(limit))
  }

  // The last n of s, and the first n.
  function LastN(s: seq<Row>, n: nat): seq<Row> {
    if |s| <= n then s else s[|s| - n..]
  }

  lemma ReversedLimitIsLastN(s: seq<Row>, n: nat)
    ensures Reversed(Limit(Reversed(s), n)) == LastN(s, n)
  {
    var back := Limit(Reversed(s), n);
    forall i | 0 <= i < |back|
      ensures Reversed(back)[i] == LastN(s, n)[i]
    {
      assert Reversed(back)[i] == back[|back| - 1 - i] == Reversed(s)[|back| - 1 - i];
    }
  }

  lemma RecentIsTheEnd(rows: seq<Row>, chat: string, limit: int)
    ensures Recent(rows, chat, limit) == LastN(Timeline(rows, chat), ClampLimit(limit))
  {
  }

  lemma BeforeIsTheStretchBefore(rows: seq<Row>, chat: string, ts: int, id: string, limit: int)
    requires Keyed(rows)
    ensures var t := Timeline(rows, chat);
            MessagesBefore(rows, chat, ts, id, limit) == LastN(t[..CountBefore(t, ts, id)], ClampLimit(limit))
  {
    OlderIsAPrefix(rows, chat, ts, id);
    ReversedLimitIsLastN(Ascending(Where(rows, chat, OlderThan(ts, id))), ClampLimit(limit));
  }

  lemma SinceIsTheStretchAfter(rows: seq<Row>, chat: string, ts: int, id: string, limit: int)
    requires Keyed(rows)
    ensures var t := Timeline(rows, chat);
            MessagesSince(rows, chat, ts, id, limit) == Limit(t[CountUpTo(t, ts, id)..], ClampLimit(limit))
  {
    NewerIsASuffix(rows, chat, ts, id);
  }

  lemma CountAtRow(t: seq<Row>, k: nat)
    requires StrictlyOrdered(t) && k < |t|
    ensures CountBefore(t, t[k].ts, t[k].id) == k && CountUpTo(t, t[k].ts, t[k].id) == k + 1
  {
    var b, u := CountBefore(t, t[k].ts, t[k].id), CountUpTo(t, t[k].ts, t[k].id);
    CountBeforeSplits(t, t[k].ts, t[k].id);
    CountUpToSplits(t, t[k].ts, t[k].id);
    IdOrderIsTotal(t[k].id, t[k].id);
    if 0 < k {
      assert Older(t[k - 1], t[k]) && k - 1 < b;
    }
    if k + 1 < |t| {
      assert Older(t[k], t[k + 1]) && !(k + 1 < u);
    }
  }

  /* ----- scrolling up ----- */

  function Least(a: int, b: int): int {
    if a < b then a else b
  }

  // What is on screen after a fresh load and then one scroll-up per further limit, each from the oldest row shown.
  function ScrolledUp(rows: seq<Row>, chat: string, first: int, more: seq<int>): seq<Row> {
    if more == [] then Recent(rows, chat, first)
    else WithOlder(rows, chat, ScrolledUp(rows, chat, first, more[..|more| - 1]), more[|more| - 1])
  }

  function WithOlder(rows: seq<Row>, chat: string, shown: seq<Row>, limit: int): seq<Row> {
    if shown == [] then [] else MessagesBefore(rows, chat, shown[0].ts, shown[0].id, limit) + shown
  }

  function Requested(limits: seq<int>): nat {
    if limits == [] then 0 else Requested(limits[..|limits| - 1]) + ClampLimit(limits[|limits| - 1])
  }

  lemma {:induction false} RequestedAtLeastOneEach(limits: seq<int>)
    ensures |limits| <= Requested(limits)
  {
    if limits != [] {
      RequestedAtLeastOneEach(limits[..|limits| - 1]);
    }
  }

  lemma BeforeRow(rows: seq<Row>, chat: string, k: nat, limit: int)
    requires Keyed(rows) && k < |Timeline(rows, chat)|
    ensures var t := Timeline(rows, chat);
            MessagesBefore(rows, chat, t[k].ts, t[k].id, limit) == LastN(t[..k], ClampLimit(limit))
  {
    TimelineIsTheChat(rows, chat);
    CountAtRow(Timeline(rows, chat), k);
    BeforeIsTheStretchBefore(rows, chat, Timeline(rows, chat)[k].ts, Timeline(rows, chat)[k].id, limit);
  }

  lemma LastNIsTail(t: seq<Row>, n: nat)
    ensures LastN(t, n) == t[|t| - |LastN(t, n)|..] && |LastN(t, n)| == Least(|t|, n)
  {
  }

  // One scroll-up from the end of the timeline shows a longer end of the timeline.
  lemma OneScrollUp(rows: seq<Row>, chat: string, n: nat, limit: int)
    requires Keyed(rows) && 0 < n
    ensures WithOlder(rows, chat, LastN(Timeline(rows, chat), n), limit) ==
            LastN(Timeline(rows, chat), n + ClampLimit(limit))
  {
    var t := Timeline(rows, chat);
    if t != [] {
      var k := |t| - |LastN(t, n)|;
      LastNStartsAt(t, n);
      BeforeRow(rows, chat, k, limit);
      EndsJoin(t, n, ClampLimit(limit));
      OlderIsPrepended(rows, chat, LastN(t, n), t[k], limit);
    }
  }

  lemma LastNStartsAt(t: seq<Row>, n: nat)
    requires t != [] && 0 < n
    ensures LastN(t, n) != [] && LastN(t, n)[0] == t[|t| - |LastN(t, n)|]
  {
  }

  lemma OlderIsPrepended(rows: seq<Row>, chat: string, shown: seq<Row>, first: Row, limit: int)
    requires shown != [] && shown[0] == first
    ensures WithOlder(rows, chat, shown, limit) == MessagesBefore(rows, chat, first.ts, first.id, limit) + shown
  {
  }

  lemma EndsJoin(t: seq<Row>, n: nat, more: nat)
    ensures LastN(t[..|t| - |LastN(t, n)|], more) + LastN(t, n) == LastN(t, n + more)
  {
    LastNIsTail(t, n);
    JoinStretches(t, |t| - |LastN(t, n)|, more);
  }

  // Whatever the page sizes, the screen holds the end of the timeline with no gap and no repeat.
  lemma {:induction false} ScrollingUpIsExact(rows: seq<Row>, chat: string, first: int, more: seq<int>)
    requires Keyed(rows)
    ensures ScrolledUp(rows, chat, first, more) == LastN(Timeline(rows, chat), ClampLimit(first) + Requested(more))
  {
    if more == [] {
      assert Requested(more) == 0;
      RecentIsTheEnd(rows, chat, first);
    } else {
      var before, last := more[..|more| - 1], more[|more| - 1];
      ScrollingUpIsExact(rows, chat, first, before);
      OneScrollUp(rows, chat, ClampLimit(first) + Requested(before), last);
      RequestedStep(more);
      assert ClampLimit(first) + Requested(more) == ClampLimit(first) + Requested(before) + ClampLimit(last);
      ScrolledUpStep(rows, chat, first, more);
    }
  }

  lemma RequestedStep(limits: seq<int>)
    requires limits != []
    ensures Requested(limits) == Requested(limits[..|limits| - 1]) + ClampLimit(limits[|limits| - 1])
  {
  }

  lemma ScrolledUpStep(rows: seq<Row>, chat: string, first: int, more: seq<int>)
    requires more != []
    ensures ScrolledUp(rows, chat, first, more) ==
            WithOlder(rows, chat, ScrolledUp(rows, chat, first, more[..|more| - 1]), more[|more| - 1])
  {
  }

  lemma JoinStretches(t: seq<Row>, k: nat, n: nat)
    requires k <= |t|
    ensures LastN(t[..k], n) + t[k..] == LastN(t, |t| - k + n)
  {
  }

  // So scrolling up reaches the beginning, after at most one request per row.
  lemma ScrollingUpReachesTheStart(rows: seq<Row>, chat: string, first: int, more: seq<int>)
    requires Keyed(rows) && |Timeline(rows, chat)| <= 1 + |more|
    ensures ScrolledUp(rows, chat, first, more) == Timeline(rows, chat)
  {
    ScrollingUpIsExact(rows, chat, first, more);
    RequestedAtLeastOneEach(more);
  }

  // A page that comes back short has reached the start; a full one leaves nothing only if it was all there was.
  lemma PageSizeTellsWhatIsLeft(rows: seq<Row>, chat: string, ts: int, id: string, limit: int)
    requires Keyed(rows)
    ensures |MessagesBefore(rows, chat, ts, id, limit)| ==
            Least(|Where(rows, chat, OlderThan(ts, id))|, ClampLimit(limit))
  {
    SelectedAreOrdered(rows, chat, OlderThan(ts, id));
  }

  /* ----- refreshing forward ----- */

  datatype Cursor = Cursor(ts: int, id: string)

  // An empty refresh keeps the caller's cursor.
  function CursorOf(msgs: seq<Row>, fallback: Cursor): Cursor {
    if msgs == [] then fallback else Cursor(msgs[|msgs| - 1].ts, msgs[|msgs| - 1].id)
  }

  // What repeated refreshes from a cursor append.
  function Refreshed(rows: seq<Row>, chat: string, from: Cursor, limits: seq<int>): seq<Row> {
    if limits == [] then []
    else
      var shown := Refreshed(rows, chat, from, limits[..|limits| - 1]);
      var at := CursorOf(shown, from);
      shown + MessagesSince(rows, chat, at.ts, at.id, limits[|limits| - 1])
  }

  // One refresh from the newest row shown continues where the screen ends.
  lemma OneRefresh(rows: seq<Row>, chat: string, from: Cursor, n: nat, limit: int)
    requires Keyed(rows)
    ensures var t := Timeline(rows, chat);
            var rest := t[CountUpTo(t, from.ts, from.id)..];
            var at := CursorOf(Limit(rest, n), from);
            Limit(rest, n) + MessagesSince(rows, chat, at.ts, at.id, limit) == Limit(rest, n + ClampLimit(limit))
  {
    var t := Timeline(rows, chat);
    var j := CountUpTo(t, from.ts, from.id);
    RefreshContinues(rows, chat, from, n, limit);
    StretchAfter(t, j, n, ClampLimit(limit));
  }

  lemma RefreshContinues(rows: seq<Row>, chat: string, from: Cursor, n: nat, limit: int)
    requires Keyed(rows)
    ensures var t := Timeline(rows, chat);
            var j := CountUpTo(t, from.ts, from.id);
            var shown := Limit(t[j..], n);
            var at := CursorOf(shown, from);
            MessagesSince(rows, chat, at.ts, at.id, limit) == Limit(t[j + |shown|..], ClampLimit(limit))
  {
    var t := Timeline(rows, chat);
    var j := CountUpTo(t, from.ts, from.id);
    var shown := Limit(t[j..], n);
    TimelineIsTheChat(rows, chat);
    CountAtCursor(t, from, n);
    SinceCursorAt(rows, chat, CursorOf(shown, from), j + |shown|, limit);
  }

  lemma SinceCursorAt(rows: seq<Row>, chat: string, at: Cursor, i: nat, limit: int)
    requires Keyed(rows) && CountUpTo(Timeline(rows, chat), at.ts, at.id) == i
    ensures i <= |Timeline(rows, chat)|
    ensures MessagesSince(rows, chat, at.ts, at.id, limit) == Limit(Timeline(rows, chat)[i..], ClampLimit(limit))
  {
    SinceIsTheStretchAfter(rows, chat, at.ts, at.id, limit);
  }

  // The cursor of the last row shown stands right after what is shown.
  lemma CountAtCursor(t: seq<Row>, from: Cursor, n: nat)
    requires StrictlyOrdered(t)
    ensures var j := CountUpTo(t, from.ts, from.id);
            var shown := Limit(t[j..], n);
            var at := CursorOf(shown, from);
            CountUpTo(t, at.ts, at.id) == j + |shown|
  {
    var j := CountUpTo(t, from.ts, from.id);
    var shown := Limit(t[j..], n);
    if shown != [] {
      assert shown[|shown| - 1] == t[j + |shown| - 1];
      CountAtRow(t, j + |shown| - 1);
    }
  }

  lemma StretchAfter(t: seq<Row>, j: nat, n: nat, more: nat)
    requires j <= |t|
    ensures Limit(t[j..], n) + Limit(t[j + |Limit(t[j..], n)|..], more) == Limit(t[j..], n + more)
  {
  }

  // Refreshing enumerates everything newer than the starting cursor, in order, with no gap and no repeat.
  lemma {:induction false} RefreshingIsExact(rows: seq<Row>, chat: string, from: Cursor, limits: seq<int>)
    requires Keyed(rows)
    ensures var t := Timeline(rows, chat);
            Refreshed(rows, chat, from, limits) == Limit(t[CountUpTo(t, from.ts, from.id)..], Requested(limits))
  {
    if limits != [] {
      var before := limits[..|limits| - 1];
      RefreshingIsExact(rows, chat, from, before);
      OneRefresh(rows, chat, from, Requested(before), limits[|limits| - 1]);
    }
  }

  /* ----- the window around a message ----- */

  datatype Window = NotFound | Found(rows: seq<Row>)

  function FindRow(rows: seq<Row>, chat: string, id: string): seq<Row> {
    if rows == [] then []
    else if rows[0].chatJID == chat && rows[0].id == id then [rows[0]]
    else FindRow(rows[1..], chat, id)
  }

  function MessageContext(rows: seq<Row>, chat: string, id: string, before: int, after: int): Window {
    var target := FindRow(rows, chat, id);
    if target == [] then NotFound
    else
      var at := target[0];
      Found(Reversed(SelectDescending(rows, chat, OlderThan(at.ts, at.id), ClampContext(before)))
            + [at] + SelectAscending(rows, chat, NewerThan(at.ts, at.id), ClampContext(after)))
  }

  lemma {:induction false} FindRowFinds(rows: seq<Row>, chat: string, id: string)
    ensures FindRow(rows, chat, id) == [] <==> forall x :: x in rows ==> x.chatJID != chat || x.id != id
    ensures forall x :: x in FindRow(rows, chat, id) ==> x in rows && x.chatJID == chat && x.id == id
  {
    if rows != [] {
      FindRowFinds(rows[1..], chat, id);
      assert rows == [rows[0]] + rows[1..];
    }
  }

  // The rows within reach of the k-th, cut short only at the ends of the timeline.
  function Around(t: seq<Row>, k: nat, before: nat, after: nat): seq<Row>
    requires k < |t|
  {
    t[k - Least(k, before)..k + 1 + Least(|t| - k - 1, after)]
  }

  lemma AroundIsThreeParts(t: seq<Row>, k: nat, before: nat, after: nat)
    requires k < |t|
    ensures LastN(t[..k], before) + [t[k]] + Limit(t[k + 1..], after) == Around(t, k, before, after)
  {
    var lo, hi := k - Least(k, before), k + 1 + Least(|t| - k - 1, after);
    LastNOfFront(t, k, before);
    LimitOfBack(t, k + 1, after);
    GlueAt(t, lo, k, hi);
  }

  lemma LastNOfFront(t: seq<Row>, k: nat, n: nat)
    requires k <= |t|
    ensures LastN(t[..k], n) == t[k - Least(k, n)..k]
  {
  }

  lemma LimitOfBack(t: seq<Row>, k: nat, n: nat)
    requires k <= |t|
    ensures Limit(t[k..], n) == t[k..k + Least(|t| - k, n)]
  {
  }

  lemma GlueAt(t: seq<Row>, lo: nat, k: nat, hi: nat)
    requires lo <= k < hi <= |t|
    ensures t[lo..k] + [t[k]] + t[k + 1..hi] == t[lo..hi]
  {
  }

  lemma ContextOfRow(rows: seq<Row>, chat: string, k: nat, before: nat, after: nat)
    requires Keyed(rows) && k < |Timeline(rows, chat)|
    ensures var t := Timeline(rows, chat);
            Reversed(SelectDescending(rows, chat, OlderThan(t[k].ts, t[k].id), before)) + [t[k]]
            + SelectAscending(rows, chat, NewerThan(t[k].ts, t[k].id), after) == Around(t, k, before, after)
  {
    var t := Timeline(rows, chat);
    TimelineIsTheChat(rows, chat);
    CountAtRow(t, k);
    OlderIsAPrefix(rows, chat, t[k].ts, t[k].id);
    NewerIsASuffix(rows, chat, t[k].ts, t[k].id);
    ReversedLimitIsLastN(t[..k], before);
    AroundIsThreeParts(t, k, before, after);
  }

  // The window is one contiguous stretch of the timeline around the message; an unknown id is an error.
  lemma ContextIsASlice(rows: seq<Row>, chat: string, id: string, before: int, after: int) returns (k: nat)
    requires Keyed(rows)
    ensures match MessageContext(rows, chat, id, before, after)
            case NotFound => forall x :: x in Timeline(rows, chat) ==> x.id != id
            case Found(window) =>
              k < |Timeline(rows, chat)| && Timeline(rows, chat)[k].id == id &&
              window == Around(Timeline(rows, chat), k, ClampContext(before), ClampContext(after))
  {
    k := 0;
    FindRowFinds(rows, chat, id);
    TimelineIsTheChat(rows, chat);
    var target := FindRow(rows, chat, id);
    if target != [] {
      assert target[0] in target;
      assert target[0] in Timeline(rows, chat);
      k :| 0 <= k < |Timeline(rows, chat)| && Timeline(rows, chat)[k] == target[0];
      ContextOfRow(rows, chat, k, ClampContext(before), ClampContext(after));
    }
  }

  /* ----- the in-place loop ----- */

  method ReverseMessages(rows: array<Row>)
    modifies rows
    ensures rows[..] == Reversed(old(rows[..]))
  {
    ghost var was := rows[..];
    var i, j := 0, rows.Length - 1;
    while i < j
      invariant 0 <= i <= rows.Length && i + j == rows.Length - 1 && i <= j + 1
      invariant forall k :: 0 <= k < i || j < k < rows.Length ==> rows[k] == was[rows.Length - 1 - k]
      invariant forall k :: i <= k <= j ==> rows[k] == was[k]
    {
      rows[i], rows[j] := rows[j], rows[i];
      i, j := i + 1, j - 1;
    }
  }

  method RecentMessages(table: seq<Row>, chat: string, limit: int) returns (out: array<Row>)
    ensures fresh(out) && out[..] == Recent(table, chat, limit)
  {
    out := ToArray(SelectDescending(table, chat, Everything, ClampLimit(limit)));
    ReverseMessages(out);
  }

  method OlderMessages(table: seq<Row>, chat: string, ts: int, id: string, limit: int) returns (out: array<Row>)
    ensures fresh(out) && out[..] == MessagesBefore(table, chat, ts, id, limit)
  {
    out := ToArray(SelectDescending(table, chat, OlderThan(ts, id), ClampLimit(limit)));
    ReverseMessages(out);
  }

  // Older rows newest-first and reversed in place, the message, newer rows.
  method MessagesAround(table: seq<Row>, chat: string, id: string, before: int, after: int) returns (out: Window)
    ensures out == MessageContext(table, chat, id, before, after)
  {
    var target := FindRow(table, chat, id);
    if target == [] {
      return NotFound;
    }
    var at := target[0];
    var older := ToArray(SelectDescending(table, chat, OlderThan(at.ts, at.id), ClampContext(before)));
    ReverseMessages(older);
    var newer := SelectAscending(table, chat, NewerThan(at.ts, at.id), ClampContext(after));
    out := Found(older[..] + [at] + newer);
  }

  method ToArray(rows: seq<Row>) returns (out: array<Row>)
    ensures fresh(out) && out[..] == rows
  {
    out := new Row[|rows|](i requires 0 <= i < |rows| => rows[i]);
  }
}
