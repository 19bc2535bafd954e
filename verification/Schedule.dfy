/** The persistent set of confirmed future sends, and the runner that fires them. */
module Schedule {
  import opened TokenBucket
  import opened Gate

  const MISSED_GRACE: Time := 900 * SECOND
  const HORIZON: Time := 30 * 24 * 3600 * SECOND

  datatype Entry = Entry(id: string, delivery: Delivery, preview: string, created: int)

  // Whole seconds of a clock reading, rounded down as Unix times are.
  function UnixSeconds(now: Time): int {
    now / SECOND
  }

  predicate Due(e: Entry, now: Time) {
    e.delivery.fireAt * SECOND <= now
  }

  /* ----- meaning of the operations ----- */

  // Entries an earlier run left that may still fire.
  predicate Missed(e: Entry, now: Time) {
    e.delivery.fireAt < UnixSeconds(now - MISSED_GRACE)
  }

  function Survivors(entries: seq<Entry>, now: Time): seq<Entry> {
    if entries == [] then []
    else
      var n := |entries| - 1;
      Survivors(entries[..n], now) + if Missed(entries[n], now) then [] else [entries[n]]
  }

  function Dropped(entries: seq<Entry>, now: Time): seq<Entry> {
    if entries == [] then []
    else
      var n := |entries| - 1;
      Dropped(entries[..n], now) + if Missed(entries[n], now) then [entries[n]] else []
  }

  function Without(entries: seq<Entry>, id: string): seq<Entry> {
    if entries == [] then []
    else
      var n := |entries| - 1;
      Without(entries[..n], id) + if entries[n].id == id then [] else [entries[n]]
  }

  ghost predicate SoonestFirst(entries: seq<Entry>) {
    forall i, j :: 0 <= i < j < |entries| ==> entries[i].delivery.fireAt <= entries[j].delivery.fireAt
  }

  ghost predicate Permutation(a: seq<Entry>, b: seq<Entry>) {
    multiset(a) == multiset(b)
  }

  // The load loses nothing: every entry of the file is kept or reported, on the right side of the cutoff.
  lemma {:induction false} LoadSplitsTheFile(entries: seq<Entry>, now: Time)
    ensures Permutation(Survivors(entries, now) + Dropped(entries, now), entries)
    ensures forall e :: e in Survivors(entries, now) <==> e in entries && !Missed(e, now)
    ensures forall e :: e in Dropped(entries, now) <==> e in entries && Missed(e, now)
  {
    if entries != [] {
      var n := |entries| - 1;
      LoadSplitsTheFile(entries[..n], now);
      assert entries == entries[..n] + [entries[n]];
      assert multiset(entries) == multiset(entries[..n]) + multiset{entries[n]};
    }
  }

  lemma {:induction false} NoneDroppedKeepsAll(entries: seq<Entry>, now: Time)
    ensures Dropped(entries, now) == [] ==> Survivors(entries, now) == entries
  {
    if entries != [] {
      NoneDroppedKeepsAll(entries[..|entries| - 1], now);
      assert entries == entries[..|entries| - 1] + [entries[|entries| - 1]];
    }
  }

  lemma {:induction false} WithoutHolds(entries: seq<Entry>, id: string)
    ensures forall e :: e in Without(entries, id) <==> e in entries && e.id != id
    ensures (forall e :: e in entries ==> e.id != id) <==> Without(entries, id) == entries
    ensures |Without(entries, id)| <= |entries|
  {
    if entries != [] {
      var n := |entries| - 1;
      WithoutHolds(entries[..n], id);
      assert entries == entries[..n] + [entries[n]];
      if entries[n].id == id {
        assert entries[n] in entries;
      }
    }
  }

  // What is kept is kept in the file's order.
  lemma {:induction false} LoadKeepsOrder(entries: seq<Entry>, now: Time) returns (at: seq<nat>)
    ensures |at| == |Survivors(entries, now)|
    ensures forall i :: 0 <= i < |at| ==> at[i] < |entries| && Survivors(entries, now)[i] == entries[at[i]]
    ensures forall i, j :: 0 <= i < j < |at| ==> at[i] < at[j]
  {
    at := [];
    if entries != [] {
      var n := |entries| - 1;
      var front := LoadKeepsOrder(entries[..n], now);
      at := front;
      if !Missed(entries[n], now) {
        at := front + [n];
      }
    }
  }

  // Removal keeps exactly the entries without the id, each as often as it was there and in the order it had:
  // at lists their positions.
  lemma {:induction false} RemoveIsTheFilter(entries: seq<Entry>, id: string) returns (at: seq<nat>)
    ensures |at| == |Without(entries, id)|
    ensures forall i :: 0 <= i < |at| ==> at[i] < |entries| && Without(entries, id)[i] == entries[at[i]]
    ensures forall i, j :: 0 <= i < j < |at| ==> at[i] < at[j]
    ensures forall p: nat :: p in at <==> p < |entries| && entries[p].id != id
  {
    at := [];
    if entries != [] {
      var n := |entries| - 1;
      var front := RemoveIsTheFilter(entries[..n], id);
      at := front;
      if entries[n].id != id {
        at := front + [n];
      }
    }
  }

  // Cancelling is order-independent and cancelling twice is cancelling once.
  lemma {:induction false} RemovalsCommute(entries: seq<Entry>, a: string, b: string)
    ensures Without(Without(entries, a), b) == Without(Without(entries, b), a)
    ensures Without(Without(entries, a), a) == Without(entries, a)
  {
    if entries != [] {
      var n := |entries| - 1;
      RemovalsCommute(entries[..n], a, b);
      WithoutAppend(Without(entries[..n], a), entries[n], b);
      WithoutAppend(Without(entries[..n], b), entries[n], a);
      WithoutAppend(Without(entries[..n], a), entries[n], a);
    }
  }

  lemma WithoutAppend(entries: seq<Entry>, e: Entry, id: string)
    ensures Without(entries + [e], id) == Without(entries, id) + if e.id == id then [] else [e]
    ensures entries + [] == entries
  {
  }

  lemma {:induction false} SameLengthIsUntouched(entries: seq<Entry>, id: string)
    ensures |Without(entries, id)| <= |entries|
    ensures |Without(entries, id)| == |entries| ==> Without(entries, id) == entries
  {
    if entries != [] {
      var before, last := entries[..|entries| - 1], entries[|entries| - 1];
      SameLengthIsUntouched(before, id);
      if last.id != id {
        assert Without(entries, id) == Without(before, id) + [last];
        assert entries == before + [last];
      }
    }
  }

  lemma WithoutUpTo(entries: seq<Entry>, i: nat, id: string)
    requires i < |entries|
    ensures Without(entries[..i + 1], id) ==
            Without(entries[..i], id) + if entries[i].id == id then [] else [entries[i]]
  {
    assert entries[..i + 1][..i] == entries[..i];
  }

  // What the schedule-time deliverer accepts: strictly in the future, at most thirty days ahead.
  predicate Acceptable(d: Delivery, now: Time, contentOk: bool) {
    UnixSeconds(now) < d.fireAt <= UnixSeconds(now + HORIZON) && contentOk
  }

  // On the clock's own nanoseconds: strictly ahead, and no further than thirty days.
  lemma AcceptedIff(d: Delivery, now: Time, contentOk: bool)
    ensures Acceptable(d, now, contentOk) <==>
            contentOk && now < d.fireAt * 1_000_000_000 <= now + 30 * 86_400 * 1_000_000_000
  {
  }

  // Loading drops what came due more than fifteen minutes ago, to the second, and nothing else.
  lemma DroppedIff(entries: seq<Entry>, now: Time, e: Entry)
    requires e in entries
    ensures e in Dropped(entries, now) <==> (e.delivery.fireAt + 1) * 1_000_000_000 <= now - 15 * 60 * 1_000_000_000
    ensures e in Survivors(entries, now) <==> now - 15 * 60 * 1_000_000_000 < (e.delivery.fireAt + 1) * 1_000_000_000
  {
    LoadSplitsTheFile(entries, now);
  }

  /* ----- the store ----- */

  class Store {
    var buffer: array<Entry>  // the first `len` slots are the pending entries
    var len: nat
    var file: seq<Entry>      // what the schedule file holds
    var changed: bool         // the coalesced wake-up signal

    ghost predicate Valid()
      reads this
    {
      len <= buffer.Length
    }

    function Contents(): seq<Entry>
      reads this, buffer
      requires Valid()
    {
      buffer[..len]
    }

    constructor (kept: seq<Entry>, saved: seq<Entry>)
      ensures Valid() && fresh(buffer) && Contents() == kept && file == saved && !changed
    {
      buffer := new Entry[|kept|](i requires 0 <= i < |kept| => kept[i]);
      len := |kept|;
      file := saved;
      changed := false;
    }

    // A file that needed no dropping is left untouched; a failed rewrite fails the whole load.
    static method Load(saved: seq<Entry>, now: Time, writeOk: bool) returns (store: Store?, dropped: seq<Entry>)
      ensures store == null <==> Dropped(saved, now) != [] && !writeOk
      ensures dropped == if store == null then [] else Dropped(saved, now)
      ensures store != null ==> fresh(store) && store.Valid() && fresh(store.buffer) &&
                                store.Contents() == Survivors(saved, now) &&
                                store.file == store.Contents() && !store.changed
    {
      var kept: seq<Entry> := [];
      dropped := [];
      for i := 0 to |saved|
        invariant kept == Survivors(saved[..i], now) && dropped == Dropped(saved[..i], now)
      {
        assert saved[..i + 1][..i] == saved[..i];
        if Missed(saved[i], now) {
          dropped := dropped + [saved[i]];
          continue;
        }
        kept := kept + [saved[i]];
      }
      assert saved[..|saved|] == saved;
      NoneDroppedKeepsAll(saved, now);
      store := new Store(kept, saved);
      if dropped != [] {
        var ok := store.Persist(writeOk);
        if !ok {
          return null, [];
        }
      }
    }

    method Persist(writeOk: bool) returns (ok: bool)
      requires Valid()
      modifies this`file
      ensures ok == writeOk && file == if ok then Contents() else old(file)
    {
      ok := writeOk;
      if ok {
        file := buffer[..len];
      }
    }

    // A failed write reports an error yet leaves the entry pending.
    method Add(e: Entry, writeOk: bool) returns (ok: bool)
      requires Valid()
      modifies this, buffer
      ensures Valid() && (buffer == old(buffer) || fresh(buffer))
      ensures ok == writeOk && Contents() == old(Contents()) + [e]
      ensures file == if ok then Contents() else old(file)
      ensures changed == (ok || old(changed))
    {
      if len == buffer.Length {
        var grown := new Entry[2 * len + 1](i requires 0 <= i <= 2 * len reads this, buffer =>
                                            if i < len <= buffer.Length then buffer[i] else e);
        buffer := grown;
      }
      buffer[len] := e;
      len := len + 1;
      ok := Persist(writeOk);
      if ok {
        changed := true;
      }
    }

    // Compacts the kept entries to the front of the very array being read.
    method Compact(id: string) returns (kept: nat)
      requires Valid()
      modifies buffer
      ensures kept <= len && buffer[..kept] == Without(old(Contents()), id)
    {
      ghost var was := Contents();
      kept := 0;
      for i := 0 to len
        invariant kept <= i
        invariant buffer[..kept] == Without(was[..i], id)
        invariant forall k :: i <= k < len ==> buffer[k] == was[k]
      {
        WithoutUpTo(was, i, id);
        if buffer[i].id == id {
          continue;
        }
        buffer[kept] := buffer[i];
        kept := kept + 1;
      }
      assert was[..len] == was;
    }

    method Remove(id: string, writeOk: bool) returns (removed: bool, ok: bool)
      requires Valid()
      modifies this, buffer
      ensures Valid() && buffer == old(buffer)
      ensures Contents() == Without(old(Contents()), id)
      ensures removed <==> exists e :: e in old(Contents()) && e.id == id
      ensures ok == (!removed || writeOk)
      ensures file == if removed && writeOk then Contents() else old(file)
      ensures changed == (removed || old(changed))
    {
      ghost var was := Contents();
      var kept := Compact(id);
      WithoutHolds(was, id);
      SameLengthIsUntouched(was, id);
      removed := kept < len;
      len := kept;
      ok := true;
      if removed {
        ok := Persist(writeOk);
        changed := true;
      }
    }

    // A snapshot, soonest fire time first; ties come in no promised order.
    method List() returns (out: seq<Entry>)
      requires Valid()
      ensures Permutation(out, Contents()) && SoonestFirst(out)
    {
      out := [];
      for i := 0 to len
        invariant Permutation(out, buffer[..i]) && SoonestFirst(out)
      {
        assert buffer[..i + 1] == buffer[..i] + [buffer[i]];
        out := InsertByFireAt(out, buffer[i]);
      }
    }
  }

  method InsertByFireAt(sorted: seq<Entry>, e: Entry) returns (out: seq<Entry>)
    requires SoonestFirst(sorted)
    ensures Permutation(out, sorted + [e]) && SoonestFirst(out)
  {
    var k := |sorted|;
    while 0 < k && e.delivery.fireAt < sorted[k - 1].delivery.fireAt
      invariant 0 <= k <= |sorted|
      invariant k < |sorted| ==> e.delivery.fireAt <= sorted[k].delivery.fireAt
    {
      k := k - 1;
    }
    out := sorted[..k] + [e] + sorted[k..];
    InsertKeepsOrder(sorted, e, k);
    InsertIsPermutation(sorted, e, k);
  }

  lemma InsertIsPermutation(sorted: seq<Entry>, e: Entry, k: nat)
    requires k <= |sorted|
    ensures Permutation(sorted[..k] + [e] + sorted[k..], sorted + [e])
  {
    assert sorted == sorted[..k] + sorted[k..];
  }

  lemma InsertKeepsOrder(sorted: seq<Entry>, e: Entry, k: nat)
    requires SoonestFirst(sorted) && k <= |sorted|
    requires k < |sorted| ==> e.delivery.fireAt <= sorted[k].delivery.fireAt
    requires 0 < k ==> sorted[k - 1].delivery.fireAt <= e.delivery.fireAt
    ensures SoonestFirst(sorted[..k] + [e] + sorted[k..])
  {
  }
}
