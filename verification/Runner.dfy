/** The runner's loop over the schedule store and the live gate. */
module Runner {
  import opened TokenBucket
  import opened Gate
  import opened Schedule

  // One turn's surroundings: the clock, the deliverer's verdict, whether the file write works,
  // and a cancellation that lands before the turn.
  datatype Tick = Tick(now: Time, sendAt: Time, valid: bool, writeOk: bool, cancelled: string)

  datatype Fired = Fired(entry: Entry, at: Time)

  ghost predicate RunSoFar(was: seq<Entry>, pending: seq<Entry>, fired: seq<Fired>) {
    && (forall e :: e in pending ==> e in was)
    && (forall k :: 0 <= k < |fired| ==> fired[k].entry in was && Due(fired[k].entry, fired[k].at))
    && (forall k, e :: 0 <= k < |fired| && e in pending ==> e.id != fired[k].entry.id)
    && (forall i, k :: 0 <= i < k < |fired| ==> fired[i].entry.id != fired[k].entry.id)
  }

  ghost predicate SameSends(fired: seq<Fired>, claims: seq<Claim>) {
    |fired| == |claims| &&
    forall k :: 0 <= k < |fired| ==> claims[k].delivery == fired[k].entry.delivery && claims[k].via == BySchedule
  }

  lemma RemovalKeepsRunSoFar(was: seq<Entry>, pending: seq<Entry>, fired: seq<Fired>, id: string)
    requires RunSoFar(was, pending, fired)
    ensures RunSoFar(was, Without(pending, id), fired)
  {
  }

  lemma FiringKeepsRunSoFar(was: seq<Entry>, pending: seq<Entry>, fired: seq<Fired>, entry: Entry, at: Time)
    requires RunSoFar(was, pending, fired) && entry in pending && Due(entry, at)
    ensures RunSoFar(was, Without(pending, entry.id), fired + [Fired(entry, at)])
  {
    WithoutHolds(pending, entry.id);
  }

  datatype Turn = Waited | Limited | Gone(entry: Entry) | Delivered(entry: Entry, claim: Claim)

  ghost predicate Soonest(e: Entry, pending: seq<Entry>) {
    e in pending && forall x :: x in pending ==> e.delivery.fireAt <= x.delivery.fireAt
  }

  // What a turn does, decided by the pending entries, the clock, the deliverer and the limiter: nothing due waits;
  // a due entry waits for a token, goes when it is refused, and is delivered otherwise.
  ghost predicate TurnOf(was: seq<Entry>, now: seq<Entry>, bucket: Bucket, tick: Tick, turn: Turn) {
    var pending := Without(was, tick.cancelled);
    match turn
    case Waited => now == pending && NoneDue(pending, tick.now)
    case Limited => now == pending && !NoneDue(pending, tick.now) && tick.valid && !bucket.Allows(tick.sendAt)
    case Gone(e) => Soonest(e, pending) && Due(e, tick.now) && now == Without(pending, e.id) && !tick.valid
    case Delivered(e, c) => Soonest(e, pending) && Due(e, tick.now) && now == Without(pending, e.id) &&
                            tick.valid && bucket.Allows(tick.sendAt) && c == Claim(e.delivery, BySchedule, tick.sendAt)
  }

  ghost predicate NoneDue(pending: seq<Entry>, now: Time) {
    forall e :: e in pending ==> !Due(e, now)
  }

  function Spent(bucket: Bucket, tick: Tick, turn: Turn): Bucket {
    if turn.Delivered? then bucket.Spend(tick.sendAt) else bucket
  }

  lemma FirstIsSoonest(list: seq<Entry>, pending: seq<Entry>)
    requires Permutation(list, pending) && SoonestFirst(list) && list != []
    ensures Soonest(list[0], pending)
  {
    assert list[0] in multiset(list);
    forall x | x in pending
      ensures list[0].delivery.fireAt <= x.delivery.fireAt
    {
      assert x in multiset(pending);
      assert x in list;
    }
  }

  lemma EmptyHasNoneDue(list: seq<Entry>, pending: seq<Entry>, now: Time)
    requires Permutation(list, pending) && list == []
    ensures NoneDue(pending, now)
  {
    assert |multiset(pending)| == 0;
  }

  // On the clock's own nanoseconds: nothing goes or waits for a token before its time, and a turn waits exactly
  // when every entry that was not cancelled lies ahead.
  lemma TurnIsNeverEarly(was: seq<Entry>, now: seq<Entry>, bucket: Bucket, tick: Tick, turn: Turn)
    requires TurnOf(was, now, bucket, tick, turn)
    ensures turn.Gone? || turn.Delivered? ==> turn.entry.delivery.fireAt * 1_000_000_000 <= tick.now
    ensures turn.Waited? <==>
            forall e :: e in was && e.id != tick.cancelled ==> tick.now < e.delivery.fireAt * 1_000_000_000
  {
    WithoutHolds(was, tick.cancelled);
  }

  // A rate-limited entry stays for a later turn; sent, failed or refused, it goes.
  method DecideTurn(store: Store, gate: Gate, tick: Tick) returns (turn: Turn)
    requires store.Valid()
    modifies store, store.buffer, gate
    ensures store.Valid() && store.buffer == old(store.buffer)
    ensures TurnOf(old(store.Contents()), store.Contents(), old(gate.bucket), tick, turn)
    ensures gate.bucket == Spent(old(gate.bucket), tick, turn) && gate.drafts == old(gate.drafts)
    ensures gate.order == old(gate.order)
    ensures gate.wire == old(gate.wire) + if turn.Delivered? then [turn.claim] else []
  {
    var _, _ := store.Remove(tick.cancelled, tick.writeOk);
    var list := store.List();
    if list == [] {
      EmptyHasNoneDue(list, store.Contents(), tick.now);
      return Waited;
    }
    var entry := list[0];
    FirstIsSoonest(list, store.Contents());
    if tick.now < entry.delivery.fireAt * SECOND {
      return Waited;
    }
    var out := gate.DeliverScheduledEntry(tick.sendAt, entry.delivery, tick.valid, "");
    if out.RateLimited? {
      return Limited;
    }
    var _, _ := store.Remove(entry.id, tick.writeOk);
    turn := if out.Claimed? then Delivered(entry, out.claim) else Gone(entry);
  }

  // The same turn, and what it means on the clock's own nanoseconds.
  method RunTurn(store: Store, gate: Gate, tick: Tick) returns (turn: Turn)
    requires store.Valid()
    modifies store, store.buffer, gate
    ensures store.Valid() && store.buffer == old(store.buffer)
    ensures TurnOf(old(store.Contents()), store.Contents(), old(gate.bucket), tick, turn)
    ensures turn.Delivered? ==> turn.entry.delivery.fireAt * 1_000_000_000 <= tick.now
    ensures turn.Waited? <==> forall e :: e in old(store.Contents()) && e.id != tick.cancelled ==>
              tick.now < e.delivery.fireAt * 1_000_000_000
    ensures gate.bucket == Spent(old(gate.bucket), tick, turn) && gate.drafts == old(gate.drafts)
    ensures gate.order == old(gate.order)
    ensures gate.wire == old(gate.wire) + if turn.Delivered? then [turn.claim] else []
  {
    ghost var was, bucket := store.Contents(), gate.bucket;
    turn := DecideTurn(store, gate, tick);
    TurnIsNeverEarly(was, store.Contents(), bucket, tick, turn);
  }

  // An entry whose file write failed was reported as an error, yet it is pending and fires like any other.
  method FailedAddStillFires(store: Store, gate: Gate, e: Entry, tick: Tick) returns (ok: bool, turn: Turn)
    requires store.Valid() && NoneDue(store.Contents(), tick.now) && Due(e, tick.now)
    requires tick.valid && gate.bucket.Allows(tick.sendAt) && tick.cancelled != e.id
    modifies store, store.buffer, gate
    ensures !ok && turn == Delivered(e, Claim(e.delivery, BySchedule, tick.sendAt))
    ensures gate.wire == old(gate.wire) + [turn.claim]
  {
    ghost var pending, bucket := store.Contents(), gate.bucket;
    ok := store.Add(e, false);
    turn := RunTurn(store, gate, tick);
    OnlyDueEntryIsDelivered(pending, e, store.Contents(), bucket, tick, turn);
  }

  lemma OnlyDueEntryIsDelivered(pending: seq<Entry>, e: Entry, now: seq<Entry>, bucket: Bucket, tick: Tick, turn: Turn)
    requires TurnOf(pending + [e], now, bucket, tick, turn) && NoneDue(pending, tick.now) && Due(e, tick.now)
    requires tick.valid && bucket.Allows(tick.sendAt) && tick.cancelled != e.id
    ensures turn == Delivered(e, Claim(e.delivery, BySchedule, tick.sendAt))
  {
    var was := pending + [e];
    WithoutHolds(was, tick.cancelled);
    assert was[|pending|] == e;
    assert forall x :: x in was <==> x in pending || x == e;
  }

  /* ----- the whole loop ----- */

  // The pending entries and the limiter before the first turn and after each, and what each turn did.
  datatype Trace = Trace(states: seq<seq<Entry>>, buckets: seq<Bucket>, turns: seq<Turn>)

  ghost predicate TraceOf(script: seq<Tick>, t: Trace) {
    && |t.turns| == |script| && |t.states| == |script| + 1 && |t.buckets| == |script| + 1
    && forall i :: 0 <= i < |script| ==> StepOf(script[i], t, i)
  }

  ghost predicate StepOf(tick: Tick, t: Trace, i: nat)
    requires i < |t.turns| && i + 1 < |t.states| && i + 1 < |t.buckets|
  {
    TurnOf(t.states[i], t.states[i + 1], t.buckets[i], tick, t.turns[i]) &&
    t.buckets[i + 1] == Spent(t.buckets[i], tick, t.turns[i])
  }

  // The entries fired, with the reading that found each due, and the claims they made.
  function FiredBy(script: seq<Tick>, turns: seq<Turn>): seq<Fired>
    requires |turns| == |script|
  {
    if turns == [] then []
    else
      var n := |turns| - 1;
      FiredBy(script[..n], turns[..n]) +
      if turns[n].Delivered? then [Fired(turns[n].entry, script[n].now)] else []
  }

  function ClaimsBy(turns: seq<Turn>): seq<Claim> {
    if turns == [] then []
    else
      var n := |turns| - 1;
      ClaimsBy(turns[..n]) + if turns[n].Delivered? then [turns[n].claim] else []
  }

  function Extend(t: Trace, state: seq<Entry>, bucket: Bucket, turn: Turn): Trace {
    Trace(t.states + [state], t.buckets + [bucket], t.turns + [turn])
  }

  lemma ExtendKeepsTrace(script: seq<Tick>, t: Trace, tick: Tick, state: seq<Entry>, turn: Turn)
    requires TraceOf(script, t)
    requires TurnOf(t.states[|script|], state, t.buckets[|script|], tick, turn)
    ensures TraceOf(script + [tick], Extend(t, state, Spent(t.buckets[|script|], tick, turn), turn))
  {
    var n, all := |script|, script + [tick];
    var t' := Extend(t, state, Spent(t.buckets[n], tick, turn), turn);
    forall i | 0 <= i < |all|
      ensures StepOf(all[i], t', i)
    {
      if i < n {
        assert StepOf(script[i], t, i);
        assert t'.states[i] == t.states[i] && t'.states[i + 1] == t.states[i + 1];
        assert t'.buckets[i] == t.buckets[i] && t'.buckets[i + 1] == t.buckets[i + 1] && t'.turns[i] == t.turns[i];
      } else {
        assert t'.states[n] == t.states[n] && t'.states[n + 1] == state;
        assert t'.buckets[n] == t.buckets[n] && t'.turns[n] == turn;
      }
    }
  }

  lemma ClaimsByStep(turns: seq<Turn>, turn: Turn)
    ensures ClaimsBy(turns + [turn]) == ClaimsBy(turns) + if turn.Delivered? then [turn.claim] else []
  {
    assert (turns + [turn])[..|turns|] == turns;
  }

  // The loop, for as long as the process lives: every turn is the decided one, and the wire is what the turns claimed.
  method RunSchedules(store: Store, gate: Gate, script: seq<Tick>) returns (turns: seq<Turn>, ghost trace: Trace)
    requires store.Valid()
    modifies store, store.buffer, gate
    ensures store.Valid()
    ensures TraceOf(script, trace) && trace.turns == turns
    ensures trace.states[0] == old(store.Contents()) && trace.states[|script|] == store.Contents()
    ensures trace.buckets[0] == old(gate.bucket) && trace.buckets[|script|] == gate.bucket
    ensures gate.wire == old(gate.wire) + ClaimsBy(turns)
    ensures gate.drafts == old(gate.drafts) && gate.order == old(gate.order)
  {
    turns := [];
    trace := Trace([store.Contents()], [gate.bucket], []);
    for i := 0 to |script|
      invariant store.Valid() && store.buffer == old(store.buffer)
      invariant TraceOf(script[..i], trace) && trace.turns == turns
      invariant trace.states[0] == old(store.Contents()) && trace.states[i] == store.Contents()
      invariant trace.buckets[0] == old(gate.bucket) && trace.buckets[i] == gate.bucket
      invariant gate.wire == old(gate.wire) + ClaimsBy(turns)
      invariant gate.drafts == old(gate.drafts) && gate.order == old(gate.order)
    {
      var turn := RunTurn(store, gate, script[i]);
      ExtendKeepsTrace(script[..i], trace, script[i], store.Contents(), turn);
      ClaimsByStep(turns, turn);
      assert script[..i + 1] == script[..i] + [script[i]];
      trace := Extend(trace, store.Contents(), gate.bucket, turn);
      turns := turns + [turn];
    }
    assert script[..|script|] == script;
  }

  /* ----- what a trace keeps ----- */

  lemma TurnKeepsRunSoFar(was: seq<Entry>, before: seq<Entry>, after: seq<Entry>, fired: seq<Fired>,
                          bucket: Bucket, tick: Tick, turn: Turn)
    requires RunSoFar(was, before, fired) && TurnOf(before, after, bucket, tick, turn)
    ensures RunSoFar(was, after, if turn.Delivered? then fired + [Fired(turn.entry, tick.now)] else fired)
  {
    var pending := Without(before, tick.cancelled);
    RemovalKeepsRunSoFar(was, before, fired, tick.cancelled);
    if turn.Delivered? {
      FiringKeepsRunSoFar(was, pending, fired, turn.entry, tick.now);
    } else if turn.Gone? {
      RemovalKeepsRunSoFar(was, pending, fired, turn.entry.id);
    }
  }

  lemma TracePrefix(script: seq<Tick>, t: Trace)
    requires TraceOf(script, t) && script != []
    ensures var n := |script| - 1; TraceOf(script[..n], Trace(t.states[..n + 1], t.buckets[..n + 1], t.turns[..n]))
  {
    forall i | 0 <= i < |script| - 1
      ensures StepOf(script[i], Trace(t.states[..|script|], t.buckets[..|script|], t.turns[..|script| - 1]), i)
    {
      assert StepOf(script[i], t, i);
    }
  }

  // What was fired had been pending and due, none twice and none still pending, and each claim carries its content.
  lemma {:induction false} TraceFiresOnce(script: seq<Tick>, t: Trace)
    requires TraceOf(script, t)
    ensures RunSoFar(t.states[0], t.states[|script|], FiredBy(script, t.turns))
    ensures SameSends(FiredBy(script, t.turns), ClaimsBy(t.turns))
    ensures forall k :: 0 <= k < |FiredBy(script, t.turns)| ==>
              FiredBy(script, t.turns)[k].entry.delivery.fireAt * 1_000_000_000 <= FiredBy(script, t.turns)[k].at
  {
    if script != [] {
      var n := |script| - 1;
      TracePrefix(script, t);
      TraceFiresOnce(script[..n], Trace(t.states[..n + 1], t.buckets[..n + 1], t.turns[..n]));
      assert StepOf(script[n], t, n);
      TurnKeepsRunSoFar(t.states[0], t.states[n], t.states[n + 1], FiredBy(script[..n], t.turns[..n]),
                        t.buckets[n], script[n], t.turns[n]);
    }
  }

  // A turn that is not held up by the limiter either finds nothing due or takes at least one entry away.
  lemma TurnMakesProgress(was: seq<Entry>, now: seq<Entry>, bucket: Bucket, tick: Tick, turn: Turn, due: Time)
    requires TurnOf(was, now, bucket, tick, turn) && !turn.Limited? && due <= tick.now
    ensures NoneDue(now, due) || |now| < |was|
    ensures NoneDue(was, due) ==> NoneDue(now, due)
  {
    var pending := Without(was, tick.cancelled);
    WithoutHolds(was, tick.cancelled);
    if turn.Gone? || turn.Delivered? {
      WithoutHolds(pending, turn.entry.id);
      SameLengthIsUntouched(pending, turn.entry.id);
    }
  }

  // So once a time has passed, one more unhindered turn than there were entries leaves none that was due by then.
  lemma {:induction false} DueEntriesAreDealtWith(script: seq<Tick>, t: Trace, due: Time)
    requires TraceOf(script, t)
    requires forall i :: 0 <= i < |script| ==> due <= script[i].now && !t.turns[i].Limited?
    ensures NoneDue(t.states[|script|], due) || |t.states[|script|]| + |script| <= |t.states[0]|
    ensures |t.states[0]| < |script| ==> NoneDue(t.states[|script|], due)
  {
    if script != [] {
      var n := |script| - 1;
      TracePrefix(script, t);
      DueEntriesAreDealtWith(script[..n], Trace(t.states[..n + 1], t.buckets[..n + 1], t.turns[..n]), due);
      assert StepOf(script[n], t, n);
      TurnMakesProgress(t.states[n], t.states[n + 1], t.buckets[n], script[n], t.turns[n], due);
    }
  }
}
