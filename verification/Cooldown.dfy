/** History-request cooldowns: a slot is reserved under a lock, the request is
sent without it, and a failed send rolls the reservation back only if nothing
newer claimed the slot. */
module Cooldown {
  import opened TokenBucket

  const PER_CHAT: Time := 15 * SECOND
  const GLOBAL: Time := 3 * SECOND

  // The zero time, which stands for "never".
  const NEVER: Time := 0

  /* ----- time arithmetic in 64 bits ----- */

  const MAX_DURATION: int := 0x7fff_ffff_ffff_ffff
  const MIN_DURATION: int := -0x8000_0000_0000_0000

  // The difference of two times, clamped to what a duration can hold.
  function Sub(a: Time, b: Time): (d: int)
    ensures MIN_DURATION <= d <= MAX_DURATION
  {
    if a - b < MIN_DURATION then MIN_DURATION else if MAX_DURATION < a - b then MAX_DURATION else a - b
  }

  // Duration subtraction wraps around.
  function Minus(a: int, b: int): (d: int)
    requires MIN_DURATION <= a <= MAX_DURATION && MIN_DURATION <= b <= MAX_DURATION
    ensures MIN_DURATION <= d <= MAX_DURATION
  {
    if MAX_DURATION < a - b then a - b - 0x1_0000_0000_0000_0000
    else if a - b < MIN_DURATION then a - b + 0x1_0000_0000_0000_0000
    else a - b
  }

  predicate MustWait(cooldown: Time, now: Time, last: Time)
    requires 0 <= cooldown <= MAX_DURATION
  {
    0 < Minus(cooldown, Sub(now, last))
  }

  // The guard lets a request through exactly when the cooldown has passed,
  // or when the clock has fallen so far behind that the subtraction wraps.
  lemma GuardPasses(cooldown: Time, now: Time, last: Time)
    requires 0 <= cooldown <= MAX_DURATION
    ensures !MustWait(cooldown, now, last) <==> cooldown <= now - last || now - last <= cooldown + MIN_DURATION
  {
  }

  /* ----- the reservation ----- */

  datatype Slots = Slots(byChat: map<string, Time>, latest: Time)

  // One request past its reservation: in flight, or answered.
  datatype Request = Request(chat: string, stamp: Time, prevChat: Time, prevAny: Time)

  function LastFor(s: Slots, chat: string): Time {
    if chat in s.byChat then s.byChat[chat] else NEVER
  }

  predicate TooSoon(s: Slots, chat: string, now: Time) {
    MustWait(GLOBAL, now, s.latest) || (chat in s.byChat && MustWait(PER_CHAT, now, s.byChat[chat]))
  }

  function Reserve(s: Slots, chat: string, now: Time): (Slots, Request) {
    (Slots(s.byChat[chat := now], now), Request(chat, now, LastFor(s, chat), s.latest))
  }

  function RollBack(s: Slots, r: Request): Slots {
    var byChat :=
      if LastFor(s, r.chat) == r.stamp then
        if r.prevChat == NEVER then s.byChat - {r.chat} else s.byChat[r.chat := r.prevChat]
      else s.byChat;
    Slots(byChat, if s.latest == r.stamp then r.prevAny else s.latest)
  }

  // A failed attempt that nothing overtook leaves no trace: it burns no quota.
  lemma RollBackUndoesReserve(s: Slots, chat: string, now: Time)
    requires NEVER !in s.byChat.Values
    ensures RollBack(Reserve(s, chat, now).0, Reserve(s, chat, now).1) == s
  {
  }

  /* ----- all interleavings ----- */

  datatype Event = Ask(chat: string, now: Time) | Fail(index: nat)

  // `live` holds every request in flight or answered; a failed one is taken out.
  datatype Desk = Desk(slots: Slots, live: seq<Request>)

  const CLOSED := Desk(Slots(map[], NEVER), [])

  function Next(d: Desk, e: Event): Desk {
    match e
    case Ask(chat, now) =>
      if TooSoon(d.slots, chat, now) then d
      else
        var (slots, r) := Reserve(d.slots, chat, now);
        Desk(slots, d.live + [r])
    case Fail(i) =>
      if i < |d.live| then Desk(RollBack(d.slots, d.live[i]), d.live[..i] + d.live[i + 1..]) else d
  }

  function Run(es: seq<Event>): Desk {
    if es == [] then CLOSED else Next(Run(es[..|es| - 1]), es[|es| - 1])
  }

  // The clock may go anywhere between lo and hi, back and forth.
  ghost predicate ReadsWithin(es: seq<Event>, lo: Time, hi: Time) {
    forall k :: 0 <= k < |es| && es[k].Ask? ==> lo <= es[k].now <= hi
  }

  // About 292 years: wide enough for a reading to make the guard's subtraction wrap, or not.
  predicate ShortSpan(lo: Time, hi: Time) {
    hi - lo < -MIN_DURATION - GLOBAL
  }

  function Distance(a: Time, b: Time): Time {
    if a <= b then b - a else a - b
  }

  // Three seconds apart, fifteen for the same chat.
  ghost predicate KeepDistance(live: seq<Request>) {
    forall i, j :: 0 <= i < j < |live| ==>
      3_000_000_000 <= Distance(live[i].stamp, live[j].stamp) &&
      (live[i].chat == live[j].chat ==> 15_000_000_000 <= Distance(live[i].stamp, live[j].stamp))
  }

  // A stamp v of chat c came before r, or after it, or is r's own.
  predicate Apart(v: Time, c: string, r: Request) {
    v <= r.prevAny || r.stamp < v || (v == r.stamp && c == r.chat)
  }

  // r yields to r2 or came a full cooldown before it.
  ghost predicate Ordered(r: Request, r2: Request) {
    && (r2.stamp <= r.prevAny || r.stamp + GLOBAL <= r2.stamp)
    && (r2.chat == r.chat ==> (r.prevChat != NEVER && r2.stamp <= r.prevChat) || r.stamp + PER_CHAT <= r2.stamp)
    && Apart(r.prevChat, r.chat, r2)
  }

  ghost predicate AllOrdered(live: seq<Request>) {
    forall i, j :: 0 <= i < |live| && 0 <= j < |live| && i != j ==> Ordered(live[i], live[j])
  }

  // Every chat's stamp is a reading, and no later than the latest.
  ghost predicate Stamped(s: Slots, lo: Time, hi: Time) {
    && (s.latest == NEVER || lo <= s.latest <= hi)
    && (forall c :: c in s.byChat ==> lo <= s.byChat[c] <= s.latest && NEVER < s.byChat[c])
  }

  // No slot is stamped below a live request of it, and what a rollback would
  // restore is no lower than any live request that came before.
  ghost predicate Guarded(d: Desk, lo: Time, hi: Time) {
    && Stamped(d.slots, lo, hi)
    && (forall i :: 0 <= i < |d.live| ==> Covered(d.slots, d.live[i], lo, hi))
    && AllOrdered(d.live)
  }

  ghost predicate Covered(s: Slots, r: Request, lo: Time, hi: Time) {
    && NEVER < r.stamp <= s.latest && lo <= r.stamp <= hi
    && r.chat in s.byChat && r.stamp <= s.byChat[r.chat]
    && r.prevAny + GLOBAL <= r.stamp && (r.prevAny == NEVER || lo <= r.prevAny)
    && (r.prevChat == NEVER || (lo <= r.prevChat && NEVER < r.prevChat && r.prevChat + PER_CHAT <= r.stamp))
    && r.prevChat <= r.prevAny
    && (forall c :: c in s.byChat ==> Apart(s.byChat[c], c, r))
  }

  // The per-chat guard alone could wrap; the global one, which passed, rules that out.
  lemma PassedGuards(s: Slots, chat: string, now: Time, lo: Time, hi: Time)
    requires Stamped(s, lo, hi) && NEVER <= lo <= now <= hi && ShortSpan(lo, hi) && !TooSoon(s, chat, now)
    ensures s.latest + GLOBAL <= now && (chat in s.byChat ==> s.byChat[chat] + PER_CHAT <= now)
  {
    GuardPasses(GLOBAL, now, s.latest);
    if chat in s.byChat {
      GuardPasses(PER_CHAT, now, s.byChat[chat]);
    }
  }

  // A request is granted as soon as three seconds have passed for all and fifteen for its own chat.
  lemma PassedCooldownsAreGranted(s: Slots, chat: string, now: Time)
    ensures CooledDown(s, chat, now) ==> !TooSoon(s, chat, now)
  {
    GuardPasses(GLOBAL, now, s.latest);
    if chat in s.byChat {
      GuardPasses(PER_CHAT, now, s.byChat[chat]);
    }
  }

  predicate CooledDown(s: Slots, chat: string, now: Time) {
    s.latest + 3_000_000_000 <= now && (chat in s.byChat ==> s.byChat[chat] + 15_000_000_000 <= now)
  }

  // In a short span never sooner either; a granted request is in flight under its own reading, a refused one is not.
  lemma GrantedIffCooledDown(es: seq<Event>, lo: Time, hi: Time, chat: string, now: Time)
    requires ReadsWithin(es, lo, hi) && NEVER <= lo <= now <= hi && ShortSpan(lo, hi)
    ensures var d, d' := Run(es), Next(Run(es), Ask(chat, now));
            if CooledDown(d.slots, chat, now)
            then |d'.live| == |d.live| + 1 && d.live <= d'.live &&
                 d'.live[|d.live|].chat == chat && d'.live[|d.live|].stamp == now &&
                 d'.slots.latest == now && d'.slots.byChat == d.slots.byChat[chat := now]
            else d' == d
  {
    RunKeepsGuarded(es, lo, hi);
    var s := Run(es).slots;
    PassedCooldownsAreGranted(s, chat, now);
    if !TooSoon(s, chat, now) {
      PassedGuards(s, chat, now, lo, hi);
    }
  }

  // A rollback touches a stamp only if it is still the request's own, and then restores what stood before.
  lemma RollBackSparesNewer(s: Slots, r: Request)
    ensures RollBack(s, r).latest == if s.latest == r.stamp then r.prevAny else s.latest
    ensures forall c :: c != r.chat ==> (c in RollBack(s, r).byChat <==> c in s.byChat)
    ensures forall c :: c != r.chat && c in s.byChat ==> RollBack(s, r).byChat[c] == s.byChat[c]
    ensures r.chat in s.byChat && s.byChat[r.chat] != r.stamp ==>
              r.chat in RollBack(s, r).byChat && RollBack(s, r).byChat[r.chat] == s.byChat[r.chat]
    ensures r.chat in s.byChat && s.byChat[r.chat] == r.stamp ==>
              (r.chat in RollBack(s, r).byChat <==> r.prevChat != NEVER) &&
              (r.prevChat != NEVER ==> RollBack(s, r).byChat[r.chat] == r.prevChat)
  {
  }

  lemma AskKeepsGuarded(d: Desk, chat: string, now: Time, lo: Time, hi: Time)
    requires Guarded(d, lo, hi) && NEVER <= lo <= now <= hi && ShortSpan(lo, hi)
    ensures Guarded(Next(d, Ask(chat, now)), lo, hi)
  {
    if !TooSoon(d.slots, chat, now) {
      PassedGuards(d.slots, chat, now, lo, hi);
      var d' := Next(d, Ask(chat, now));
      var r := d'.live[|d.live|];
      forall i | 0 <= i < |d.live|
        ensures Ordered(d.live[i], r) && Ordered(r, d.live[i]) && Covered(d'.slots, d.live[i], lo, hi)
      {
        assert Covered(d.slots, d.live[i], lo, hi);
      }
    }
  }

  lemma RollBackKeepsStamped(s: Slots, r: Request, lo: Time, hi: Time)
    requires Stamped(s, lo, hi) && Covered(s, r, lo, hi)
    ensures Stamped(RollBack(s, r), lo, hi)
  {
  }

  lemma RollBackKeepsCovered(s: Slots, r: Request, other: Request, lo: Time, hi: Time)
    requires Covered(s, r, lo, hi) && Covered(s, other, lo, hi) && Ordered(r, other)
    ensures Covered(RollBack(s, r), other, lo, hi)
  {
  }

  // The rollback drops a stamp only to one that no remaining request exceeds.
  lemma FailKeepsGuarded(d: Desk, i: nat, lo: Time, hi: Time)
    requires Guarded(d, lo, hi) && i < |d.live|
    ensures Guarded(Next(d, Fail(i)), lo, hi)
  {
    var r := d.live[i];
    var d' := Next(d, Fail(i));
    assert Covered(d.slots, r, lo, hi);
    RollBackKeepsStamped(d.slots, r, lo, hi);
    forall j | 0 <= j < |d'.live|
      ensures Covered(d'.slots, d'.live[j], lo, hi)
    {
      var k := if j < i then j else j + 1;
      assert d'.live[j] == d.live[k];
      RollBackKeepsCovered(d.slots, r, d.live[k], lo, hi);
    }
    FailKeepsOrdered(d, i);
  }

  lemma FailKeepsOrdered(d: Desk, i: nat)
    requires i < |d.live| && AllOrdered(d.live)
    ensures AllOrdered(Next(d, Fail(i)).live)
  {
  }

  lemma {:induction false} RunKeepsGuarded(es: seq<Event>, lo: Time, hi: Time)
    requires ReadsWithin(es, lo, hi) && NEVER <= lo <= hi && ShortSpan(lo, hi)
    ensures Guarded(Run(es), lo, hi)
  {
    if es != [] {
      var before, e := es[..|es| - 1], es[|es| - 1];
      RunKeepsGuarded(before, lo, hi);
      match e
      case Ask(chat, now) => AskKeepsGuarded(Run(before), chat, now, lo, hi);
      case Fail(i) => if i < |Run(before).live| { FailKeepsGuarded(Run(before), i, lo, hi); }
    }
  }

  // However requests interleave, fail and roll back, those in flight or answered keep their distance.
  lemma RequestsKeepTheirDistance(es: seq<Event>, lo: Time, hi: Time)
    requires ReadsWithin(es, lo, hi) && NEVER <= lo <= hi && ShortSpan(lo, hi)
    ensures KeepDistance(Run(es).live)
  {
    RunKeepsGuarded(es, lo, hi);
    var live := Run(es).live;
    forall i, j | 0 <= i < j < |live|
      ensures GLOBAL <= Distance(live[i].stamp, live[j].stamp)
      ensures live[i].chat == live[j].chat ==> PER_CHAT <= Distance(live[i].stamp, live[j].stamp)
    {
      assert Ordered(live[i], live[j]) && Covered(Run(es).slots, live[i], lo, hi);
    }
  }

  // In any longer span the guard wraps: forward, back and forward again, two requests carry one stamp.
  lemma LongSpanRepeatsAStamp(lo: Time, hi: Time) returns (es: seq<Event>)
    requires NEVER <= lo <= hi && !ShortSpan(lo, hi)
    ensures ReadsWithin(es, lo, hi) && !KeepDistance(Run(es).live)
  {
    var first, second := [Ask("a", hi)], [Ask("a", hi), Ask("b", lo)];
    es := [Ask("a", hi), Ask("b", lo), Ask("c", hi)];
    assert first[..0] == [] && second[..1] == first && es[..2] == second;
    GuardPasses(GLOBAL, hi, NEVER);
    GuardPasses(GLOBAL, lo, hi);
    GuardPasses(GLOBAL, hi, lo);
    assert Run(first) == Next(CLOSED, Ask("a", hi));
    assert Run(second) == Next(Run(first), Ask("b", lo));
    assert Run(es) == Next(Run(second), Ask("c", hi));
    assert Run(es).live[0].stamp == Run(es).live[2].stamp == hi;
  }

  // So the cooldowns hold in every run if and only if the clock stays within that span.
  lemma CooldownsHoldIffSpanIsShort(lo: Time, hi: Time)
    requires NEVER <= lo <= hi
    ensures (forall es :: ReadsWithin(es, lo, hi) ==> KeepDistance(Run(es).live)) <==> ShortSpan(lo, hi)
    ensures ShortSpan(lo, hi) <==> hi - lo < 9_223_372_036_854_775_808 - 3_000_000_000
  {
    if ShortSpan(lo, hi) {
      forall es | ReadsWithin(es, lo, hi)
        ensures KeepDistance(Run(es).live)
      {
        RequestsKeepTheirDistance(es, lo, hi);
      }
    } else {
      var es := LongSpanRepeatsAStamp(lo, hi);
      assert ReadsWithin(es, lo, hi) && !KeepDistance(Run(es).live);
    }
  }

  // The latest stamp never sinks below a request still in flight or answered.
  lemma StampsStayAboveLive(es: seq<Event>, lo: Time, hi: Time)
    requires ReadsWithin(es, lo, hi) && NEVER <= lo <= hi && ShortSpan(lo, hi)
    ensures forall i :: 0 <= i < |Run(es).live| ==>
              Run(es).live[i].stamp <= Run(es).slots.latest &&
              Run(es).live[i].chat in Run(es).slots.byChat &&
              Run(es).live[i].stamp <= Run(es).slots.byChat[Run(es).live[i].chat]
  {
    RunKeepsGuarded(es, lo, hi);
    assert forall i :: 0 <= i < |Run(es).live| ==> Covered(Run(es).slots, Run(es).live[i], lo, hi);
  }

  /* ----- the handler ----- */

  class Handler {
    var lastHistory: map<string, Time>
    var lastHistoryAny: Time

    function State(): Slots
      reads this
    {
      Slots(lastHistory, lastHistoryAny)
    }

    constructor ()
      ensures State() == CLOSED.slots
    {
      lastHistory, lastHistoryAny := map[], NEVER;
    }

    // The locked section before the send; the request is what the handler keeps on its stack.
    method ReserveSlot(chat: string, now: Time) returns (reserved: bool, r: Request)
      modifies this
      ensures reserved <==> !TooSoon(old(State()), chat, now)
      ensures CooledDown(old(State()), chat, now) ==> reserved
      ensures reserved ==> (State(), r) == Reserve(old(State()), chat, now)
      ensures !reserved ==> State() == old(State())
    {
      PassedCooldownsAreGranted(State(), chat, now);
      r := Request(chat, now, NEVER, NEVER);
      if 0 < Minus(GLOBAL, Sub(now, lastHistoryAny)) {
        return false, r;
      }
      if chat in lastHistory && 0 < Minus(PER_CHAT, Sub(now, lastHistory[chat])) {
        return false, r;
      }
      var prevChat := if chat in lastHistory then lastHistory[chat] else NEVER;
      r := Request(chat, now, prevChat, lastHistoryAny);
      lastHistory := lastHistory[chat := now];
      lastHistoryAny := now;
      reserved := true;
    }

    // The locked section after a failed send.
    method RollBackSlot(r: Request)
      modifies this
      ensures State() == RollBack(old(State()), r)
    {
      if (if r.chat in lastHistory then lastHistory[r.chat] else NEVER) == r.stamp {
        if r.prevChat == NEVER {
          lastHistory := lastHistory - {r.chat};
        } else {
          lastHistory := lastHistory[r.chat := r.prevChat];
        }
      }
      if lastHistoryAny == r.stamp {
        lastHistoryAny := r.prevAny;
      }
    }

    // One request from start to end, with nothing else in between: a refused or failed one changes nothing.
    method HandleHistory(chat: string, now: Time, sendOk: bool) returns (requested: bool)
      requires NEVER !in lastHistory.Values
      modifies this
      ensures requested <==> !TooSoon(old(State()), chat, now) && sendOk
      ensures CooledDown(old(State()), chat, now) && sendOk ==> requested
      ensures State() == if requested then Reserve(old(State()), chat, now).0 else old(State())
    {
      var reserved, r := ReserveSlot(chat, now);
      if !reserved {
        return false;
      }
      if !sendOk {
        RollBackUndoesReserve(old(State()), chat, now);
        RollBackSlot(r);
        return false;
      }
      requested := true;
    }
  }
}
