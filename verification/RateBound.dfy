/** Claims that need the clock readings to be non-decreasing in the order of the critical sections:
the rate bound over any window, and drafts expiring in creation order. */
module RateBound {
  import opened TokenBucket
  import opened Gate
  import opened GateRun

  predicate Reads(e: Event) {
    !e.Wire? && !e.DiscardEvent?
  }

  function ReadingOf(e: Event): Time
    requires Reads(e)
  {
    match e
    case SubmitEvent(c) => c.now
    case ApproveEvent(_, now) => now
    case DraftsEvent(now) => now
    case ScheduledEvent(_, _, _, now) => now
  }

  ghost predicate NonDecreasingClock(es: seq<Event>) {
    forall i, j :: 0 <= i < j < |es| && Reads(es[i]) && Reads(es[j]) ==> ReadingOf(es[i]) <= ReadingOf(es[j])
  }

  ghost predicate AllReadBy(es: seq<Event>, now: Time) {
    forall i :: 0 <= i < |es| && Reads(es[i]) ==> ReadingOf(es[i]) <= now
  }

  // How many claims were granted in the window from lo to hi.
  function InWindow(claims: seq<Claim>, lo: Time, hi: Time): nat {
    if claims == [] then 0
    else InWindow(claims[..|claims| - 1], lo, hi) + if lo <= claims[|claims| - 1].stamp <= hi then 1 else 0
  }

  lemma {:induction false} InWindowCounts(claims: seq<Claim>, lo: Time, hi: Time)
    ensures InWindow(claims, lo, hi) == |set i | 0 <= i < |claims| && lo <= claims[i].stamp <= hi|
  {
    if claims != [] {
      var n := |claims| - 1;
      var all := set i | 0 <= i < |claims| && lo <= claims[i].stamp <= hi;
      var front := set i | 0 <= i < n && lo <= claims[..n][i].stamp <= hi;
      InWindowCounts(claims[..n], lo, hi);
      assert all == if lo <= claims[n].stamp <= hi then front + {n} else front;
    }
  }

  lemma {:induction false} NoneInWindow(claims: seq<Claim>, lo: Time, hi: Time)
    requires forall i :: 0 <= i < |claims| ==> claims[i].stamp < lo
    ensures InWindow(claims, lo, hi) == 0
  {
    if claims != [] {
      NoneInWindow(claims[..|claims| - 1], lo, hi);
    }
  }

  // The credit account: what the window has spent, plus what is left, is covered
  // by a full bucket and the time since the window opened.
  ghost predicate Account(b: Bucket, claims: seq<Claim>, lo: Time, hi: Time) {
    && b.Valid()
    && (forall i :: 0 <= i < |claims| ==> claims[i].stamp <= b.last)
    && (claims != [] && lo <= b.last <= hi ==>
          b.period * InWindow(claims, lo, hi) + b.level <= b.Capacity() + (b.last - lo))
    && (hi < b.last ==> b.period * InWindow(claims, lo, hi) <= b.Capacity() + (hi - lo))
  }

  lemma GrantKeepsAccount(b: Bucket, claims: seq<Claim>, c: Claim, lo: Time, hi: Time)
    requires lo <= hi && (claims == [] || Account(b, claims, lo, hi)) && b.Valid()
    requires b.Allows(c.stamp) && (claims == [] || b.last <= c.stamp)
    ensures Account(b.Spend(c.stamp), claims + [c], lo, hi)
  {
    var b', all := b.Spend(c.stamp), claims + [c];
    var before, after := InWindow(claims, lo, hi), InWindow(all, lo, hi);
    assert all[..|all| - 1] == claims;
    assert b.period * (before + 1) == b.period * before + b.period;
    if claims == [] || b.last < lo {
      NoneInWindow(claims, lo, hi);
      assert before == 0;
      assert b.period * 0 == 0 && b.period * 1 == b.period;
    }
  }

  // The latest claim was granted at the bucket's last reading, no later than the clock.
  ghost predicate Accounted(s: Sys, es: seq<Event>, lo: Time, hi: Time) {
    && s.gate.bucket.Valid()
    && (s.claims != [] ==> Account(s.gate.bucket, s.claims, lo, hi))
    && (s.claims != [] ==> exists i :: 0 <= i < |es| && Reads(es[i]) && ReadingOf(es[i]) == s.gate.bucket.last)
  }

  lemma SectionBucket(g: GateState, e: Event)
    requires !e.Wire?
    ensures var (g', out) := Section(g, e);
            if out.Claimed? then Reads(e) && g.bucket.Allows(ReadingOf(e)) &&
                                 out.claim.stamp == ReadingOf(e) && g'.bucket == g.bucket.Spend(ReadingOf(e))
            else g'.bucket == g.bucket
  {
    match e
    case SubmitEvent(c) =>
      if Mints(c) { PruneKeepsBucket(g, c.now); }
    case DraftsEvent(now) =>
      PruneKeepsBucket(g, now);
    case _ =>
  }

  lemma {:induction false} PruneKeepsBucket(g: GateState, now: Time)
    ensures Prune(g, now).bucket == g.bucket
    decreases |g.order|
  {
    if g.order != [] && !Unexpired(g.drafts, g.order[0], now) {
      PruneKeepsBucket(EvictOldest(g), now);
    }
  }

  lemma {:induction false} RunKeepsAccounted(burst: int, perSeconds: int, es: seq<Event>, lo: Time, hi: Time)
    requires NonDecreasingClock(es) && lo <= hi
    ensures Accounted(Run(Start(burst, perSeconds), es), es, lo, hi)
    ensures Run(Start(burst, perSeconds), es).gate.bucket.period == NewBucket(burst, perSeconds).period
    ensures Run(Start(burst, perSeconds), es).gate.bucket.burst == NewBucket(burst, perSeconds).burst
  {
    if es != [] {
      var before, e := es[..|es| - 1], es[|es| - 1];
      assert es == before + [e];
      RunKeepsAccounted(burst, perSeconds, before, lo, hi);
      var s := Run(Start(burst, perSeconds), before);
      assert forall i :: 0 <= i < |before| ==> es[i] == before[i];
      if !e.Wire? {
        SectionBucket(s.gate, e);
        var (g', out) := Section(s.gate, e);
        if out.Claimed? {
          GrantKeepsAccount(s.gate.bucket, s.claims, out.claim, lo, hi);
          assert es[|es| - 1] == e && g'.bucket.last == ReadingOf(e);
        } else {
          assert s.claims + [] == s.claims;
        }
      }
    }
  }

  // Every path together: a window of hi - lo holds at most burst + (hi - lo) / period grants.
  lemma RateBound(burst: int, perSeconds: int, es: seq<Event>, lo: Time, hi: Time)
    requires NonDecreasingClock(es) && lo <= hi
    ensures var b := NewBucket(burst, perSeconds);
            InWindow(Run(Start(burst, perSeconds), es).claims, lo, hi) <= b.burst + (hi - lo) / b.period
  {
    RunKeepsAccounted(burst, perSeconds, es, lo, hi);
    var s := Run(Start(burst, perSeconds), es);
    var b := s.gate.bucket;
    var k := InWindow(s.claims, lo, hi);
    if s.claims != [] {
      AccountBounds(b, s.claims, lo, hi);
      QuotientBound(b.period, k, b.burst, hi - lo);
    }
  }

  lemma AccountBounds(b: Bucket, claims: seq<Claim>, lo: Time, hi: Time)
    requires Account(b, claims, lo, hi) && claims != [] && lo <= hi
    ensures b.period * InWindow(claims, lo, hi) <= b.period * b.burst + (hi - lo)
  {
    if b.last < lo {
      NoneInWindow(claims, lo, hi);
      assert b.period * 0 == 0 <= b.Capacity();
    }
  }

  lemma QuotientBound(period: int, k: int, burst: int, span: int)
    requires 0 < period && 0 <= span && period * k <= period * burst + span
    ensures k <= burst + span / period
  {
    var q := span / period;
    assert span < period * q + period;
    assert period * (k - burst) < period * (q + 1);
  }

  /* ----- expiry order ----- */

  // Live drafts expire in creation order, none later than a full time to live past `now`.
  ghost predicate ExpirySorted(drafts: map<Token, Draft>, order: seq<Token>, now: Time) {
    && (forall i, j :: 0 <= i < j < |order| && order[i] in drafts && order[j] in drafts ==>
                       drafts[order[i]].expires <= drafts[order[j]].expires)
    && (forall t :: t in drafts ==> drafts[t].expires <= now + DRAFT_TTL)
  }

  lemma DropFrontKeepsSorted(g: GateState, n: nat, now: Time)
    requires n <= |g.order| && ExpirySorted(g.drafts, g.order, now)
    ensures ExpirySorted(DropFront(g, n).drafts, g.order[n..], now)
  {
  }

  lemma AppendKeepsSorted(drafts: map<Token, Draft>, order: seq<Token>, t: Token, d: Draft, now: Time)
    requires ExpirySorted(drafts, order, now) && t !in order && d.expires == now + DRAFT_TTL
    ensures ExpirySorted(drafts[t := d], order + [t], now)
  {
  }

  lemma StoreKeepsSorted(g: GateState, now: Time, token: Token, d: Delivery, preview: string)
    requires WellFormed(g) && ExpirySorted(g.drafts, g.order, now) && token !in g.order
    ensures ExpirySorted(StoreDraft(g, now, token, d, preview).drafts, StoreDraft(g, now, token, d, preview).order, now)
  {
    var n, room := RoomFront(g, now), MakeRoom(g, now);
    MakeRoomDropsRoomFront(g, now);
    DropFrontKeepsSorted(g, n, now);
    assert room.order == g.order[n..];
    AppendKeepsSorted(room.drafts, room.order, token, Draft(d, preview, now + DRAFT_TTL), now);
  }

  lemma SectionKeepsSorted(g: GateState, e: Event, now: Time)
    requires WellFormed(g) && !e.Wire? && ExpirySorted(g.drafts, g.order, now)
    requires Reads(e) ==> now == ReadingOf(e)
    requires MintsDraft(e) ==> e.call.mint !in g.order
    ensures ExpirySorted(Section(g, e).0.drafts, Section(g, e).0.order, now)
  {
    match e
    case SubmitEvent(c) =>
      if Mints(c) {
        StoreKeepsSorted(g, now, c.mint, c.delivery, c.preview);
      }
    case DraftsEvent(_) =>
      PruneDropsStaleFront(g, now);
      DropFrontKeepsSorted(g, StaleFront(g.drafts, g.order, now), now);
    case _ =>
  }

  lemma {:induction false} RunKeepsSorted(burst: int, perSeconds: int, es: seq<Event>, now: Time)
    requires NonDecreasingClock(es) && FreshTokens(es) && AllReadBy(es, now)
    ensures var g := Run(Start(burst, perSeconds), es).gate; ExpirySorted(g.drafts, g.order, now)
  {
    if es != [] {
      var before, e := es[..|es| - 1], es[|es| - 1];
      assert es == before + [e];
      assert forall i :: 0 <= i < |before| ==> es[i] == before[i];
      var reading := if Reads(e) then ReadingOf(e) else now;
      assert reading <= now by { assert es[|es| - 1] == e; }
      FreshTokensPrefix(before, e);
      RunKeepsTraced(burst, perSeconds, before);
      RunKeepsSorted(burst, perSeconds, before, reading);
      if !e.Wire? {
        SectionKeepsSorted(Run(Start(burst, perSeconds), before).gate, e, reading);
      }
    }
  }

  // With the clock non-decreasing, the dashboard sees exactly the pending drafts, in creation order.
  lemma DraftsListsThePendingOfARun(burst: int, perSeconds: int, es: seq<Event>, now: Time)
    requires NonDecreasingClock(es) && FreshTokens(es) && AllReadBy(es, now)
    ensures var g := Run(Start(burst, perSeconds), es).gate;
            Listing(Prune(g, now).drafts, Prune(g, now).order) == Pending(g.drafts, g.order, now)
  {
    RunKeepsSorted(burst, perSeconds, es, now);
    RunKeepsTraced(burst, perSeconds, es);
    DraftsListsExactlyThePending(Run(Start(burst, perSeconds), es).gate, now);
  }

  /* ----- two drafts racing for the lock ----- */

  // Without the hypothesis an expired draft can be listed: the later reading enters the lock first.
  lemma RacingDraftsShowAnExpiredOne(a: Delivery)
    ensures var first := Call(a, "", true, false, "late", "", 2);
            var second := Call(a, "", true, false, "early", "", 1);
            var g := Run(Start(1, 5), [SubmitEvent(first), SubmitEvent(second)]).gate;
            a.kind == "text" ==> ExpiredBehindLive(g, 1 + DRAFT_TTL)
  {
    if a.kind == "text" {
      var first := Call(a, "", true, false, "late", "", 2);
      var second := Call(a, "", true, false, "early", "", 1);
      var es := [SubmitEvent(first), SubmitEvent(second)];
      assert es[..1] == [SubmitEvent(first)] && es[..1][..0] == [];
      var g0 := Start(1, 5).gate;
      var g1 := Submit(g0, first).0;
      assert g1 == GateState(map["late" := Draft(a, "", 2 + DRAFT_TTL)], ["late"], g0.bucket);
      var g2 := Submit(g1, second).0;
      assert g2.order == ["late", "early"];
      assert Run(Start(1, 5), es[..1]).gate == g1;
      assert Run(Start(1, 5), es).gate == g2;
      assert g2.order[0] == "late" && g2.order[1] == "early";
    }
  }
}
