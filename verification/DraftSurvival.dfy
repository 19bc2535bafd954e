/** How long a draft stays committable: until used, discarded, expired, or pushed out by the 32nd newer one. */
module DraftSurvival {
  import opened TokenBucket
  import opened Gate
  import opened GateRun

  function MintCount(es: seq<Event>): nat {
    if es == [] then 0
    else MintCount(es[..|es| - 1]) + if MintsDraft(es[|es| - 1]) then 1 else 0
  }

  lemma {:induction false} MintCountCounts(es: seq<Event>)
    ensures MintCount(es) == |set k | 0 <= k < |es| && MintsDraft(es[k])|
  {
    if es != [] {
      var n := |es| - 1;
      var all := set k | 0 <= k < |es| && MintsDraft(es[k]);
      var front := set k | 0 <= k < n && MintsDraft(es[..n][k]);
      MintCountCounts(es[..n]);
      assert all == if MintsDraft(es[n]) then front + {n} else front;
    }
  }

  // Sections that prune first, with the reading they prune by.
  predicate PrunesAt(e: Event, expires: Time) {
    (MintsDraft(e) && expires <= e.call.now) || (e.DraftsEvent? && expires <= e.now)
  }

  // Nothing in the run discarded t, spent it, or pruned with a clock at or past its expiry.
  ghost predicate LeftAlone(s: Sys, es: seq<Event>, t: Token, expires: Time) {
    && (forall k :: 0 <= k < |es| ==> es[k] != DiscardEvent(t) && !PrunesAt(es[k], expires))
    && (forall i :: 0 <= i < |Run(s, es).claims| ==> Run(s, es).claims[i].via != ByToken(t))
  }

  // Mints of the run name tokens the order has not held.
  ghost predicate FreshFor(s: Sys, es: seq<Event>) {
    && (forall k :: 0 <= k < |es| && MintsDraft(es[k]) ==> es[k].call.mint !in s.gate.order)
    && (forall i, k :: 0 <= i < k < |es| && MintsDraft(es[i]) && MintsDraft(es[k]) ==>
                       es[i].call.mint != es[k].call.mint)
  }

  // Counting from the newest, t has exactly c tokens after it; once it has left the order it stays out.
  ghost predicate AtDepth(order: seq<Token>, t: Token, c: nat) {
    if c < |order| then order[|order| - 1 - c] == t else t !in order
  }

  lemma DropFrontKeepsDepth(g: GateState, n: nat, t: Token, c: nat)
    requires Distinct(g.order) && n <= |g.order| && AtDepth(g.order, t, c)
    ensures AtDepth(g.order[n..], t, c)
  {
  }

  lemma AppendDeepens(order: seq<Token>, x: Token, t: Token, c: nat)
    requires AtDepth(order, t, c) && x != t
    ensures AtDepth(order + [x], t, c + 1)
  {
  }

  lemma SectionDepth(g: GateState, e: Event, t: Token, c: nat)
    requires WellFormed(g) && !e.Wire? && AtDepth(g.order, t, c)
    requires MintsDraft(e) ==> e.call.mint != t
    ensures AtDepth(Section(g, e).0.order, t, if MintsDraft(e) then c + 1 else c)
  {
    match e
    case SubmitEvent(call) =>
      if Mints(call) {
        MakeRoomDropsRoomFront(g, call.now);
        DropFrontKeepsDepth(g, RoomFront(g, call.now), t, c);
        AppendDeepens(MakeRoom(g, call.now).order, call.mint, t, c);
      }
    case DraftsEvent(now) =>
      PruneDropsStaleFront(g, now);
      DropFrontKeepsDepth(g, StaleFront(g.drafts, g.order, now), t, c);
    case _ =>
  }

  // One section leaves a live draft with at most 31 newer ones in place.
  lemma SectionKeepsDraft(g: GateState, e: Event, t: Token, c: nat)
    requires WellFormed(g) && !e.Wire? && c < |g.order| && g.order[|g.order| - 1 - c] == t && t in g.drafts
    requires e != DiscardEvent(t) && !PrunesAt(e, g.drafts[t].expires)
    requires MintsDraft(e) ==> e.call.mint != t && c + 1 < DRAFT_CAP
    requires Section(g, e).1.Claimed? ==> Section(g, e).1.claim.via != ByToken(t)
    ensures t in Section(g, e).0.drafts && Section(g, e).0.drafts[t] == g.drafts[t]
  {
    var p := |g.order| - 1 - c;
    match e
    case SubmitEvent(call) =>
      if Mints(call) {
        MakeRoomDropsRoomFront(g, call.now);
        assert Unexpired(g.drafts, g.order[p], call.now);
        DropFrontKeeps(g, RoomFront(g, call.now), p);
      }
    case DraftsEvent(now) =>
      PruneDropsStaleFront(g, now);
      assert Unexpired(g.drafts, g.order[p], now);
      DropFrontKeeps(g, StaleFront(g.drafts, g.order, now), p);
    case _ =>
  }

  // What a run from s keeps about a draft that started as the newest.
  ghost predicate Surviving(s0: Sys, s: Sys, es: seq<Event>, t: Token) {
    && WellFormedSys(s)
    && AtDepth(s.gate.order, t, MintCount(es))
    && OrderIsOldOrMinted(s0, s, es)
    && (MintCount(es) < DRAFT_CAP ==>
          t in s.gate.drafts && t in s0.gate.drafts && s.gate.drafts[t] == s0.gate.drafts[t])
  }

  ghost predicate OrderIsOldOrMinted(s0: Sys, s: Sys, es: seq<Event>) {
    forall x :: x in s.gate.order ==> x in s0.gate.order || MintedBefore(es, x)
  }

  lemma StepKeepsOrderKnown(s0: Sys, s: Sys, es: seq<Event>, e: Event)
    requires WellFormedSys(s) && OrderIsOldOrMinted(s0, s, es)
    ensures OrderIsOldOrMinted(s0, Next(s, e), es + [e])
  {
    HistoryGrows(es, e);
    if !e.Wire? {
      SectionOrder(s.gate, e);
    }
  }

  lemma FreshForPrefix(s: Sys, es: seq<Event>, e: Event)
    requires FreshFor(s, es + [e])
    ensures FreshFor(s, es)
    ensures MintsDraft(e) ==> e.call.mint !in s.gate.order && !MintedBefore(es, e.call.mint)
  {
    var es' := es + [e];
    assert es'[|es|] == e;
    assert forall k :: 0 <= k < |es| ==> es'[k] == es[k];
  }

  lemma LeftAlonePrefix(s: Sys, es: seq<Event>, e: Event, t: Token, expires: Time)
    requires LeftAlone(s, es + [e], t, expires)
    ensures LeftAlone(s, es, t, expires) && e != DiscardEvent(t) && !PrunesAt(e, expires)
    ensures !e.Wire? && Section(Run(s, es).gate, e).1.Claimed? ==> Section(Run(s, es).gate, e).1.claim.via != ByToken(t)
  {
    var es' := es + [e];
    assert es'[|es|] == e && es'[..|es|] == es;
    assert forall k :: 0 <= k < |es| ==> es'[k] == es[k];
    var before, after := Run(s, es), Run(s, es');
    assert after == Next(before, e);
    assert forall i :: 0 <= i < |before.claims| ==> after.claims[i] == before.claims[i];
    if !e.Wire? && Section(before.gate, e).1.Claimed? {
      assert after.claims[|before.claims|] == Section(before.gate, e).1.claim;
    }
  }

  lemma {:induction false} RunKeepsSurviving(s: Sys, es: seq<Event>, t: Token)
    requires WellFormedSys(s) && s.gate.order != [] && s.gate.order[|s.gate.order| - 1] == t && t in s.gate.drafts
    requires FreshFor(s, es) && LeftAlone(s, es, t, s.gate.drafts[t].expires)
    ensures Surviving(s, Run(s, es), es, t)
  {
    if es != [] {
      var before, e := es[..|es| - 1], es[|es| - 1];
      assert es == before + [e];
      FreshForPrefix(s, before, e);
      LeftAlonePrefix(s, before, e, t, s.gate.drafts[t].expires);
      RunKeepsSurviving(s, before, t);
      StepKeepsSurviving(s, Run(s, before), before, e, t);
    }
  }

  lemma MintCountStep(es: seq<Event>, e: Event)
    ensures MintCount(es + [e]) == MintCount(es) + if MintsDraft(e) then 1 else 0
  {
  }

  lemma MintIsNew(s: Sys, mid: Sys, es: seq<Event>, e: Event, t: Token)
    requires OrderIsOldOrMinted(s, mid, es) && t in s.gate.order
    requires MintsDraft(e) ==> e.call.mint !in s.gate.order && !MintedBefore(es, e.call.mint)
    ensures MintsDraft(e) ==> e.call.mint !in mid.gate.order && e.call.mint != t
  {
  }

  lemma StepKeepsSurviving(s: Sys, mid: Sys, es: seq<Event>, e: Event, t: Token)
    requires Surviving(s, mid, es, t) && t in s.gate.drafts && t in s.gate.order
    requires MintsDraft(e) ==> e.call.mint !in s.gate.order && !MintedBefore(es, e.call.mint)
    requires e != DiscardEvent(t) && !PrunesAt(e, s.gate.drafts[t].expires)
    requires !e.Wire? && Section(mid.gate, e).1.Claimed? ==> Section(mid.gate, e).1.claim.via != ByToken(t)
    ensures Surviving(s, Next(mid, e), es + [e], t)
  {
    StepKeepsOrderKnown(s, mid, es, e);
    MintCountStep(es, e);
    MintIsNew(s, mid, es, e, t);
    StepKeepsWellFormed(mid, e);
    if !e.Wire? {
      SectionDepth(mid.gate, e, t, MintCount(es));
      if MintCount(es + [e]) < DRAFT_CAP {
        SectionKeepsDraft(mid.gate, e, t, MintCount(es));
      }
    }
  }

  // Left alone, a draft is live after the run, unchanged, if and only if fewer than 32 newer ones were made.
  lemma DraftSurvivesUntilThe32ndNewer(s: Sys, es: seq<Event>, t: Token)
    requires WellFormedSys(s) && s.gate.order != [] && s.gate.order[|s.gate.order| - 1] == t && t in s.gate.drafts
    requires FreshFor(s, es) && LeftAlone(s, es, t, s.gate.drafts[t].expires)
    ensures t in Run(s, es).gate.drafts <==> MintCount(es) < 32
    ensures t in Run(s, es).gate.drafts ==> Run(s, es).gate.drafts[t] == s.gate.drafts[t]
  {
    RunKeepsSurviving(s, es, t);
  }

  // So re-submitting the same content before it expires commits it, unless the limiter has no token.
  lemma SurvivingDraftCommits(s: Sys, es: seq<Event>, t: Token, now: Time, preview: string)
    requires WellFormedSys(s) && s.gate.order != [] && s.gate.order[|s.gate.order| - 1] == t && t in s.gate.drafts
    requires FreshFor(s, es) && LeftAlone(s, es, t, s.gate.drafts[t].expires)
    requires MintCount(es) < DRAFT_CAP && now < s.gate.drafts[t].expires
    ensures var g := Run(s, es).gate;
            var d := s.gate.drafts[t].delivery;
            Commit(g, now, t, d, preview).1 ==
            if g.bucket.Allows(now) then Claimed(Claim(d, ByToken(t), now), preview) else RateLimited
  {
    DraftSurvivesUntilThe32ndNewer(s, es, t);
  }

  // Every draft starts out as the newest, with the full time to live.
  lemma MintIsNewest(g: GateState, c: Call)
    requires Mints(c)
    ensures var g' := Submit(g, c).0;
            g'.order != [] && g'.order[|g'.order| - 1] == c.mint && c.mint in g'.drafts &&
            g'.drafts[c.mint] == Draft(c.delivery, c.preview, c.now + 5 * 60 * 1_000_000_000)
  {
  }

  /* ----- evicted with hardly any draft live ----- */

  // Each call is drafted and its draft discarded before the next.
  function Churn(calls: seq<Call>): seq<Event> {
    seq(2 * |calls|, i requires 0 <= i < 2 * |calls| =>
      if i % 2 == 0 then SubmitEvent(calls[i / 2]) else DiscardEvent(calls[i / 2].mint))
  }

  // Calls that draft under new tokens while the draft t of s has time left.
  ghost predicate Churns(s: Sys, t: Token, calls: seq<Call>) {
    && t in s.gate.drafts
    && (forall k :: 0 <= k < |calls| ==>
          Mints(calls[k]) && calls[k].mint !in s.gate.order && calls[k].now < s.gate.drafts[t].expires)
    && (forall i, k :: 0 <= i < k < |calls| ==> calls[i].mint != calls[k].mint)
  }

  // Nothing is claimed, and no draft of the churn is live at its end.
  ghost predicate Churned(s0: Sys, s: Sys, calls: seq<Call>) {
    && WellFormedSys(s) && s.claims == s0.claims
    && (forall x :: x in s.gate.drafts ==> x in s0.gate.drafts)
    && (forall x :: x in s.gate.order ==> x in s0.gate.order || exists k :: 0 <= k < |calls| && calls[k].mint == x)
  }

  lemma ChurnStep(s0: Sys, s: Sys, calls: seq<Call>, c: Call)
    requires Churned(s0, s, calls) && Mints(c) && c.mint !in s0.gate.order
    requires forall k :: 0 <= k < |calls| ==> calls[k].mint != c.mint
    ensures Churned(s0, Next(Next(s, SubmitEvent(c)), DiscardEvent(c.mint)), calls + [c])
  {
    StepKeepsWellFormed(s, SubmitEvent(c));
    StepKeepsWellFormed(Next(s, SubmitEvent(c)), DiscardEvent(c.mint));
    SectionOrder(s.gate, SubmitEvent(c));
    var all := calls + [c];
    assert all[|calls|] == c && forall k :: 0 <= k < |calls| ==> all[k] == calls[k];
  }

  lemma ChurnGrows(calls: seq<Call>)
    requires calls != []
    ensures var n, c := |calls| - 1, calls[|calls| - 1];
            Churn(calls) == Churn(calls[..n]) + [SubmitEvent(c)] + [DiscardEvent(c.mint)]
  {
  }

  lemma RunTwo(s: Sys, es: seq<Event>, a: Event, b: Event)
    ensures Run(s, es + [a] + [b]) == Next(Next(Run(s, es), a), b)
    ensures MintCount(es + [a] + [b]) ==
            MintCount(es) + (if MintsDraft(a) then 1 else 0) + if MintsDraft(b) then 1 else 0
  {
    MintCountStep(es, a);
    MintCountStep(es + [a], b);
    assert (es + [a] + [b])[..|es| + 1] == es + [a] && (es + [a])[..|es|] == es;
  }

  lemma {:induction false} RunChurns(s: Sys, t: Token, calls: seq<Call>)
    requires WellFormedSys(s) && Churns(s, t, calls)
    ensures Churned(s, Run(s, Churn(calls)), calls) && MintCount(Churn(calls)) == |calls|
  {
    if calls != [] {
      var before, c := calls[..|calls| - 1], calls[|calls| - 1];
      assert calls == before + [c];
      RunChurns(s, t, before);
      ChurnGrows(calls);
      RunTwo(s, Churn(before), SubmitEvent(c), DiscardEvent(c.mint));
      ChurnStep(s, Run(s, Churn(before)), before, c);
    }
  }

  lemma ChurnLeavesAlone(s: Sys, t: Token, calls: seq<Call>)
    requires WellFormedSys(s) && Churns(s, t, calls) && t in s.gate.order
    requires forall i :: 0 <= i < |s.claims| ==> s.claims[i].via != ByToken(t)
    ensures FreshFor(s, Churn(calls)) && LeftAlone(s, Churn(calls), t, s.gate.drafts[t].expires)
  {
    RunChurns(s, t, calls);
    ChurnIsFresh(s, t, calls);
    var es := Churn(calls);
    forall k | 0 <= k < |es|
      ensures es[k] != DiscardEvent(t) && !PrunesAt(es[k], s.gate.drafts[t].expires)
    {
      assert calls[k / 2].mint != t;
    }
  }

  lemma ChurnIsFresh(s: Sys, t: Token, calls: seq<Call>)
    requires Churns(s, t, calls)
    ensures FreshFor(s, Churn(calls))
  {
    var es := Churn(calls);
    forall i, k | 0 <= i < k < |es| && MintsDraft(es[i]) && MintsDraft(es[k])
      ensures es[i].call.mint != es[k].call.mint
    {
      assert i / 2 < k / 2;
    }
  }

  // The eviction counts discarded tokens too: after 32 drafts each discarded at once, a draft nobody touched is gone,
  // although it was the only live one all along and still had time left.
  lemma ChurnEvictsTheOnlyLiveDraft(s: Sys, t: Token, calls: seq<Call>)
    requires WellFormedSys(s) && s.gate.drafts.Keys == {t} && s.gate.order == [t] && s.claims == []
    requires Churns(s, t, calls) && |calls| == DRAFT_CAP
    ensures Run(s, Churn(calls[..DRAFT_CAP - 1])).gate.drafts.Keys == {t}
    ensures t !in Run(s, Churn(calls)).gate.drafts
  {
    var before := calls[..DRAFT_CAP - 1];
    ChurnLeavesAlone(s, t, before);
    ChurnLeavesAlone(s, t, calls);
    RunChurns(s, t, before);
    RunChurns(s, t, calls);
    DraftSurvivesUntilThe32ndNewer(s, Churn(before), t);
    DraftSurvivesUntilThe32ndNewer(s, Churn(calls), t);
  }

  // Such a run starts with any first draft on a new gate.
  lemma FirstDraftIsAlone(burst: int, perSeconds: int, c: Call)
    requires Mints(c)
    ensures var s := Next(Start(burst, perSeconds), SubmitEvent(c));
            WellFormedSys(s) && s.gate.drafts.Keys == {c.mint} && s.gate.order == [c.mint] && s.claims == []
  {
    StepKeepsWellFormed(Start(burst, perSeconds), SubmitEvent(c));
  }
}
