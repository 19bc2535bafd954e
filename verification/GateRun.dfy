/** Whole runs of one gate under any interleaving of its critical sections.

Every event is one critical section, carrying whatever clock reading its
caller took beforehand; `Wire` is the later moment at which an in-flight claim
reaches the deliverer. A run is any sequence of events. */
module GateRun {
  import opened TokenBucket
  import opened Gate

  datatype Event =
    | SubmitEvent(call: Call)
    | ApproveEvent(token: Token, now: Time)
    | DiscardEvent(token: Token)
    | DraftsEvent(now: Time)
    | ScheduledEvent(delivery: Delivery, valid: bool, preview: string, now: Time)
    | Wire(index: nat)

  // Claims in the order the limiter granted them, and which of them reached the deliverer, in call order.
  datatype Sys = Sys(gate: GateState, claims: seq<Claim>, wire: seq<nat>)

  function Start(burst: int, perSeconds: int): Sys {
    Sys(GateState(map[], [], NewBucket(burst, perSeconds)), [], [])
  }

  function Section(g: GateState, e: Event): (GateState, Outcome)
    requires !e.Wire?
  {
    match e
    case SubmitEvent(c) => Submit(g, c)
    case ApproveEvent(token, now) => Approve(g, now, token)
    case DiscardEvent(token) => (Discard(g, token), Refused)
    case DraftsEvent(now) => (Prune(g, now), Refused)
    case ScheduledEvent(d, valid, preview, now) => DeliverScheduled(g, now, d, valid, preview)
  }

  // Each claim's thread calls Deliver once, whenever it gets to it.
  function Next(s: Sys, e: Event): Sys {
    if e.Wire? then
      if e.index < |s.claims| && e.index !in s.wire then s.(wire := s.wire + [e.index]) else s
    else
      var (g, out) := Section(s.gate, e);
      s.(gate := g, claims := s.claims + if out.Claimed? then [out.claim] else [])
  }

  function Run(s: Sys, es: seq<Event>): Sys {
    if es == [] then s else Next(Run(s, es[..|es| - 1]), es[|es| - 1])
  }

  predicate MintsDraft(e: Event) {
    e.SubmitEvent? && Mints(e.call)
  }

  // Some event of the run drafted d under token t.
  ghost predicate DraftedAs(es: seq<Event>, t: Token, d: Delivery) {
    exists k :: 0 <= k < |es| && MintsDraft(es[k]) && es[k].call.mint == t && es[k].call.delivery == d
  }

  ghost predicate MintedBefore(es: seq<Event>, t: Token) {
    exists k :: 0 <= k < |es| && MintsDraft(es[k]) && es[k].call.mint == t
  }

  // Tokens come from a hash over a random nonce: none repeats, none is empty.
  ghost predicate FreshTokens(es: seq<Event>) {
    && (forall k :: 0 <= k < |es| && MintsDraft(es[k]) ==> es[k].call.mint != "")
    && (forall i, k :: 0 <= i < k < |es| && MintsDraft(es[i]) && MintsDraft(es[k]) ==>
                       es[i].call.mint != es[k].call.mint)
  }

  /* ----- what every step keeps ----- */

  ghost predicate WellFormedSys(s: Sys) {
    && WellFormed(s.gate)
    && Distinct(s.wire)
    && (forall i :: 0 <= i < |s.wire| ==> s.wire[i] < |s.claims|)
  }

  lemma StoreKeepsWellFormed(g: GateState, now: Time, token: Token, d: Delivery, preview: string)
    requires WellFormed(g) && token !in g.order
    ensures WellFormed(StoreDraft(g, now, token, d, preview))
  {
    var room, g' := MakeRoom(g, now), StoreDraft(g, now, token, d, preview);
    MakeRoomDropsRoomFront(g, now);
    assert room.order == g.order[RoomFront(g, now)..];
    assert g'.order[|room.order|] == token;
    forall t | t in g'.drafts
      ensures t in g'.order
    {
      assert t != token ==> t in room.drafts;
    }
  }

  lemma SectionKeepsWellFormed(g: GateState, e: Event)
    requires WellFormed(g) && !e.Wire?
    requires MintsDraft(e) ==> e.call.mint !in g.order
    ensures WellFormed(Section(g, e).0)
  {
    match e
    case SubmitEvent(c) =>
      if Mints(c) {
        StoreKeepsWellFormed(g, c.now, c.mint, c.delivery, c.preview);
      }
    case DraftsEvent(now) =>
      PruneDropsStaleFront(g, now);
      DropFrontWellFormed(g, StaleFront(g.drafts, g.order, now));
    case _ =>
  }

  // Where the order's tokens come from after one section: the old order, or this mint.
  lemma SectionOrder(g: GateState, e: Event)
    requires WellFormed(g) && !e.Wire?
    ensures forall t :: t in Section(g, e).0.order ==> t in g.order || (MintsDraft(e) && t == e.call.mint)
    ensures forall t :: t in Section(g, e).0.drafts ==>
              (t in g.drafts && Section(g, e).0.drafts[t] == g.drafts[t]) ||
              (MintsDraft(e) && t == e.call.mint && Section(g, e).0.drafts[t].delivery == e.call.delivery)
  {
    match e
    case SubmitEvent(c) =>
      if Mints(c) { MakeRoomDropsRoomFront(g, c.now); }
    case DraftsEvent(now) =>
      PruneDropsStaleFront(g, now);
    case _ =>
  }

  // A Submit without a token that may deliver at once: never block or unblock.
  predicate DirectSubmit(e: Event, d: Delivery) {
    e.SubmitEvent? && e.call.valid && e.call.draftToken == "" && e.call.delivery == d && !AlwaysDrafts(d.kind)
  }

  // A claim is for a draft that is thereby gone, for a read receipt, for a trusted recipient, or for the runner.
  lemma SectionClaims(g: GateState, e: Event)
    requires !e.Wire? && Section(g, e).1.Claimed?
    ensures var c := Section(g, e).1.claim; match c.via
            case ByToken(t) => t in g.drafts && c.delivery == g.drafts[t].delivery && t !in Section(g, e).0.drafts
            case ByRead => DirectSubmit(e, c.delivery) && c.delivery.kind == "read"
            case ByTrust => DirectSubmit(e, c.delivery) && e.call.trusted
            case BySchedule => e.ScheduledEvent? && c.delivery == e.delivery
    ensures !Section(g, e).1.claim.via.ByToken? ==> Section(g, e).0.drafts == g.drafts
    ensures ConfirmedIfBlock(Section(g, e).1.claim)
  {
  }

  // Every live draft and every token ever seen goes back to the one event that minted it;
  // a token is either live or claimed, and claimed once.
  ghost predicate Traced(es: seq<Event>, s: Sys) {
    && (forall t :: t in s.gate.order ==> MintedBefore(es, t))
    && (forall t :: t in s.gate.drafts ==> DraftedAs(es, t, s.gate.drafts[t].delivery))
    && ClaimsTraced(es, s)
  }

  ghost predicate ClaimsTraced(es: seq<Event>, s: Sys) {
    && (forall i :: 0 <= i < |s.claims| && s.claims[i].via.ByToken? ==>
                    s.claims[i].via.token !in s.gate.drafts &&
                    DraftedAs(es, s.claims[i].via.token, s.claims[i].delivery))
    && (forall i, j :: 0 <= i < j < |s.claims| && s.claims[i].via.ByToken? && s.claims[j].via.ByToken? ==>
                       s.claims[i].via.token != s.claims[j].via.token)
  }

  // A delivery that left without a draft was a read receipt, a trusted send, or a schedule firing.
  ghost predicate Entitled(es: seq<Event>, c: Claim) {
    match c.via
    case ByToken(t) => DraftedAs(es, t, c.delivery)
    case ByRead => c.delivery.kind == "read" && ReadSubmit(es, c.delivery)
    case ByTrust => TrustedSubmit(es, c.delivery)
    case BySchedule => ScheduledFire(es, c.delivery)
  }

  ghost predicate TrustedSubmit(es: seq<Event>, d: Delivery) {
    exists k :: 0 <= k < |es| && DirectSubmit(es[k], d) && es[k].call.trusted
  }

  ghost predicate ReadSubmit(es: seq<Event>, d: Delivery) {
    exists k :: 0 <= k < |es| && DirectSubmit(es[k], d)
  }

  ghost predicate ScheduledFire(es: seq<Event>, d: Delivery) {
    exists k :: 0 <= k < |es| && es[k].ScheduledEvent? && es[k].delivery == d
  }

  lemma HistoryGrows(es: seq<Event>, e: Event)
    ensures forall t :: MintedBefore(es, t) ==> MintedBefore(es + [e], t)
    ensures forall t, d :: DraftedAs(es, t, d) ==> DraftedAs(es + [e], t, d)
    ensures MintsDraft(e) ==> DraftedAs(es + [e], e.call.mint, e.call.delivery) && MintedBefore(es + [e], e.call.mint)
  {
    var es' := es + [e];
    assert es'[|es|] == e;
    assert forall k :: 0 <= k < |es| ==> es'[k] == es[k];
  }

  lemma EntitlementLasts(es: seq<Event>, e: Event)
    ensures forall c :: Entitled(es, c) ==> Entitled(es + [e], c)
    ensures e.SubmitEvent? && DirectSubmit(e, e.call.delivery) ==> ReadSubmit(es + [e], e.call.delivery)
    ensures e.SubmitEvent? && DirectSubmit(e, e.call.delivery) && e.call.trusted ==>
              TrustedSubmit(es + [e], e.call.delivery)
    ensures e.ScheduledEvent? ==> ScheduledFire(es + [e], e.delivery)
  {
    HistoryGrows(es, e);
    var es' := es + [e];
    assert es'[|es|] == e;
    assert forall k :: 0 <= k < |es| ==> es'[k] == es[k];
  }

  lemma FreshTokensPrefix(es: seq<Event>, e: Event)
    requires FreshTokens(es + [e])
    ensures FreshTokens(es)
    ensures MintsDraft(e) ==> e.call.mint != "" && !MintedBefore(es, e.call.mint)
  {
    var es' := es + [e];
    assert es'[|es|] == e;
    assert forall k :: 0 <= k < |es| ==> es'[k] == es[k];
  }

  lemma StepKeepsWellFormed(s: Sys, e: Event)
    requires WellFormedSys(s)
    requires MintsDraft(e) ==> e.call.mint !in s.gate.order
    ensures WellFormedSys(Next(s, e))
  {
    if !e.Wire? {
      SectionKeepsWellFormed(s.gate, e);
    }
  }

  lemma StepKeepsTraced(es: seq<Event>, s: Sys, e: Event)
    requires WellFormedSys(s) && Traced(es, s)
    requires MintsDraft(e) ==> !MintedBefore(es, e.call.mint)
    ensures Traced(es + [e], Next(s, e))
  {
    HistoryGrows(es, e);
    if !e.Wire? {
      SectionOrder(s.gate, e);
      StepKeepsClaimsTraced(es, s, e);
    }
  }

  lemma StepKeepsClaimsTraced(es: seq<Event>, s: Sys, e: Event)
    requires WellFormedSys(s) && Traced(es, s) && !e.Wire?
    requires MintsDraft(e) ==> !MintedBefore(es, e.call.mint)
    ensures ClaimsTraced(es + [e], Next(s, e))
  {
    HistoryGrows(es, e);
    ClaimedStayGone(es, s, e);
    if Section(s.gate, e).1.Claimed? {
      SectionClaims(s.gate, e);
      ClaimIsNew(es, s, Section(s.gate, e).1.claim);
      OneMoreClaim(es, es + [e], s, Next(s, e), Section(s.gate, e).1.claim);
    }
  }

  lemma OneMoreClaim(es: seq<Event>, es': seq<Event>, s: Sys, s': Sys, c: Claim)
    requires ClaimsTraced(es, s) && s'.claims == s.claims + [c]
    requires forall t, d :: DraftedAs(es, t, d) ==> DraftedAs(es', t, d)
    requires forall i :: 0 <= i < |s.claims| && s.claims[i].via.ByToken? ==> s.claims[i].via.token !in s'.gate.drafts
    requires forall i :: 0 <= i < |s.claims| && s.claims[i].via.ByToken? && c.via.ByToken? ==>
               s.claims[i].via.token != c.via.token
    requires c.via.ByToken? ==> c.via.token !in s'.gate.drafts && DraftedAs(es', c.via.token, c.delivery)
    ensures ClaimsTraced(es', s')
  {
  }

  // A claim takes a live draft, so no earlier claim had its token.
  lemma ClaimIsNew(es: seq<Event>, s: Sys, c: Claim)
    requires ClaimsTraced(es, s) && (c.via.ByToken? ==> c.via.token in s.gate.drafts)
    ensures forall i :: 0 <= i < |s.claims| && s.claims[i].via.ByToken? && c.via.ByToken? ==>
              s.claims[i].via.token != c.via.token
  {
  }

  // A spent token does not come back to life.
  lemma ClaimedStayGone(es: seq<Event>, s: Sys, e: Event)
    requires WellFormedSys(s) && Traced(es, s) && !e.Wire?
    requires MintsDraft(e) ==> !MintedBefore(es, e.call.mint)
    ensures forall i :: 0 <= i < |s.claims| && s.claims[i].via.ByToken? ==>
              s.claims[i].via.token !in Section(s.gate, e).0.drafts
  {
    SectionOrder(s.gate, e);
    forall i | 0 <= i < |s.claims| && s.claims[i].via.ByToken?
      ensures s.claims[i].via.token !in Section(s.gate, e).0.drafts
    {
      assert DraftedAs(es, s.claims[i].via.token, s.claims[i].delivery);
      assert MintedBefore(es, s.claims[i].via.token);
    }
  }

  lemma StepKeepsEntitled(es: seq<Event>, s: Sys, e: Event)
    requires Traced(es, s)
    requires forall i :: 0 <= i < |s.claims| ==> Entitled(es, s.claims[i])
    ensures forall i :: 0 <= i < |Next(s, e).claims| ==> Entitled(es + [e], Next(s, e).claims[i])
  {
    HistoryGrows(es, e);
    EntitlementLasts(es, e);
    if !e.Wire? && Section(s.gate, e).1.Claimed? {
      SectionClaims(s.gate, e);
    }
  }

  lemma {:induction false} RunKeepsTraced(burst: int, perSeconds: int, es: seq<Event>)
    requires FreshTokens(es)
    ensures var s := Run(Start(burst, perSeconds), es);
            WellFormedSys(s) && Traced(es, s) && forall i :: 0 <= i < |s.claims| ==> Entitled(es, s.claims[i])
  {
    if es != [] {
      var before, e := es[..|es| - 1], es[|es| - 1];
      assert es == before + [e];
      FreshTokensPrefix(before, e);
      RunKeepsTraced(burst, perSeconds, before);
      var s := Run(Start(burst, perSeconds), before);
      StepKeepsWellFormed(s, e);
      StepKeepsTraced(before, s, e);
      StepKeepsEntitled(before, s, e);
    }
  }

  // Changing someone's block status takes a draft, or was confirmed when it was scheduled.
  predicate ConfirmedIfBlock(c: Claim) {
    c.via.ByRead? || c.via.ByTrust? ==> c.delivery.kind != "block" && c.delivery.kind != "unblock"
  }

  // Over any run, no token causes two Deliver calls, each carries what was drafted under it,
  // and nothing else leaves but read receipts, trusted sends and schedule firings.
  lemma AtMostOnceAndOnlyAsDrafted(burst: int, perSeconds: int, es: seq<Event>)
    requires FreshTokens(es)
    ensures var s := Run(Start(burst, perSeconds), es);
      && (forall i :: 0 <= i < |s.wire| ==>
            s.wire[i] < |s.claims| && Entitled(es, s.claims[s.wire[i]]) && ConfirmedIfBlock(s.claims[s.wire[i]]))
      && (forall i, j :: 0 <= i < j < |s.wire| ==>
            s.wire[i] != s.wire[j] &&
            (s.claims[s.wire[i]].via.ByToken? && s.claims[s.wire[j]].via.ByToken? ==>
              s.claims[s.wire[i]].via.token != s.claims[s.wire[j]].via.token))
  {
    RunKeepsTraced(burst, perSeconds, es);
  }
}
