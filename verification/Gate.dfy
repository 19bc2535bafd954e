/** The gate every outbound send passes: drafts, their eviction order, and the shared limiter.

The functions give the meaning of each critical section on a `GateState`;
`Gate` is the object that runs them in place. A critical section receives the
clock reading its caller took before entering it. */
module Gate {
  import opened TokenBucket

  const DRAFT_TTL: Time := 300 * SECOND
  const DRAFT_CAP := 32

  type Token = string

  datatype Delivery = Delivery(
    kind: string,
    to: string,
    text: string,
    path: string,
    quotedID: string,
    messageIDs: seq<string>,
    author: string,
    options: seq<string>,
    selectableCount: int,
    fireAt: int)

  datatype Draft = Draft(delivery: Delivery, preview: string, expires: Time)

  datatype DraftInfo = DraftInfo(token: Token, preview: string, expires: Time)

  // What entitled a delivery to leave without a further confirmation.
  datatype Via = ByToken(token: Token) | ByRead | ByTrust | BySchedule

  // One limiter token spent on one delivery, with the clock reading it was spent at.
  datatype Claim = Claim(delivery: Delivery, via: Via, stamp: Time)

  datatype Outcome =
    | Refused
    | DraftInvalid
    | RateLimited
    | Drafted(token: Token)
    | Claimed(claim: Claim, preview: string)

  // One Submit call with what it reads from its surroundings: the deliverer's
  // verdict, the trust list's answer, a fresh token, the rendered preview, the clock.
  datatype Call = Call(
    delivery: Delivery,
    draftToken: Token,
    valid: bool,
    trusted: bool,
    mint: Token,
    preview: string,
    now: Time)

  datatype GateState = GateState(drafts: map<Token, Draft>, order: seq<Token>, bucket: Bucket)

  predicate AlwaysDrafts(kind: string) {
    kind == "block" || kind == "unblock"
  }

  predicate Unexpired(drafts: map<Token, Draft>, t: Token, now: Time) {
    t in drafts && now < drafts[t].expires
  }

  /* ----- meaning of the critical sections ----- */

  // Drops the front of the order up to the first live, unexpired draft.
  function Prune(s: GateState, now: Time): GateState
    decreases |s.order|
  {
    if s.order == [] || Unexpired(s.drafts, s.order[0], now) then s
    else Prune(s.(drafts := s.drafts - {s.order[0]}, order := s.order[1..]), now)
  }

  function EvictOldest(s: GateState): GateState {
    if s.order == [] then s else s.(drafts := s.drafts - {s.order[0]}, order := s.order[1..])
  }

  // Counts the whole order, stale tokens included, against the cap.
  function MakeRoom(s: GateState, now: Time): GateState {
    var pruned := Prune(s, now);
    if DRAFT_CAP <= |pruned.order| then EvictOldest(pruned) else pruned
  }

  function StoreDraft(s: GateState, now: Time, token: Token, d: Delivery, preview: string): GateState {
    var room := MakeRoom(s, now);
    room.(drafts := room.drafts[token := Draft(d, preview, now + DRAFT_TTL)], order := room.order + [token])
  }

  function TakeDraft(s: GateState, now: Time, token: Token, preview: string): (GateState, Outcome)
    requires token in s.drafts
  {
    if !s.bucket.Allows(now) then (s, RateLimited)
    else (s.(drafts := s.drafts - {token}, bucket := s.bucket.Spend(now)),
          Claimed(Claim(s.drafts[token].delivery, ByToken(token), now), preview))
  }

  function Commit(s: GateState, now: Time, token: Token, d: Delivery, preview: string): (GateState, Outcome) {
    if Unexpired(s.drafts, token, now) && s.drafts[token].delivery == d
    then TakeDraft(s, now, token, preview)
    else (s, DraftInvalid)
  }

  function Approve(s: GateState, now: Time, token: Token): (GateState, Outcome) {
    if Unexpired(s.drafts, token, now) then TakeDraft(s, now, token, s.drafts[token].preview)
    else (s, DraftInvalid)
  }

  function DeliverNow(s: GateState, now: Time, d: Delivery, via: Via, preview: string): (GateState, Outcome) {
    if !s.bucket.Allows(now) then (s, RateLimited)
    else (s.(bucket := s.bucket.Spend(now)), Claimed(Claim(d, via, now), preview))
  }

  // The call leaves a draft behind instead of delivering.
  predicate Mints(c: Call) {
    c.valid && c.draftToken == "" &&
    (AlwaysDrafts(c.delivery.kind) || (c.delivery.kind != "read" && !c.trusted))
  }

  function Submit(s: GateState, c: Call): (GateState, Outcome) {
    if !c.valid then (s, Refused)
    else if c.draftToken != "" then Commit(s, c.now, c.draftToken, c.delivery, c.preview)
    else if Mints(c) then (StoreDraft(s, c.now, c.mint, c.delivery, c.preview), Drafted(c.mint))
    else DeliverNow(s, c.now, c.delivery, if c.delivery.kind == "read" then ByRead else ByTrust, c.preview)
  }

  function DeliverScheduled(s: GateState, now: Time, d: Delivery, valid: bool, preview: string): (GateState, Outcome) {
    if !valid then (s, Refused) else DeliverNow(s, now, d, BySchedule, preview)
  }

  function Discard(s: GateState, token: Token): GateState {
    s.(drafts := s.drafts - {token})
  }

  // The drafts shown for an order, stale tokens skipped.
  function Listing(drafts: map<Token, Draft>, order: seq<Token>): seq<DraftInfo> {
    if order == [] then []
    else
      var t := order[|order| - 1];
      Listing(drafts, order[..|order| - 1]) +
      if t in drafts then [DraftInfo(t, drafts[t].preview, drafts[t].expires)] else []
  }

  // What the dashboard ought to see: every unexpired, unconsumed draft in creation order.
  function Pending(drafts: map<Token, Draft>, order: seq<Token>, now: Time): seq<DraftInfo> {
    Listing(map t | t in drafts && now < drafts[t].expires :: drafts[t], order)
  }

  /* ----- what one critical section keeps ----- */

  ghost predicate Distinct<T>(s: seq<T>) {
    forall i, j :: 0 <= i < j < |s| ==> s[i] != s[j]
  }

  // Live drafts are in the order; the order repeats nothing and stays within the cap.
  ghost predicate WellFormed(s: GateState) {
    && Distinct(s.order)
    && |s.order| <= DRAFT_CAP
    && (forall t :: t in s.drafts ==> t in s.order)
    && s.bucket.Valid()
  }

  // Loses the first n tokens of the order, with their drafts.
  function DropFront(s: GateState, n: nat): GateState
    requires n <= |s.order|
  {
    s.(drafts := s.drafts - (set t | t in s.order[..n]), order := s.order[n..])
  }

  // How many tokens lead the order without a live, unexpired draft.
  function StaleFront(drafts: map<Token, Draft>, order: seq<Token>, now: Time): (n: nat)
    ensures n <= |order|
    ensures forall i :: 0 <= i < n ==> !Unexpired(drafts, order[i], now)
    ensures n < |order| ==> Unexpired(drafts, order[n], now)
  {
    if order == [] || Unexpired(drafts, order[0], now) then 0 else 1 + StaleFront(drafts, order[1..], now)
  }

  function RoomFront(s: GateState, now: Time): (n: nat)
    ensures n <= |s.order|
  {
    var n := StaleFront(s.drafts, s.order, now);
    if DRAFT_CAP <= |s.order| - n then n + 1 else n
  }

  lemma DropFrontWellFormed(s: GateState, n: nat)
    requires WellFormed(s) && n <= |s.order|
    ensures WellFormed(DropFront(s, n))
  {
  }

  // Past the dropped front every token keeps what it had.
  lemma DropFrontKeeps(s: GateState, n: nat, i: nat)
    requires Distinct(s.order) && n <= i < |s.order|
    ensures var t := s.order[i];
            (t in DropFront(s, n).drafts <==> t in s.drafts) &&
            (t in s.drafts ==> DropFront(s, n).drafts[t] == s.drafts[t])
  {
  }

  lemma DropFrontStep(s: GateState, n: nat)
    requires n < |s.order|
    ensures DropFront(EvictOldest(s), n) == DropFront(s, n + 1)
  {
  }

  lemma {:induction false} StaleFrontIgnoresGone(drafts: map<Token, Draft>, order: seq<Token>, now: Time, gone: Token)
    requires gone !in order
    ensures StaleFront(drafts - {gone}, order, now) == StaleFront(drafts, order, now)
  {
  }

  // The loop drops exactly the stale front.
  lemma {:induction false} PruneDropsStaleFront(s: GateState, now: Time)
    requires Distinct(s.order)
    ensures Prune(s, now) == DropFront(s, StaleFront(s.drafts, s.order, now))
    decreases |s.order|
  {
    if s.order == [] || Unexpired(s.drafts, s.order[0], now) {
      assert s.order[0..] == s.order && s.drafts - {} == s.drafts;
      assert (set t | t in s.order[..0]) == {};
    } else {
      var rest := EvictOldest(s);
      PruneDropsStaleFront(rest, now);
      StaleFrontIgnoresGone(s.drafts, s.order[1..], now, s.order[0]);
      DropFrontStep(s, StaleFront(rest.drafts, rest.order, now));
    }
  }

  lemma MakeRoomDropsRoomFront(s: GateState, now: Time)
    requires WellFormed(s)
    ensures MakeRoom(s, now) == DropFront(s, RoomFront(s, now))
    ensures WellFormed(MakeRoom(s, now)) && |MakeRoom(s, now).order| < DRAFT_CAP
  {
    var n := StaleFront(s.drafts, s.order, now);
    PruneDropsStaleFront(s, now);
    DropFrontWellFormed(s, RoomFront(s, now));
    if DRAFT_CAP <= |s.order| - n {
      DropFrontCompose(s, n);
    }
  }

  lemma DropFrontCompose(s: GateState, n: nat)
    requires n < |s.order|
    ensures EvictOldest(DropFront(s, n)) == DropFront(s, n + 1)
  {
  }

  // A rate-limited or refused attempt changes nothing at all: the draft keeps its expiry and its place.
  lemma OnlyAClaimOrADraftChangesState(s: GateState, c: Call, now: Time, token: Token, d: Delivery,
                                       valid: bool, preview: string)
    ensures var (s', out) := Submit(s, c); !out.Claimed? && !out.Drafted? ==> s' == s
    ensures var (s', out) := Approve(s, now, token); !out.Claimed? ==> s' == s
    ensures var (s', out) := DeliverScheduled(s, now, d, valid, preview); !out.Claimed? ==> s' == s
  {
  }

  /* ----- the listing ----- */

  // An expired draft sits behind one that is still live.
  ghost predicate ExpiredBehindLive(s: GateState, now: Time) {
    exists i, j :: 0 <= i < j < |s.order| && Unexpired(s.drafts, s.order[i], now) &&
                   s.order[j] in s.drafts && !Unexpired(s.drafts, s.order[j], now)
  }

  lemma {:induction false} ListingAgrees(a: map<Token, Draft>, b: map<Token, Draft>, order: seq<Token>)
    requires forall t :: t in order ==> (t in a <==> t in b) && (t in a ==> a[t] == b[t])
    ensures Listing(a, order) == Listing(b, order)
  {
    if order != [] {
      ListingAgrees(a, b, order[..|order| - 1]);
    }
  }

  lemma {:induction false} ListingHolds(drafts: map<Token, Draft>, order: seq<Token>)
    ensures forall t :: t in order && t in drafts ==>
                        DraftInfo(t, drafts[t].preview, drafts[t].expires) in Listing(drafts, order)
    ensures forall d :: d in Listing(drafts, order) ==>
                        d.token in order && d.token in drafts && d.expires == drafts[d.token].expires
  {
    if order != [] {
      ListingHolds(drafts, order[..|order| - 1]);
    }
  }

  lemma {:induction false} ListingOfSuffix(drafts: map<Token, Draft>, gone: seq<Token>, order: seq<Token>)
    requires forall t :: t in gone ==> t !in drafts
    ensures Listing(drafts, gone + order) == Listing(drafts, order)
  {
    if order != [] {
      ListingOfSuffix(drafts, gone, order[..|order| - 1]);
      assert (gone + order)[..|gone + order| - 1] == gone + order[..|order| - 1];
    } else {
      assert gone + order == gone;
      ListingOfNone(drafts, gone);
    }
  }

  lemma {:induction false} ListingOfNone(drafts: map<Token, Draft>, order: seq<Token>)
    requires forall t :: t in order ==> t !in drafts
    ensures Listing(drafts, order) == []
  {
    if order != [] {
      ListingOfNone(drafts, order[..|order| - 1]);
    }
  }

  // Dropping a front with nothing pending in it leaves the pending drafts as they were.
  lemma DropFrontLosesNoPending(s: GateState, n: nat, now: Time)
    requires Distinct(s.order) && n <= |s.order|
    requires forall i :: 0 <= i < n ==> !Unexpired(s.drafts, s.order[i], now)
    ensures Pending(s.drafts, s.order, now) == Pending(DropFront(s, n).drafts, s.order[n..], now)
  {
    var live := map t | t in s.drafts && now < s.drafts[t].expires :: s.drafts[t];
    var kept := DropFront(s, n).drafts;
    assert s.order == s.order[..n] + s.order[n..];
    ListingOfSuffix(live, s.order[..n], s.order[n..]);
    forall t | t in s.order[n..]
      ensures t in kept <==> t in s.drafts
    {
      var i :| n <= i < |s.order| && s.order[i] == t;
      DropFrontKeeps(s, n, i);
    }
    ListingAgrees(live, map t | t in kept && now < kept[t].expires :: kept[t], s.order[n..]);
  }

  // A listing is the pending drafts exactly when the order holds no expired draft.
  lemma ListingIsPendingIffNoneExpired(s: GateState, now: Time)
    ensures Listing(s.drafts, s.order) == Pending(s.drafts, s.order, now) <==>
            forall i :: 0 <= i < |s.order| && s.order[i] in s.drafts ==> Unexpired(s.drafts, s.order[i], now)
  {
    var live := map t | t in s.drafts && now < s.drafts[t].expires :: s.drafts[t];
    if i :| 0 <= i < |s.order| && s.order[i] in s.drafts && !Unexpired(s.drafts, s.order[i], now) {
      var t := s.order[i];
      ListingHolds(s.drafts, s.order);
      ListingHolds(live, s.order);
      assert DraftInfo(t, s.drafts[t].preview, s.drafts[t].expires) in Listing(s.drafts, s.order);
    } else {
      ListingAgrees(s.drafts, live, s.order);
    }
  }

  // Past the stale front, an expired draft is one that hides behind the live draft the pruning stopped at.
  lemma ExpiredPastFrontIffBehindLive(s: GateState, now: Time)
    ensures ExpiredBehindLive(s, now) <==>
            exists j :: StaleFront(s.drafts, s.order, now) <= j < |s.order| &&
                        s.order[j] in s.drafts && !Unexpired(s.drafts, s.order[j], now)
  {
  }

  lemma DropFrontExpired(s: GateState, n: nat, now: Time)
    requires Distinct(s.order) && n <= |s.order|
    ensures (forall i :: 0 <= i < |s.order| - n && s.order[n..][i] in DropFront(s, n).drafts ==>
                         Unexpired(DropFront(s, n).drafts, s.order[n..][i], now)) <==>
            (forall j :: n <= j < |s.order| && s.order[j] in s.drafts ==> Unexpired(s.drafts, s.order[j], now))
  {
    forall j | n <= j < |s.order|
      ensures s.order[j] == s.order[n..][j - n]
      ensures s.order[j] in DropFront(s, n).drafts <==> s.order[j] in s.drafts
      ensures Unexpired(DropFront(s, n).drafts, s.order[j], now) <==> Unexpired(s.drafts, s.order[j], now)
    {
      DropFrontKeeps(s, n, j);
    }
  }

  // Pruning then listing shows exactly the pending drafts, and fails to only when an expired one hides behind a
  // live one.
  lemma DraftsListsExactlyThePending(s: GateState, now: Time)
    requires WellFormed(s)
    ensures Listing(Prune(s, now).drafts, Prune(s, now).order) == Pending(s.drafts, s.order, now)
            <==> !ExpiredBehindLive(s, now)
  {
    var n := StaleFront(s.drafts, s.order, now);
    PruneDropsStaleFront(s, now);
    DropFrontLosesNoPending(s, n, now);
    ListingIsPendingIffNoneExpired(DropFront(s, n), now);
    DropFrontExpired(s, n, now);
    ExpiredPastFrontIffBehindLive(s, now);
  }

  /* ----- what each call comes to ----- */

  // Without a token, block and unblock are always drafted, reads never, and the rest unless the recipient is trusted.
  lemma UntokenedSubmit(s: GateState, c: Call)
    requires c.valid && c.draftToken == ""
    ensures Submit(s, c).1 == Drafted(c.mint) <==>
            c.delivery.kind == "block" || c.delivery.kind == "unblock" || (c.delivery.kind != "read" && !c.trusted)
    ensures Submit(s, c).1.Drafted? || Submit(s, c).1 ==
            if !s.bucket.Allows(c.now) then RateLimited
            else Claimed(Claim(c.delivery, if c.delivery.kind == "read" then ByRead else ByTrust, c.now), c.preview)
  {
  }

  // An invalid call is refused whatever else it carries; a token is looked at before the kind or the trust list.
  lemma RefusedOrCommitted(s: GateState, c: Call)
    ensures Submit(s, c).1.Refused? <==> !c.valid
    ensures c.valid && c.draftToken != "" ==>
              Submit(s, c) == Commit(s, c.now, c.draftToken, c.delivery, c.preview)
  {
  }

  // A token commits exactly its own content, strictly before it expires, if the limiter has room.
  lemma CommittedIff(s: GateState, now: Time, token: Token, d: Delivery, preview: string)
    ensures var out := Commit(s, now, token, d, preview).1;
      && (out == DraftInvalid <==>
            !(token in s.drafts && now < s.drafts[token].expires && s.drafts[token].delivery == d))
      && (out.RateLimited? ==> !s.bucket.Allows(now))
      && (out.Claimed? ==> out == Claimed(Claim(d, ByToken(token), now), preview) && s.bucket.Allows(now))
      && (out.DraftInvalid? || out.RateLimited? || out.Claimed?)
  {
  }

  // Approval needs no content: it sends what was drafted, under the preview that was shown.
  lemma ApprovedIff(s: GateState, now: Time, token: Token)
    ensures var out := Approve(s, now, token).1;
      && (out == DraftInvalid <==> !(token in s.drafts && now < s.drafts[token].expires))
      && (out.RateLimited? ==> !s.bucket.Allows(now))
      && (out.Claimed? ==> token in s.drafts && s.bucket.Allows(now) &&
                           out.preview == s.drafts[token].preview &&
                           out.claim == Claim(s.drafts[token].delivery, ByToken(token), now))
      && (out.DraftInvalid? || out.RateLimited? || out.Claimed?)
  {
  }

  // A claim takes its own draft and one limiter token and leaves every other draft, and the order, alone.
  lemma ClaimTakesItsDraft(s: GateState, now: Time, token: Token, d: Delivery, preview: string, other: Token)
    ensures var (s', out) := Commit(s, now, token, d, preview); out.Claimed? ==> TakenFrom(s, s', now, token, other)
    ensures var (s', out) := Approve(s, now, token); out.Claimed? ==> TakenFrom(s, s', now, token, other)
  {
  }

  // Discarding takes that draft and nothing else: no credit, no place in the order, no other draft.
  lemma DiscardTakesOne(s: GateState, token: Token, other: Token)
    ensures token !in Discard(s, token).drafts
    ensures Discard(s, token).order == s.order && Discard(s, token).bucket == s.bucket
    ensures other != token ==> (other in Discard(s, token).drafts <==> other in s.drafts)
    ensures other != token && other in s.drafts ==> Discard(s, token).drafts[other] == s.drafts[other]
  {
  }

  // A scheduled delivery is refused only when invalid and waits only for the limiter.
  lemma ScheduledIff(s: GateState, now: Time, d: Delivery, valid: bool, preview: string)
    ensures DeliverScheduled(s, now, d, valid, preview).1 ==
            if !valid then Refused
            else if !s.bucket.Allows(now) then RateLimited
            else Claimed(Claim(d, BySchedule, now), preview)
    ensures DeliverScheduled(s, now, d, valid, preview).0.drafts == s.drafts
    ensures DeliverScheduled(s, now, d, valid, preview).0.order == s.order
  {
  }

  ghost predicate TakenFrom(s: GateState, s': GateState, now: Time, token: Token, other: Token) {
    && token !in s'.drafts && s'.order == s.order && s'.bucket == s.bucket.Spend(now)
    && (other != token ==> (other in s'.drafts <==> other in s.drafts))
    && (other != token && other in s.drafts ==> s'.drafts[other] == s.drafts[other])
  }

  // The rows of a listing stand where their tokens stand in the order, and no live draft is left out.
  lemma {:induction false} ListingFollowsTheOrder(drafts: map<Token, Draft>, order: seq<Token>) returns (at: seq<nat>)
    ensures |at| == |Listing(drafts, order)|
    ensures forall i :: 0 <= i < |at| ==>
              at[i] < |order| && order[at[i]] in drafts &&
              Listing(drafts, order)[i].token == order[at[i]] &&
              Listing(drafts, order)[i].preview == drafts[order[at[i]]].preview &&
              Listing(drafts, order)[i].expires == drafts[order[at[i]]].expires
    ensures forall i, j :: 0 <= i < j < |at| ==> at[i] < at[j]
    ensures forall p: nat :: p in at <==> p < |order| && order[p] in drafts
  {
    at := [];
    if order != [] {
      var n := |order| - 1;
      var front := ListingFollowsTheOrder(drafts, order[..n]);
      at := front;
      if order[n] in drafts {
        at := front + [n];
      }
    }
  }

  /* ----- the object ----- */

  class Gate {
    var drafts: map<Token, Draft>
    var order: seq<Token>
    var bucket: Bucket
    ghost var wire: seq<Claim>  // the Deliver calls made so far

    function State(): GateState
      reads this
    {
      GateState(drafts, order, bucket)
    }

    constructor (burst: int, perSeconds: int)
      ensures WellFormed(State()) && drafts.Keys == {} && order == [] && wire == []
      ensures bucket == NewBucket(burst, perSeconds)
    {
      drafts, order, bucket, wire := map[], [], NewBucket(burst, perSeconds), [];
    }

    method PruneExpiredLocked(now: Time)
      modifies this`drafts, this`order
      ensures State() == Prune(old(State()), now)
    {
      while |order| > 0
        invariant bucket == old(bucket)
        invariant Prune(State(), now) == Prune(old(State()), now)
        decreases |order|
      {
        if order[0] in drafts && now < drafts[order[0]].expires {
          break;
        }
        drafts := drafts - {order[0]};
        order := order[1..];
      }
    }

    method EvictOldestLocked()
      modifies this`drafts, this`order
      ensures State() == EvictOldest(old(State()))
    {
      if |order| == 0 {
        return;
      }
      drafts := drafts - {order[0]};
      order := order[1..];
    }

    method StoreDraftLocked(now: Time, token: Token, d: Delivery, preview: string)
      modifies this`drafts, this`order
      ensures State() == StoreDraft(old(State()), now, token, d, preview)
    {
      PruneExpiredLocked(now);
      if |order| >= DRAFT_CAP {
        EvictOldestLocked();
      }
      drafts := drafts[token := Draft(d, preview, now + DRAFT_TTL)];
      order := order + [token];
    }

    // Claim and deliver; the outcome of the send never restores the draft.
    method CommitDraft(now: Time, token: Token, d: Delivery, preview: string) returns (out: Outcome)
      modifies this
      ensures (State(), out) == Commit(old(State()), now, token, d, preview)
      ensures wire == old(wire) + if out.Claimed? then [out.claim] else []
    {
      if token !in drafts || drafts[token].expires <= now || drafts[token].delivery != d {
        return DraftInvalid;
      }
      if !bucket.Allows(now) {
        return RateLimited;
      }
      bucket := bucket.Spend(now);
      drafts := drafts - {token};
      out := Claimed(Claim(d, ByToken(token), now), preview);
      wire := wire + [out.claim];
    }

    method ApproveDraft(now: Time, token: Token) returns (out: Outcome)
      modifies this
      ensures (State(), out) == Approve(old(State()), now, token)
      ensures wire == old(wire) + if out.Claimed? then [out.claim] else []
    {
      if token !in drafts || drafts[token].expires <= now {
        return DraftInvalid;
      }
      if !bucket.Allows(now) {
        return RateLimited;
      }
      var entry := drafts[token];
      bucket := bucket.Spend(now);
      drafts := drafts - {token};
      out := Claimed(Claim(entry.delivery, ByToken(token), now), entry.preview);
      wire := wire + [out.claim];
    }

    method Deliver(now: Time, d: Delivery, via: Via, preview: string) returns (out: Outcome)
      modifies this
      ensures (State(), out) == DeliverNow(old(State()), now, d, via, preview)
      ensures wire == old(wire) + if out.Claimed? then [out.claim] else []
    {
      if !bucket.Allows(now) {
        return RateLimited;
      }
      bucket := bucket.Spend(now);
      out := Claimed(Claim(d, via, now), preview);
      wire := wire + [out.claim];
    }

    method SubmitCall(c: Call) returns (out: Outcome)
      modifies this
      ensures (State(), out) == Submit(old(State()), c)
      ensures wire == old(wire) + if out.Claimed? then [out.claim] else []
    {
      if !c.valid {
        return Refused;
      }
      if c.draftToken != "" {
        out := CommitDraft(c.now, c.draftToken, c.delivery, c.preview);
        return;
      }
      if AlwaysDrafts(c.delivery.kind) {
        StoreDraftLocked(c.now, c.mint, c.delivery, c.preview);
        return Drafted(c.mint);
      }
      if c.delivery.kind == "read" || c.trusted {
        out := Deliver(c.now, c.delivery, if c.delivery.kind == "read" then ByRead else ByTrust, c.preview);
        return;
      }
      StoreDraftLocked(c.now, c.mint, c.delivery, c.preview);
      out := Drafted(c.mint);
    }

    method DeliverScheduledEntry(now: Time, d: Delivery, valid: bool, preview: string) returns (out: Outcome)
      modifies this
      ensures (State(), out) == DeliverScheduled(old(State()), now, d, valid, preview)
      ensures wire == old(wire) + if out.Claimed? then [out.claim] else []
    {
      if !valid {
        return Refused;
      }
      out := Deliver(now, d, BySchedule, preview);
    }

    method DiscardDraft(token: Token) returns (found: bool)
      modifies this`drafts
      ensures State() == Discard(old(State()), token)
      ensures found <==> token in old(drafts)
    {
      if token !in drafts {
        return false;
      }
      drafts := drafts - {token};
      found := true;
    }

    method Drafts(now: Time) returns (out: seq<DraftInfo>)
      modifies this`drafts, this`order
      ensures State() == Prune(old(State()), now)
      ensures out == Listing(drafts, order)
    {
      PruneExpiredLocked(now);
      out := [];
      for i := 0 to |order|
        invariant out == Listing(drafts, order[..i])
      {
        assert order[..i + 1][..i] == order[..i];
        var token := order[i];
        if token !in drafts {
          continue;
        }
        out := out + [DraftInfo(token, drafts[token].preview, drafts[token].expires)];
      }
      assert order[..|order|] == order;
    }
  }
}
